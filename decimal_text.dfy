// Decimal rendering of natural numbers, shared by the state labels and the timestamp
// formatter: the digits printf's %d writes, and the zero padding of %02d and %04d.

module DecimalText {

  predicate IsDigit(c: char) {
    '0' as int <= c as int <= '9' as int
  }

  /** Decimal digits of n, most significant first, without leading zeros. */
  function Decimal(n: nat): (r: string)
    ensures |r| >= 1
    decreases n
  {
    if n < 10 then [(n + '0' as int) as char] else Decimal(n / 10) + [((n % 10) + '0' as int) as char]
  }

  /** The numbers ten to nineteen are written as a one followed by their last digit. */
  lemma DecimalTeens(n: nat)
    requires 10 <= n < 20
    ensures Decimal(n) == ['1', (n - 10 + '0' as int) as char]
  {
    assert n / 10 == 1 && n % 10 == n - 10;
  }

  /** The value of a string of digits. */
  function Value(s: string): nat
    requires forall k :: 0 <= k < |s| ==> IsDigit(s[k])
  {
    if s == [] then 0
    else
      assert IsDigit(s[|s| - 1]);
      10 * Value(s[..|s| - 1]) + (s[|s| - 1] as int - '0' as int)
  }

  /** Decimal writes only digits, and reading them back gives the number. */
  lemma {:induction false} DecimalRoundTrip(n: nat)
    ensures forall k :: 0 <= k < |Decimal(n)| ==> IsDigit(Decimal(n)[k])
    ensures Value(Decimal(n)) == n
    decreases n
  {
    if n >= 10 {
      DecimalRoundTrip(n / 10);
      var d := Decimal(n);
      assert d[..|d| - 1] == Decimal(n / 10);
    }
  }

  /** Decimal uses exactly as many digits as n needs. */
  lemma {:induction false} DecimalLength(n: nat, width: nat)
    requires width >= 1
    ensures n < Pow10(width) <==> |Decimal(n)| <= width
    decreases n
  {
    if n >= 10 {
      if width == 1 {
        DecimalLength(n / 10, 1);
      } else {
        DecimalLength(n / 10, width - 1);
      }
    }
  }

  function Pow10(k: nat): (r: nat)
    ensures r >= 1
  {
    if k == 0 then 1 else 10 * Pow10(k - 1)
  }

  function Zeros(k: nat): (r: string)
    ensures |r| == k && forall i :: 0 <= i < k ==> r[i] == '0'
  {
    if k == 0 then "" else "0" + Zeros(k - 1)
  }

  /** %0<width>d: n's digits, left-padded with zeros to at least width characters. */
  function ZeroPad(n: nat, width: nat): string {
    var d := Decimal(n);
    if |d| >= width then d else Zeros(width - |d|) + d
  }

  /** Leading zeros do not change a value. */
  lemma {:induction false} ZerosValue(k: nat, s: string)
    requires forall i :: 0 <= i < |s| ==> IsDigit(s[i])
    ensures forall i :: 0 <= i < |Zeros(k) + s| ==> IsDigit((Zeros(k) + s)[i])
    ensures Value(Zeros(k) + s) == Value(s)
    decreases |s|
  {
    if s == [] {
      assert Zeros(k) + s == Zeros(k);
      ZerosOnly(k);
    } else {
      var t := Zeros(k) + s;
      assert t[..|t| - 1] == Zeros(k) + s[..|s| - 1];
      ZerosValue(k, s[..|s| - 1]);
    }
  }

  lemma {:induction false} ZerosOnly(k: nat)
    ensures Value(Zeros(k)) == 0
  {
    if k > 0 {
      assert Zeros(k)[..k - 1] == Zeros(k - 1) by {
        assert Zeros(k) == Zeros(k - 1) + "0" by { ZerosShift(k); }
      }
      ZerosOnly(k - 1);
    }
  }

  lemma {:induction false} ZerosShift(k: nat)
    requires k > 0
    ensures Zeros(k) == Zeros(k - 1) + "0"
  {
  }

  /** A number below 10^width pads to exactly width digits that read back as the number. */
  lemma ZeroPadExact(n: nat, width: nat)
    requires width >= 1 && n < Pow10(width)
    ensures |ZeroPad(n, width)| == width
    ensures forall k :: 0 <= k < width ==> IsDigit(ZeroPad(n, width)[k])
    ensures Value(ZeroPad(n, width)) == n
  {
    DecimalLength(n, width);
    DecimalRoundTrip(n);
    ZerosValue(width - |Decimal(n)|, Decimal(n));
  }
}
