// The barometer test sketch (examples/baro/baro_test.cpp): a median-of-five filter over a
// ring buffer of altitudes, sorted by an in-place exchange sort on a copy, the plausibility
// check on each reading, and running min/max statistics reset every tenth reading.

module BaroFilter {

  /** Window size of the median filter. */
  const N: nat := 5

  /** The sketch targets an ATmega328P, where an int is 16 bits: the two's-complement wrap of
      an int counter. */
  function Wrap16(x: int): (r: int)
    ensures -0x8000 <= r < 0x8000
    ensures -0x8000 <= x < 0x8000 ==> r == x
  {
    (x + 0x8000) % 0x1_0000 - 0x8000
  }

  /** C's % on int: the remainder takes the sign of the dividend. */
  function CRem(a: int, b: int): (r: int)
    requires b > 0
    ensures a >= 0 ==> 0 <= r < b
    ensures a < 0 ==> -b < r <= 0
  {
    if a >= 0 then a % b else -((-a) % b)
  }

  /** The slot "altBuf[altIndex++ % N]" writes, as written: the 16-bit counter value taken
      modulo N with C's remainder. */
  function SlotAsWritten(altIndex: int): int
    requires -0x8000 <= altIndex < 0x8000
  {
    CRem(altIndex, N)
  }

  /** The counter the next call sees, as written: altIndex++ on a 16-bit int. */
  function NextIndexAsWritten(altIndex: int): (r: int)
    requires -0x8000 <= altIndex < 0x8000
    ensures -0x8000 <= r < 0x8000
  {
    Wrap16(altIndex + 1)
  }

  /** As written, call k sees the counter at k - 1, so the first 32768 calls stay in the
      buffer (the 32768th writes altBuf[2]); the counter then wraps to -32768 and the 32769th
      call writes altBuf[-3], before the start of the buffer. */
  lemma AsWrittenIndexLeavesBuffer(altIndex: int)
    requires 0 <= altIndex < 0x8000
    ensures 0 <= SlotAsWritten(altIndex) < N
    ensures SlotAsWritten(0x7FFF) == 2
    ensures NextIndexAsWritten(0x7FFF) == -0x8000
    ensures SlotAsWritten(NextIndexAsWritten(0x7FFF)) == -3
  {
  }

  /** The evidently intended ring index: kept in 0..N-1 and advanced modulo N, so it cannot
      overflow. */
  function NextSlot(slot: nat): (r: nat)
    requires slot < N
    ensures r < N
  {
    (slot + 1) % N
  }

  /** The slot after n writes from an empty filter. */
  function SlotAfter(n: nat): (r: nat)
    ensures r < N
  {
    if n == 0 then 0 else NextSlot(SlotAfter(n - 1))
  }

  /** The bounded ring index visits exactly the slots an unbounded counter taken modulo N
      would, for every number of writes: the intended "altIndex++ % N". */
  lemma {:induction false} SlotAfterIsCountModN(n: nat)
    ensures SlotAfter(n) == n % N
  {
    if n > 0 {
      SlotAfterIsCountModN(n - 1);
    }
  }

  predicate Sorted(s: seq<real>) {
    forall i, j :: 0 <= i < j < |s| ==> s[i] <= s[j]
  }

  /** The number of elements of s that are at most m, and at least m. */
  function CountAtMost(s: seq<real>, m: real): (c: nat)
    ensures c <= |s|
  {
    if s == [] then 0 else CountAtMost(s[..|s| - 1], m) + (if s[|s| - 1] <= m then 1 else 0)
  }

  function CountAtLeast(s: seq<real>, m: real): (c: nat)
    ensures c <= |s|
  {
    if s == [] then 0 else CountAtLeast(s[..|s| - 1], m) + (if s[|s| - 1] >= m then 1 else 0)
  }

  lemma {:induction false} CountsAppend(a: seq<real>, b: seq<real>, m: real)
    ensures CountAtMost(a + b, m) == CountAtMost(a, m) + CountAtMost(b, m)
    ensures CountAtLeast(a + b, m) == CountAtLeast(a, m) + CountAtLeast(b, m)
    decreases |b|
  {
    if b == [] {
      assert a + b == a;
    } else {
      assert (a + b)[..|a + b| - 1] == a + b[..|b| - 1];
      CountsAppend(a, b[..|b| - 1], m);
    }
  }

  /** Taking one element out of a sequence lowers each count by that element's share. */
  lemma RemoveOne(b: seq<real>, i: nat, m: real)
    requires i < |b|
    ensures CountAtMost(b, m) == CountAtMost(b[..i] + b[i + 1..], m) + (if b[i] <= m then 1 else 0)
    ensures CountAtLeast(b, m) == CountAtLeast(b[..i] + b[i + 1..], m) + (if b[i] >= m then 1 else 0)
  {
    assert b == b[..i] + ([b[i]] + b[i + 1..]);
    CountsAppend(b[..i], [b[i]] + b[i + 1..], m);
    CountsAppend([b[i]], b[i + 1..], m);
    CountsAppend(b[..i], b[i + 1..], m);
    assert [b[i]][..0] == [];
  }

  /** Removing the same value from two permutations of each other leaves permutations. */
  lemma RemoveFromPermutation(a: seq<real>, b: seq<real>, i: nat)
    requires |a| > 0 && i < |b| && b[i] == a[|a| - 1] && multiset(a) == multiset(b)
    ensures multiset(a[..|a| - 1]) == multiset(b[..i] + b[i + 1..])
  {
    var x := b[i];
    assert b == b[..i] + [x] + b[i + 1..];
    assert a == a[..|a| - 1] + [x];
    assert multiset(b[..i] + b[i + 1..]) == multiset(b) - multiset{x};
    assert multiset(a[..|a| - 1]) == multiset(a) - multiset{x};
  }

  /** Counting depends only on the multiset of values. */
  lemma {:induction false} CountsOfPermutation(a: seq<real>, b: seq<real>, m: real)
    requires multiset(a) == multiset(b)
    ensures CountAtMost(a, m) == CountAtMost(b, m) && CountAtLeast(a, m) == CountAtLeast(b, m)
    decreases |a|
  {
    if a != [] {
      var x := a[|a| - 1];
      assert x in multiset(b) by {
        assert a == a[..|a| - 1] + [x];
        assert x in multiset(a);
      }
      var i :| 0 <= i < |b| && b[i] == x;
      RemoveFromPermutation(a, b, i);
      CountsOfPermutation(a[..|a| - 1], b[..i] + b[i + 1..], m);
      RemoveOne(b, i, m);
    }
  }

  /** When every element is at most (at least) m, all of them count. */
  lemma {:induction false} CountAll(s: seq<real>, m: real)
    ensures (forall k :: 0 <= k < |s| ==> s[k] <= m) ==> CountAtMost(s, m) == |s|
    ensures (forall k :: 0 <= k < |s| ==> s[k] >= m) ==> CountAtLeast(s, m) == |s|
  {
    if s != [] {
      CountAll(s[..|s| - 1], m);
    }
  }

  /** In a sorted window of five, the middle element has at least three elements at or
      below it and three at or above it. */
  lemma {:induction false} MiddleOfSorted(s: seq<real>)
    requires |s| == N && Sorted(s)
    ensures CountAtMost(s, s[2]) >= 3 && CountAtLeast(s, s[2]) >= 3
  {
    assert s == s[..3] + s[3..];
    CountsAppend(s[..3], s[3..], s[2]);
    CountAll(s[..3], s[2]);
    assert s == s[..2] + s[2..];
    CountsAppend(s[..2], s[2..], s[2]);
    CountAll(s[2..], s[2]);
  }

  /** The exchange sort of filterAltitude: for each position i, every later element smaller
      than the one at i is swapped into place. The array ends sorted and a permutation of
      what it held. */
  method ExchangeSort(a: array<real>)
    requires a.Length == N
    modifies a
    ensures Sorted(a[..]) && multiset(a[..]) == multiset(old(a[..]))
  {
    var i := 0;
    while i < N - 1
      invariant 0 <= i <= N - 1
      invariant forall k, l :: 0 <= k < l < a.Length && k < i ==> a[k] <= a[l]
      invariant multiset(a[..]) == multiset(old(a[..]))
    {
      var j := i + 1;
      while j < N
        invariant i + 1 <= j <= N
        invariant forall k, l :: 0 <= k < l < a.Length && k < i ==> a[k] <= a[l]
        invariant forall l :: i < l < j ==> a[i] <= a[l]
        invariant multiset(a[..]) == multiset(old(a[..]))
      {
        if a[j] < a[i] {
          a[i], a[j] := a[j], a[i];
        }
        j := j + 1;
      }
      i := i + 1;
    }
  }

  /** The filter's static state: the ring buffer and its index. The buffer starts as five
      zeros (static initialisation), so the first four medians include zeros. */
  class MedianFilter {
    const altBuf: array<real>
    var altIndex: nat
    /** How many altitudes have been filtered. */
    ghost var count: nat

    ghost predicate Valid()
      reads this
    {
      altBuf.Length == N && altIndex == count % N
    }

    constructor ()
      ensures Valid() && fresh(altBuf)
      ensures altBuf[..] == [0.0, 0.0, 0.0, 0.0, 0.0] && count == 0
    {
      altBuf := new real[N](_ => 0.0);
      altIndex := 0;
      count := 0;
    }

    /** filterAltitude, with the ring index kept bounded: store newAlt in the current slot,
        leaving the other four, advance the index, and return the median of the window,
        which has at least three buffered values at or below it and three at or above it. */
    method FilterAltitude(newAlt: real) returns (median: real)
      requires Valid()
      modifies this, altBuf
      ensures Valid() && count == old(count) + 1
      ensures altBuf[..] == old(altBuf[..])[old(altIndex) := newAlt]
      ensures median in altBuf[..]
      ensures CountAtMost(altBuf[..], median) >= 3 && CountAtLeast(altBuf[..], median) >= 3
    {
      altBuf[altIndex] := newAlt;
      altIndex := NextSlot(altIndex);
      count := count + 1;
      median := WindowMedian(altBuf);
    }
  }

  /** The median step of filterAltitude: copy the window, sort the copy and take its middle
      element; the window itself is left as it was. */
  method WindowMedian(window: array<real>) returns (median: real)
    requires window.Length == N
    ensures median in window[..]
    ensures CountAtMost(window[..], median) >= 3 && CountAtLeast(window[..], median) >= 3
  {
    var sorted := new real[N];
    forall k | 0 <= k < N {
      sorted[k] := window[k];
    }
    assert sorted[..] == window[..];
    ExchangeSort(sorted);
    median := sorted[N / 2];
    MiddleOfSorted(sorted[..]);
    CountsOfPermutation(sorted[..], window[..], median);
    assert median in multiset(sorted[..]);
  }

  /** validReading without the NaN test: -40..85 degrees C and 300..1100 hPa, bounds
      included. */
  predicate ValidReading(temp: real, press: real) {
    !(temp < -40.0 || temp > 85.0) && !(press < 300.0 || press > 1100.0)
  }

  lemma ValidReadingBounds(temp: real, press: real)
    ensures ValidReading(temp, press) <==> -40.0 <= temp <= 85.0 && 300.0 <= press <= 1100.0
    ensures ValidReading(-40.0, 300.0) && ValidReading(85.0, 1100.0)
    ensures !ValidReading(85.5, 1000.0) && !ValidReading(20.0, 299.0)
  {
  }

  /** The sentinels the statistics restart from. */
  const MinSentinel: real := 999999.0
  const MaxPressureSentinel: real := 0.0
  const MaxSentinel: real := -999999.0

  function Min(a: real, b: real): (r: real)
    ensures r <= a && r <= b && (r == a || r == b)
  {
    if b < a then b else a
  }

  function Max(a: real, b: real): (r: real)
    ensures r >= a && r >= b && (r == a || r == b)
  {
    if b > a then b else a
  }

  /** Widening a range to take in x keeps every earlier value inside it and adds x. */
  lemma WidenRange(xs: seq<real>, lo: real, hi: real, x: real)
    requires forall k :: 0 <= k < |xs| ==> lo <= xs[k] <= hi
    ensures forall k :: 0 <= k < |xs + [x]| ==> Min(lo, x) <= (xs + [x])[k] <= Max(hi, x)
  {
  }

  /** The statistics globals of the sketch as a value. readingCount is a 16-bit int. */
  datatype Ranges = Ranges(minPressure: real, maxPressure: real, minTemp: real, maxTemp: real,
                           minAltitude: real, maxAltitude: real, readingCount: int)

  /** Every range at its sentinel, with the given count. */
  function Reset(count: int): Ranges {
    Ranges(MinSentinel, MaxPressureSentinel, MinSentinel, MaxSentinel, MinSentinel, MaxSentinel, count)
  }

  /** readingCount++ and each range widened to take in the reading. */
  function Widen(r: Ranges, pressure: real, temperature: real, altitude: real): Ranges
    requires -0x8000 <= r.readingCount < 0x8000
  {
    Ranges(Min(r.minPressure, pressure), Max(r.maxPressure, pressure),
           Min(r.minTemp, temperature), Max(r.maxTemp, temperature),
           Min(r.minAltitude, altitude), Max(r.maxAltitude, altitude),
           Wrap16(r.readingCount + 1))
  }

  /** A report falls on a count whose C remainder by 10 is zero. */
  predicate Reports(count: int) {
    CRem(count, 10) == 0
  }

  /** The statistics part of loop for an accepted reading: count and widen, then report and
      restart the ranges when the count calls for it. */
  function Tally(r: Ranges, pressure: real, temperature: real, altitude: real): Ranges
    requires -0x8000 <= r.readingCount < 0x8000
  {
    var w := Widen(r, pressure, temperature, altitude);
    if Reports(w.readingCount) then Reset(w.readingCount) else w
  }

  /** What one accepted reading does to the statistics: the count steps on (wrapping at
      16 bits); on a reporting count every range is back at its sentinel; otherwise each
      range only grows, takes in the reading, and moves an end only to the reading. */
  lemma TallyRules(r: Ranges, pressure: real, temperature: real, altitude: real)
    requires -0x8000 <= r.readingCount < 0x8000
    ensures var n := Tally(r, pressure, temperature, altitude);
      && n.readingCount == Wrap16(r.readingCount + 1)
      && (r.readingCount < 0x7FFF ==> n.readingCount == r.readingCount + 1)
      && (Reports(n.readingCount) ==> n == Reset(n.readingCount))
      && (!Reports(n.readingCount) ==>
            && n.minPressure <= r.minPressure && n.maxPressure >= r.maxPressure
            && n.minTemp <= r.minTemp && n.maxTemp >= r.maxTemp
            && n.minAltitude <= r.minAltitude && n.maxAltitude >= r.maxAltitude
            && n.minPressure <= pressure <= n.maxPressure
            && n.minTemp <= temperature <= n.maxTemp
            && n.minAltitude <= altitude <= n.maxAltitude
            && (n.minPressure == r.minPressure || n.minPressure == pressure)
            && (n.maxPressure == r.maxPressure || n.maxPressure == pressure)
            && (n.minTemp == r.minTemp || n.minTemp == temperature)
            && (n.maxTemp == r.maxTemp || n.maxTemp == temperature)
            && (n.minAltitude == r.minAltitude || n.minAltitude == altitude)
            && (n.maxAltitude == r.maxAltitude || n.maxAltitude == altitude))
  {
  }

  /** Until the counter wraps, a report comes exactly on every tenth reading. */
  lemma ReportsEveryTenth(count: int)
    requires 0 <= count < 0x7FFF
    ensures Reports(Wrap16(count + 1)) <==> (count + 1) % 10 == 0
  {
  }

  /** As written, the report at reading 32760 is followed by sixteen readings, not ten, before
      the next: the count runs on to 32767, wraps to -32768, whose C remainder by 10 is -8, and
      reaches a multiple of ten again only at -32760. */
  lemma ReportGapAcrossWrap(k: int)
    requires 1 <= k < 16
    ensures Reports(0x7FF8)
    ensures !Reports(Wrap16(0x7FF8 + k))
    ensures Reports(Wrap16(0x7FF8 + 16)) && Wrap16(0x7FF8 + 16) == -0x7FF8
  {
    assert CRem(-0x8000, 10) == -8;
  }

  /** The statistics globals of the sketch, with ghost records of the readings taken since
      the last reset. */
  class Statistics {
    var minPressure: real
    var maxPressure: real
    var minTemp: real
    var maxTemp: real
    var minAltitude: real
    var maxAltitude: real
    var readingCount: int
    ghost var pressures: seq<real>
    ghost var temps: seq<real>
    ghost var altitudes: seq<real>

    function Snapshot(): Ranges
      reads this
    {
      Ranges(minPressure, maxPressure, minTemp, maxTemp, minAltitude, maxAltitude, readingCount)
    }

    /** The count fits a 16-bit int, and every reading since the last reset lies within the
        recorded range. */
    ghost predicate Valid()
      reads this
    {
      InRange() && -0x8000 <= readingCount < 0x8000
    }

    ghost predicate InRange()
      reads this
    {
      && (forall k :: 0 <= k < |pressures| ==> minPressure <= pressures[k] <= maxPressure)
      && (forall k :: 0 <= k < |temps| ==> minTemp <= temps[k] <= maxTemp)
      && (forall k :: 0 <= k < |altitudes| ==> minAltitude <= altitudes[k] <= maxAltitude)
    }

    constructor ()
      ensures Valid() && Snapshot() == Reset(0)
      ensures pressures == [] && temps == [] && altitudes == []
    {
      minPressure, maxPressure := MinSentinel, MaxPressureSentinel;
      minTemp, maxTemp := MinSentinel, MaxSentinel;
      minAltitude, maxAltitude := MinSentinel, MaxSentinel;
      readingCount := 0;
      pressures, temps, altitudes := [], [], [];
    }

    /** The statistics part of loop for an accepted reading; every value since the last
        report stays within its range. */
    method Record(pressure: real, temperature: real, altitude: real)
      requires Valid()
      modifies this
      ensures Valid()
      ensures Snapshot() == Tally(old(Snapshot()), pressure, temperature, altitude)
      ensures !Reports(readingCount) ==>
        pressures == old(pressures) + [pressure] && temps == old(temps) + [temperature]
        && altitudes == old(altitudes) + [altitude]
      ensures Reports(readingCount) ==> pressures == [] && temps == [] && altitudes == []
    {
      Include(pressure, temperature, altitude);
      if CRem(readingCount, 10) == 0 {
        Restart();
      }
    }

    /** readingCount++ and each range widened to include the reading. */
    method Include(pressure: real, temperature: real, altitude: real)
      requires Valid()
      modifies this
      ensures Valid()
      ensures Snapshot() == Widen(old(Snapshot()), pressure, temperature, altitude)
      ensures pressures == old(pressures) + [pressure] && temps == old(temps) + [temperature]
      ensures altitudes == old(altitudes) + [altitude]
    {
      WidenRange(pressures, minPressure, maxPressure, pressure);
      WidenRange(temps, minTemp, maxTemp, temperature);
      WidenRange(altitudes, minAltitude, maxAltitude, altitude);
      readingCount := Wrap16(readingCount + 1);
      minPressure := Min(minPressure, pressure);
      maxPressure := Max(maxPressure, pressure);
      minTemp := Min(minTemp, temperature);
      maxTemp := Max(maxTemp, temperature);
      minAltitude := Min(minAltitude, altitude);
      maxAltitude := Max(maxAltitude, altitude);
      pressures, temps, altitudes := pressures + [pressure], temps + [temperature], altitudes + [altitude];
    }

    /** The report: each range restarts from its sentinel. */
    method Restart()
      requires -0x8000 <= readingCount < 0x8000
      modifies this
      ensures Valid() && Snapshot() == Reset(old(readingCount))
      ensures pressures == [] && temps == [] && altitudes == []
    {
      minPressure := MinSentinel;
      maxPressure := MaxPressureSentinel;
      minTemp := MinSentinel;
      maxTemp := MaxSentinel;
      minAltitude := MinSentinel;
      maxAltitude := MaxSentinel;
      pressures, temps, altitudes := [], [], [];
    }
  }

  /** The pressure and temperature of the reading loop uses: the first if plausible, else
      the second. */
  function Chosen(first: bool, a: real, b: real): real {
    if first then a else b
  }

  /** One pass of loop. The first reading is used if plausible, otherwise a second one is
      taken; if that is implausible too the pass changes nothing. The accepted reading's
      altitude (altitude1 or altitude2, what calculateAltitude gives for its pressure) goes
      through the filter, and the filtered altitude, returned, goes into the statistics with
      the accepted pressure and temperature. */
  method LoopPass(filter: MedianFilter, stats: Statistics,
                  temp1: real, press1: real, altitude1: real,
                  temp2: real, press2: real, altitude2: real) returns (accepted: bool, altitude: real)
    requires filter.Valid() && stats.Valid()
    modifies filter, filter.altBuf, stats
    ensures filter.Valid() && stats.Valid()
    ensures accepted <==> ValidReading(temp1, press1) || ValidReading(temp2, press2)
    ensures !accepted ==>
      && filter.altBuf[..] == old(filter.altBuf[..]) && filter.altIndex == old(filter.altIndex)
      && filter.count == old(filter.count) && stats.Snapshot() == old(stats.Snapshot())
    ensures accepted ==>
      && filter.count == old(filter.count) + 1
      && filter.altBuf[..] == old(filter.altBuf[..])[old(filter.altIndex) := Chosen(ValidReading(temp1, press1), altitude1, altitude2)]
      && altitude in filter.altBuf[..]
      && CountAtMost(filter.altBuf[..], altitude) >= 3 && CountAtLeast(filter.altBuf[..], altitude) >= 3
      && stats.Snapshot() == Tally(old(stats.Snapshot()), Chosen(ValidReading(temp1, press1), press1, press2),
                                   Chosen(ValidReading(temp1, press1), temp1, temp2), altitude)
  {
    var first := ValidReading(temp1, press1);
    if !first && !ValidReading(temp2, press2) {
      return false, 0.0;
    }
    altitude := filter.FilterAltitude(Chosen(first, altitude1, altitude2));
    stats.Record(Chosen(first, press1, press2), Chosen(first, temp1, temp2), altitude);
    accepted := true;
  }
}
