// The PCF8523 real-time-clock driver (src/rtc_pcf8523.cpp and the rtc_setter copy in
// rtc_setter/src/rtc_pcf8523.cpp): the BCD codec, the register masks and range checks of
// readRTC, the validated register writes of the two setRTC versions, and initRTC's clearing
// of the Control_1 stop bit.
//
// A uint8_t is a Byte. C evaluates byte arithmetic in int and truncates the result back to
// a byte, which is written here as "% 256". The bit operations the driver uses are written
// arithmetically: "v >> 4" is v / 16, "v & 0x0F" is v % 16, and the low-bit masks 0x7F, 0x3F
// and 0x1F keep the remainder modulo 0x80, 0x40 and 0x20.

module Pcf8523 {

  newtype Byte = b: int | 0 <= b < 256

  const Control1: nat := 0x00
  const SecondsReg: nat := 0x03
  const MinutesReg: nat := 0x04
  const HoursReg: nat := 0x05
  const DaysReg: nat := 0x06
  const WeekdaysReg: nat := 0x07
  const MonthsReg: nat := 0x08
  const YearsReg: nat := 0x09

  /** bcd2dec: val - 6 * (val >> 4), truncated to a byte. */
  function Bcd2Dec(val: Byte): Byte {
    ((val as int - 6 * (val as int / 16)) % 256) as Byte
  }

  /** bcd2dec never wraps: the result is ten times the high nibble plus the low nibble, at
      most 165. */
  lemma Bcd2DecValue(val: Byte)
    ensures Bcd2Dec(val) as int == 10 * (val as int / 16) + val as int % 16
    ensures Bcd2Dec(val) <= 165
  {
  }

  /** dec2bcd: val + 6 * (val / 10), truncated to a byte. */
  function Dec2Bcd(val: Byte): Byte {
    ((val as int + 6 * (val as int / 10)) % 256) as Byte
  }

  /** Up to 99 dec2bcd does not wrap, and packs the tens digit into the high nibble and the
      units digit into the low one. */
  lemma Dec2BcdPacks(val: Byte)
    requires val <= 99
    ensures Dec2Bcd(val) as int == val as int + 6 * (val as int / 10)
    ensures Dec2Bcd(val) / 16 == val / 10 && Dec2Bcd(val) % 16 == val % 10
  {
  }

  /** Above 99 dec2bcd wraps around: 255 encodes to 149. */
  lemma Dec2BcdWraps()
    ensures Dec2Bcd(255) == 149
  {
  }

  /** Decoding an encoded value gives it back, for every value up to 99. */
  lemma DecodeEncode(v: Byte)
    requires v <= 99
    ensures Bcd2Dec(Dec2Bcd(v)) == v
  {
    Dec2BcdPacks(v);
  }

  /** Encoding a decoded byte gives it back when both nibbles are decimal digits. */
  lemma EncodeDecode(b: Byte)
    requires b / 16 <= 9 && b % 16 <= 9
    ensures Dec2Bcd(Bcd2Dec(b)) == b
  {
    Bcd2DecValue(b);
    var high, low := b as int / 16, b as int % 16;
    var d := Bcd2Dec(b) as int;
    assert d == 10 * high + low;
    assert d / 10 == high && d % 10 == low;
    assert d + 6 * high == b as int;
  }

  /** A byte whose low nibble is not a digit still decodes, and may land in range: 0x1A
      decodes to 20 like 0x20 does, so readRTC's range check does not catch it. */
  lemma NonBcdDecodesInRange()
    ensures Bcd2Dec(0x1A) == Bcd2Dec(0x20) == 20
  {
  }

  /** The decoded fields of a DateTime. */
  datatype TimeFields = TimeFields(year: int, month: Byte, day: Byte, hour: Byte, minute: Byte, second: Byte)

  /** readRTC's conversion of the seven bytes read from SECONDS on: the oscillator-stop flag
      (& 0x7F), the AM/PM and 12/24 bits (& 0x3F) and the unused high bits are masked out,
      the weekday byte is skipped, and the year counts from 2000. */
  function Decode(reply: seq<Byte>): TimeFields
    requires |reply| >= 7
  {
    TimeFields(2000 + Bcd2Dec(reply[6]) as int, Bcd2Dec(reply[5] % 0x20), Bcd2Dec(reply[3] % 0x40),
               Bcd2Dec(reply[2] % 0x40), Bcd2Dec(reply[1] % 0x80), Bcd2Dec(reply[0] % 0x80))
  }

  /** Every decoded year lies in 2000-2165, within the uint16_t year field. */
  lemma DecodedYearRange(reply: seq<Byte>)
    requires |reply| >= 7
    ensures 2000 <= Decode(reply).year <= 2165
  {
    Bcd2DecValue(reply[6]);
  }

  /** The masked-out bits and the weekday byte play no part in the decoded time: replies
      that agree on the kept bits decode alike. */
  lemma DecodeIgnoresFlags(reply: seq<Byte>, other: seq<Byte>)
    requires |reply| == |other| == 7
    requires reply[0] % 0x80 == other[0] % 0x80 && reply[1] % 0x80 == other[1] % 0x80
    requires reply[2] % 0x40 == other[2] % 0x40 && reply[3] % 0x40 == other[3] % 0x40
    requires reply[5] % 0x20 == other[5] % 0x20 && reply[6] == other[6]
    ensures Decode(reply) == Decode(other)
  {
  }

  /** Setting the oscillator-stop flag in the seconds byte changes nothing decoded. */
  lemma OscillatorFlagIgnored(reply: seq<Byte>)
    requires |reply| == 7 && reply[0] < 0x80
    ensures Decode(reply[0 := reply[0] + 0x80]) == Decode(reply)
  {
    DecodeIgnoresFlags(reply, reply[0 := reply[0] + 0x80]);
  }

  /** readRTC's range check on the decoded fields. */
  predicate ReadValid(t: TimeFields) {
    t.second <= 59 && t.minute <= 59 && t.hour <= 23 && 1 <= t.day <= 31 && 1 <= t.month <= 12
  }

  /** setRTC's range check on its arguments: year 2000-2099 as well. */
  predicate SetValid(t: TimeFields) {
    ReadValid(t) && 2000 <= t.year <= 2099
  }

  /** The bytes the main setRTC sends from SECONDS on: seconds, minutes, hours, days, a zero
      weekday, months and years, each BCD-encoded. */
  function Encode(t: TimeFields): (bytes: seq<Byte>)
    requires SetValid(t)
    ensures |bytes| == 7 && bytes[4] == 0
  {
    [Dec2Bcd(t.second), Dec2Bcd(t.minute), Dec2Bcd(t.hour), Dec2Bcd(t.day), 0,
     Dec2Bcd(t.month), Dec2Bcd((t.year - 2000) as Byte)]
  }

  /** The encoding of an in-range value passes through its field's mask untouched and
      decodes back to the value. */
  lemma MaskedRoundTrip(v: Byte, mask: Byte)
    requires (mask == 0x80 && v <= 59) || (mask == 0x40 && v <= 31) || (mask == 0x20 && v <= 12)
    ensures Bcd2Dec(Dec2Bcd(v) % mask) == v
  {
    Dec2BcdPacks(v);
    assert Dec2Bcd(v) % mask == Dec2Bcd(v);
    DecodeEncode(v);
  }

  /** Whatever setRTC accepts and writes, readRTC decodes back to the same fields and
      accepts: the masks never cut into an encoded in-range value. */
  lemma {:induction false} ReadAfterSet(t: TimeFields)
    requires SetValid(t)
    ensures Decode(Encode(t)) == t && ReadValid(Decode(Encode(t)))
  {
    var e := Encode(t);
    MaskedRoundTrip(t.second, 0x80);
    MaskedRoundTrip(t.minute, 0x80);
    MaskedRoundTrip(t.hour, 0x40);
    MaskedRoundTrip(t.day, 0x40);
    MaskedRoundTrip(t.month, 0x20);
    DecodeEncode((t.year - 2000) as Byte);
    assert Decode(e).year == t.year;
  }

  /** The STOP bit (0x20) of Control_1: the clock is halted while it is set. */
  predicate StopBitSet(control1: Byte) {
    (control1 / 0x20) % 2 == 1
  }

  /** control1 & ~0x20 for a value whose STOP bit is set. */
  function ClearStopBit(control1: Byte): (r: Byte)
    requires StopBitSet(control1)
    ensures !StopBitSet(r)
    ensures r % 0x20 == control1 % 0x20 && r / 0x40 == control1 / 0x40
  {
    control1 - 0x20
  }

  /** A DateTime passed to readRTC by reference. */
  class DateTime {
    var year: int
    var month: Byte
    var day: Byte
    var hour: Byte
    var minute: Byte
    var second: Byte
    var dataValid: bool

    function Fields(): TimeFields
      reads this
    {
      TimeFields(year, month, day, hour, minute, second)
    }

    constructor ()
      ensures Fields() == TimeFields(0, 0, 0, 0, 0, 0) && !dataValid
    {
      year, month, day, hour, minute, second := 0, 0, 0, 0, 0, 0;
      dataValid := false;
    }
  }

  /** readRTC, given the status of the register-pointer write and the bytes the device then
      sent. A bus error or a short reply fails without touching the time fields; otherwise
      the fields are decoded, and the call succeeds exactly when they are in range.
      dataValid always ends equal to the result. */
  method ReadRtc(dt: DateTime, error: Byte, reply: seq<Byte>) returns (ok: bool)
    modifies dt
    ensures ok == dt.dataValid
    ensures error != 0 || |reply| < 7 ==> !ok && dt.Fields() == old(dt.Fields())
    ensures error == 0 && |reply| >= 7 ==> dt.Fields() == Decode(reply) && (ok <==> ReadValid(Decode(reply)))
  {
    if error != 0 {
      dt.dataValid := false;
      return false;
    }
    if |reply| < 7 {
      dt.dataValid := false;
      return false;
    }
    var seconds, minutes, hours, days := reply[0], reply[1], reply[2], reply[3];
    var months, years := reply[5], reply[6];
    dt.second := Bcd2Dec(seconds % 0x80);
    dt.minute := Bcd2Dec(minutes % 0x80);
    dt.hour := Bcd2Dec(hours % 0x40);
    dt.day := Bcd2Dec(days % 0x40);
    dt.month := Bcd2Dec(months % 0x20);
    dt.year := 2000 + Bcd2Dec(years) as int;
    if dt.second > 59 || dt.minute > 59 || dt.hour > 23 || dt.day < 1 || dt.day > 31
       || dt.month < 1 || dt.month > 12 {
      dt.dataValid := false;
      return false;
    }
    dt.dataValid := true;
    return true;
  }

  /** The clock's registers 0x00-0x09 and a ghost log of the registers written. */
  class Device {
    var regs: seq<Byte>
    ghost var written: seq<nat>

    ghost predicate Valid()
      reads this
    {
      |regs| == 10
    }

    constructor (initial: seq<Byte>)
      requires |initial| == 10
      ensures Valid() && regs == initial && written == []
    {
      regs := initial;
      written := [];
    }

    /** writeRegister, given whether the device acknowledged the transmission: the write
        is attempted (and logged) either way, but only an acknowledged one changes the
        register. The source ignores the status. */
    method WriteRegister(reg: nat, val: Byte, ack: bool)
      requires Valid() && reg < 10
      modifies this
      ensures Valid() && regs == Land(old(regs), reg, val, ack) && written == old(written) + [reg]
    {
      if ack {
        regs := regs[reg := val];
      }
      written := written + [reg];
    }

    /** initRTC, given the status of the probe transmission and whether the Control_1 write
        is acknowledged: a missing device fails; otherwise a set STOP bit is cleared with one
        write to Control_1 that keeps the other bits, and a clear one causes no write at all.
        The call succeeds whether or not that write lands. */
    method InitRtc(probe: Byte, ack: bool) returns (ok: bool)
      requires Valid()
      modifies this
      ensures Valid() && ok == (probe == 0)
      ensures probe != 0 ==> regs == old(regs) && written == old(written)
      ensures probe == 0 && StopBitSet(old(regs)[Control1]) ==>
        regs == Land(old(regs), Control1, ClearStopBit(old(regs)[Control1]), ack) && written == old(written) + [Control1]
      ensures probe == 0 && !StopBitSet(old(regs)[Control1]) ==> regs == old(regs) && written == old(written)
      ensures probe == 0 && (ack || !StopBitSet(old(regs)[Control1])) ==> !StopBitSet(regs[Control1])
      ensures probe == 0 && !ack && StopBitSet(old(regs)[Control1]) ==> StopBitSet(regs[Control1])
    {
      if probe != 0 {
        return false;
      }
      var control1 := regs[Control1];
      if StopBitSet(control1) {
        WriteRegister(Control1, ClearStopBit(control1), ack);
      }
      return true;
    }

    /** The main setRTC: check the arguments, then send all seven time registers in one
        burst from SECONDS (weekday 0). A rejected argument sends nothing; a burst the device
        does not acknowledge (status non-zero) fails and, in this model, changes nothing. */
    method SetRtcBurst(t: TimeFields, status: Byte) returns (ok: bool)
      requires Valid() && 0 <= t.year < 0x1_0000
      modifies this
      ensures Valid()
      ensures ok <==> SetValid(t) && status == 0
      ensures !ok ==> regs == old(regs) && written == old(written)
      ensures ok ==> regs == old(regs)[..SecondsReg] + Encode(t) && written == old(written) + [SecondsReg]
    {
      if t.year < 2000 || t.year > 2099 || t.month < 1 || t.month > 12 || t.day < 1 || t.day > 31
         || t.hour > 23 || t.minute > 59 || t.second > 59 {
        return false;
      }
      var yearBcd := Dec2Bcd((t.year - 2000) as Byte);
      var monthBcd := Dec2Bcd(t.month);
      var dayBcd := Dec2Bcd(t.day);
      var hourBcd := Dec2Bcd(t.hour);
      var minuteBcd := Dec2Bcd(t.minute);
      var secondBcd := Dec2Bcd(t.second);
      if status != 0 {
        return false;
      }
      regs := regs[..SecondsReg] + [secondBcd, minuteBcd, hourBcd, dayBcd, 0, monthBcd, yearBcd];
      written := written + [SecondsReg];
      return true;
    }

    /** The rtc_setter setRTC, given whether each of its six writes (seconds, minutes,
        hours, days, months, years) is acknowledged: check the arguments, then write the six
        time registers one at a time, ignoring each write's status, and report success;
        the weekday register is left alone. */
    method SetRtcSingle(t: TimeFields, acks: seq<bool>) returns (ok: bool)
      requires Valid() && 0 <= t.year < 0x1_0000 && |acks| == 6
      modifies this
      ensures Valid()
      ensures ok <==> SetValid(t)
      ensures !ok ==> regs == old(regs) && written == old(written)
      ensures ok ==> regs == SingleWrites(old(regs), t, acks)
      ensures ok ==> written == old(written) + [SecondsReg, MinutesReg, HoursReg, DaysReg, MonthsReg, YearsReg]
    {
      if t.second > 59 || t.minute > 59 || t.hour > 23 || t.day < 1 || t.day > 31
         || t.month < 1 || t.month > 12 || t.year < 2000 || t.year > 2099 {
        return false;
      }
      WriteTimeRegisters(t, acks);
      return true;
    }

    /** setRTC with the single writes, reporting success only when every write was
        acknowledged, as the burst setRTC does for its one transmission. */
    method SetRtcSingleChecked(t: TimeFields, acks: seq<bool>) returns (ok: bool)
      requires Valid() && 0 <= t.year < 0x1_0000 && |acks| == 6
      modifies this
      ensures Valid()
      ensures ok <==> SetValid(t) && AllAcked(acks)
      ensures !SetValid(t) ==> regs == old(regs) && written == old(written)
      ensures SetValid(t) ==> regs == SingleWrites(old(regs), t, acks)
      ensures ok ==> regs == old(regs)[..SecondsReg] + Encode(t)[WeekdaysReg - SecondsReg := old(regs)[WeekdaysReg]]
    {
      if t.second > 59 || t.minute > 59 || t.hour > 23 || t.day < 1 || t.day > 31
         || t.month < 1 || t.month > 12 || t.year < 2000 || t.year > 2099 {
        return false;
      }
      WriteTimeRegisters(t, acks);
      ok := acks[0] && acks[1] && acks[2] && acks[3] && acks[4] && acks[5];
      if ok {
        AllAckedWritesEncode(old(regs), t, acks);
      }
    }

    /** The six writeRegister calls of setRTC. */
    method WriteTimeRegisters(t: TimeFields, acks: seq<bool>)
      requires Valid() && SetValid(t) && |acks| == 6
      modifies this
      ensures Valid() && regs == SingleWrites(old(regs), t, acks)
      ensures written == old(written) + [SecondsReg, MinutesReg, HoursReg, DaysReg, MonthsReg, YearsReg]
    {
      var e := Encode(t);
      WriteRegister(SecondsReg, e[0], acks[0]);
      WriteRegister(MinutesReg, e[1], acks[1]);
      WriteRegister(HoursReg, e[2], acks[2]);
      WriteRegister(DaysReg, e[3], acks[3]);
      WriteRegister(MonthsReg, e[5], acks[4]);
      WriteRegister(YearsReg, e[6], acks[5]);
    }
  }

  /** One register write: it lands only when acknowledged. */
  function Land(regs: seq<Byte>, reg: nat, val: Byte, ack: bool): (r: seq<Byte>)
    requires reg < |regs|
    ensures |r| == |regs| && r[reg] == (if ack then val else regs[reg])
    ensures forall k :: 0 <= k < |regs| && k != reg ==> r[k] == regs[k]
  {
    if ack then regs[reg := val] else regs
  }

  predicate AllAcked(acks: seq<bool>) {
    forall i :: 0 <= i < |acks| ==> acks[i]
  }

  /** The registers after setRTC's six single writes, each landing only when acknowledged. */
  function SingleWrites(before: seq<Byte>, t: TimeFields, acks: seq<bool>): seq<Byte>
    requires |before| == 10 && SetValid(t) && |acks| == 6
  {
    var e := Encode(t);
    Land(Land(Land(Land(Land(Land(before, SecondsReg, e[0], acks[0]), MinutesReg, e[1], acks[1]),
      HoursReg, e[2], acks[2]), DaysReg, e[3], acks[3]), MonthsReg, e[5], acks[4]), YearsReg, e[6], acks[5])
  }

  /** Each time register ends as the encoding when its write was acknowledged and as it was
      otherwise; Control_1 to Control_3 and the weekday register are never touched. */
  lemma SingleWritesRegisters(before: seq<Byte>, t: TimeFields, acks: seq<bool>)
    requires |before| == 10 && SetValid(t) && |acks| == 6
    ensures var r, e := SingleWrites(before, t, acks), Encode(t);
      && |r| == 10
      && r[..SecondsReg] == before[..SecondsReg] && r[WeekdaysReg] == before[WeekdaysReg]
      && r[SecondsReg] == (if acks[0] then e[0] else before[SecondsReg])
      && r[MinutesReg] == (if acks[1] then e[1] else before[MinutesReg])
      && r[HoursReg] == (if acks[2] then e[2] else before[HoursReg])
      && r[DaysReg] == (if acks[3] then e[3] else before[DaysReg])
      && r[MonthsReg] == (if acks[4] then e[5] else before[MonthsReg])
      && r[YearsReg] == (if acks[5] then e[6] else before[YearsReg])
  {
    var r := SingleWrites(before, t, acks);
    assert |r| == 10;
    assert r[..SecondsReg] == before[..SecondsReg];
  }

  /** When every write is acknowledged, the six single writes leave the encoding in place
      with the old weekday byte. */
  lemma AllAckedWritesEncode(before: seq<Byte>, t: TimeFields, acks: seq<bool>)
    requires |before| == 10 && SetValid(t) && |acks| == 6 && AllAcked(acks)
    ensures SingleWrites(before, t, acks) == before[..SecondsReg] + Encode(t)[WeekdaysReg - SecondsReg := before[WeekdaysReg]]
  {
    SingleWritesRegisters(before, t, acks);
    var r := SingleWrites(before, t, acks);
    var w := before[..SecondsReg] + Encode(t)[WeekdaysReg - SecondsReg := before[WeekdaysReg]];
    assert forall k :: 0 <= k < 10 ==> r[k] == w[k];
  }

  /** As written, a device that acknowledges none of the writes keeps its registers, yet
      setRTC still reports success: from cleared registers, reading back then gives
      2000-00-00 00:00:00, which readRTC rejects, not the time that was set. */
  lemma UnackedSetReportsSuccess(before: seq<Byte>, t: TimeFields)
    requires |before| == 10 && SetValid(t)
    ensures SingleWrites(before, t, [false, false, false, false, false, false]) == before
    ensures before == seq(10, _ => 0) ==>
      Decode(before[SecondsReg..]) == TimeFields(2000, 0, 0, 0, 0, 0) != t
      && !ReadValid(Decode(before[SecondsReg..]))
  {
  }

  /** The corrected setRTC's promise: when it reports success, reading the clock gives back
      exactly the time that was set, and readRTC accepts it. */
  lemma CheckedSetReadsBack(before: seq<Byte>, t: TimeFields, acks: seq<bool>)
    requires |before| == 10 && SetValid(t) && |acks| == 6 && AllAcked(acks)
    ensures Decode(SingleWrites(before, t, acks)[SecondsReg..]) == t
    ensures ReadValid(Decode(SingleWrites(before, t, acks)[SecondsReg..]))
  {
    AllAckedWritesEncode(before, t, acks);
    SetThenReadRoundTrip(t, before, before[WeekdaysReg]);
  }

  /** Once either setRTC's writes have all landed (the acknowledged burst, or six
      acknowledged single writes), reading the clock gives back exactly the time that was
      set, and readRTC accepts it: the two write strategies are indistinguishable to a
      reader, since readRTC skips the weekday byte where they differ. */
  lemma SetThenReadRoundTrip(t: TimeFields, before: seq<Byte>, weekday: Byte)
    requires SetValid(t) && |before| == 10
    ensures Decode((before[..SecondsReg] + Encode(t))[SecondsReg..]) == t
    ensures Decode((before[..SecondsReg] + Encode(t)[WeekdaysReg - SecondsReg := weekday])[SecondsReg..]) == t
    ensures ReadValid(t)
  {
    var e := Encode(t);
    assert (before[..SecondsReg] + e)[SecondsReg..] == e;
    var e2 := e[WeekdaysReg - SecondsReg := weekday];
    assert (before[..SecondsReg] + e2)[SecondsReg..] == e2;
    DecodeIgnoresFlags(e, e2);
    ReadAfterSet(t);
  }
}
