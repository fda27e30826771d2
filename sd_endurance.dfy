// The SD card endurance sketch (examples/sd_endurance_test/sd_endurance_test.cpp): logging
// sessions selected by serial command, the per-record counters and write-time statistics,
// and the duration and mode texts of its reports. The SD library is not part of this model:
// whether the file opened and how many bytes a println reported are inputs, as are the
// measured write time and the card's fill percentage.

module SdEndurance {

  datatype TestMode = Idle | Hz1 | Hz10 | Hz20 | MaxSpeed

  /** getModeString. */
  function ModeString(mode: TestMode): string {
    match mode
    case Hz1 => "1 Hz (Preflight/Postflight)"
    case Hz10 => "10 Hz (Normal Flight)"
    case Hz20 => "20 Hz (High-Speed)"
    case MaxSpeed => "Maximum Speed"
    case Idle => "Idle"
  }

  /** Every mode has its own label, so a report names the mode unambiguously. */
  lemma ModeStringsDistinct(a: TestMode, b: TestMode)
    ensures ModeString(a) == ModeString(b) <==> a == b
  {
    if a != b {
      assert ModeString(a)[..2] != ModeString(b)[..2] || |ModeString(a)| != |ModeString(b)|;
    }
  }

  /** The starting value of the minimum write time. */
  const MinWriteSentinel: nat := 999999
  const CardFullPercent: real := 95.0

  /** The global TestState (the open file is represented by whether it opened). */
  datatype Session = Session(
    mode: TestMode,
    logging: bool,
    fileOpen: bool,
    fileName: string,
    recordsWritten: nat,
    bytesWritten: nat,
    startTime: nat,
    lastWrite: nat,
    writeErrors: nat,
    writeInterval: nat,
    minWriteTime: nat,
    maxWriteTime: nat,
    totalWriteTime: nat,
    writeCount: nat)

  /** The state setup leaves. */
  const Ready := Session(Idle, false, false, "", 0, 0, 0, 0, 0, 0, MinWriteSentinel, 0, 0, 0)

  /** The statistics agree with each other: every write was either a record or an error,
      and when there were writes the average write time lies between the minimum and the
      maximum (without writes, the sums are still zero). */
  predicate Counters(s: Session) {
    && s.writeCount == s.recordsWritten + s.writeErrors
    && (s.writeCount == 0 ==> s.totalWriteTime == 0 && s.maxWriteTime == 0 && s.bytesWritten == 0)
    && (s.writeCount > 0 ==>
          s.minWriteTime * s.writeCount <= s.totalWriteTime <= s.maxWriteTime * s.writeCount)
  }

  /** startLogging at time now; fileOk says whether the file opened. */
  function Start(s: Session, mode: TestMode, fileName: string, interval: nat, now: nat, fileOk: bool): Session {
    if s.logging then s
    else Session(mode, fileOk, fileOk, fileName, 0, 0, now, now, 0, interval, MinWriteSentinel, 0, 0, 0)
  }

  /** Starting while a session runs changes nothing; otherwise the counters and statistics
      are reset, the mode, file and interval recorded, and logging begins exactly when the
      file opened. */
  lemma StartRules(s: Session, mode: TestMode, fileName: string, interval: nat, now: nat, fileOk: bool)
    ensures var n := Start(s, mode, fileName, interval, now, fileOk);
      && (s.logging ==> n == s)
      && (!s.logging ==>
            && n.mode == mode && n.fileName == fileName && n.writeInterval == interval
            && n.logging == fileOk && n.startTime == now && n.lastWrite == now
            && n.recordsWritten == 0 && n.bytesWritten == 0 && n.writeErrors == 0 && n.writeCount == 0
            && n.minWriteTime == MinWriteSentinel && n.maxWriteTime == 0 && n.totalWriteTime == 0
            && Counters(n))
  {
  }

  /** stopLogging: nothing unless a session runs; then logging ends and the file closes,
      keeping the counters for the summary. */
  function Stop(s: Session): (n: Session)
    ensures !n.logging && !n.fileOpen <== s.logging
    ensures !s.logging ==> n == s
    ensures n.(logging := s.logging, fileOpen := s.fileOpen) == s
  {
    if !s.logging then s else s.(logging := false, fileOpen := false)
  }

  /** writeDataRecord: written is what println reported, writeTime the measured duration. */
  function Write(s: Session, written: nat, writeTime: nat): Session {
    Timing(Outcome(s, written), writeTime)
  }

  /** The first half of writeDataRecord: a record when the file is open and println
      reported bytes, an error otherwise. */
  function Outcome(s: Session, written: nat): Session {
    if s.fileOpen then
      if written > 0 then s.(recordsWritten := s.recordsWritten + 1, bytesWritten := s.bytesWritten + written)
      else s.(writeErrors := s.writeErrors + 1)
    else s.(writeErrors := s.writeErrors + 1)
  }

  /** The second half of writeDataRecord: the write-time statistics. */
  function Timing(s: Session, writeTime: nat): Session {
    var min := if writeTime < s.minWriteTime then writeTime else s.minWriteTime;
    var max := if writeTime > s.maxWriteTime then writeTime else s.maxWriteTime;
    s.(minWriteTime := min, maxWriteTime := max,
       totalWriteTime := s.totalWriteTime + writeTime, writeCount := s.writeCount + 1)
  }

  /** The average bounds survive one more write: the minimum can only fall to the new
      time, the maximum only rise to it. */
  lemma AverageBounds(count: nat, total: nat, min: nat, max: nat, t: nat, min': nat, max': nat)
    requires count == 0 ==> total == 0 && max == 0
    requires count > 0 ==> min * count <= total <= max * count
    requires min' <= min && min' <= t && max' >= max && max' >= t
    ensures min' * (count + 1) <= total + t <= max' * (count + 1)
  {
    if count > 0 {
      assert min' * count <= min * count;
      assert max * count <= max' * count;
    }
  }

  /** One write counts exactly one record or one error (a record only when the file is open
      and println reported bytes, which are then added to the byte count), brackets its time
      between the minimum and the maximum, adds it to the total, and keeps the statistics
      consistent. Nothing else changes. */
  lemma WriteRules(s: Session, written: nat, writeTime: nat)
    requires Counters(s)
    ensures var n := Write(s, written, writeTime);
      && Counters(n)
      && n.writeCount == s.writeCount + 1
      && (s.fileOpen && written > 0 ==>
            n.recordsWritten == s.recordsWritten + 1 && n.writeErrors == s.writeErrors
            && n.bytesWritten == s.bytesWritten + written)
      && (!(s.fileOpen && written > 0) ==>
            n.recordsWritten == s.recordsWritten && n.writeErrors == s.writeErrors + 1
            && n.bytesWritten == s.bytesWritten)
      && n.minWriteTime <= writeTime <= n.maxWriteTime
      && n.minWriteTime <= s.minWriteTime && n.maxWriteTime >= s.maxWriteTime
      && n.totalWriteTime == s.totalWriteTime + writeTime
      && n.(recordsWritten := s.recordsWritten, bytesWritten := s.bytesWritten, writeErrors := s.writeErrors,
            minWriteTime := s.minWriteTime, maxWriteTime := s.maxWriteTime,
            totalWriteTime := s.totalWriteTime, writeCount := s.writeCount) == s
  {
    var n := Write(s, written, writeTime);
    AverageBounds(s.writeCount, s.totalWriteTime, s.minWriteTime, s.maxWriteTime, writeTime,
                  n.minWriteTime, n.maxWriteTime);
  }

  /** The session a command starts: '1' to '4' select the mode, the file and the interval. */
  datatype Plan = Plan(mode: TestMode, fileName: string, interval: nat)

  function CommandPlan(cmd: char): (p: Option<Plan>)
    ensures p.Some? <==> cmd in "1234"
  {
    match cmd
    case '1' => Some(Plan(Hz1, "log_1hz.csv", 1000))
    case '2' => Some(Plan(Hz10, "log_10hz.csv", 100))
    case '3' => Some(Plan(Hz20, "log_20hz.csv", 50))
    case '4' => Some(Plan(MaxSpeed, "log_max.csv", 0))
    case _ => None
  }

  datatype Option<T> = None | Some(value: T)

  /** handleCommand at time now: a start command, 's' or 'S' to stop a running session;
      the card report ('i'), file deletion ('d'), the menu and unknown commands leave the
      session alone. */
  function Command(s: Session, cmd: char, now: nat, fileOk: bool): Session {
    match CommandPlan(cmd)
    case Some(p) => Start(s, p.mode, p.fileName, p.interval, now, fileOk)
    case None => if cmd == 's' || cmd == 'S' then Stop(s) else s
  }

  /** The mode table: each start command selects its rate, and the interval between records
      is 1000 ms divided by the nominal rate (none at maximum speed). */
  lemma CommandTable(s: Session, now: nat, fileOk: bool)
    requires !s.logging
    ensures Command(s, '1', now, fileOk).mode == Hz1 && Command(s, '1', now, fileOk).writeInterval * 1 == 1000
    ensures Command(s, '2', now, fileOk).mode == Hz10 && Command(s, '2', now, fileOk).writeInterval * 10 == 1000
    ensures Command(s, '3', now, fileOk).mode == Hz20 && Command(s, '3', now, fileOk).writeInterval * 20 == 1000
    ensures Command(s, '4', now, fileOk).mode == MaxSpeed && Command(s, '4', now, fileOk).writeInterval == 0
    ensures forall c :: c !in "1234sS" ==> Command(s, c, now, fileOk) == s
  {
  }

  /** A running session is never restarted by a command: only 's' or 'S' ends it. */
  lemma CommandsWhileLogging(s: Session, cmd: char, now: nat, fileOk: bool)
    requires s.logging
    ensures var n := Command(s, cmd, now, fileOk);
      (cmd in "sS" ==> n == Stop(s)) && (cmd !in "sS" ==> n == s)
  {
  }

  /** One logging pass of loop at time now: once the interval has passed, write a record,
      stamp the time, and stop if the card is more than 95% full. */
  function LogStep(s: Session, now: nat, written: nat, writeTime: nat, percentUsed: real): Session {
    if s.logging && now - s.lastWrite >= s.writeInterval as int then
      var w := Write(s, written, writeTime).(lastWrite := now);
      if percentUsed > CardFullPercent then Stop(w) else w
    else s
  }

  /** A pass writes at most one record, only while logging and once the interval has
      passed; and the statistics stay consistent. */
  lemma LogStepRules(s: Session, now: nat, written: nat, writeTime: nat, percentUsed: real)
    requires Counters(s)
    ensures var n := LogStep(s, now, written, writeTime, percentUsed);
      && Counters(n)
      && (n.writeCount == s.writeCount + 1 <==> s.logging && now - s.lastWrite >= s.writeInterval as int)
      && (n.writeCount == s.writeCount ==> n == s)
      && (n.logging ==> s.logging)
      && (n.logging && n.writeCount == s.writeCount + 1 ==> percentUsed <= CardFullPercent)
  {
    if s.logging && now - s.lastWrite >= s.writeInterval as int {
      WriteRules(s, written, writeTime);
      var w := Write(s, written, writeTime).(lastWrite := now);
      assert Counters(w);
      assert Counters(Stop(w));
    }
  }

  /** What printDuration reports: the largest non-zero unit and the remainder in the next. */
  datatype Duration =
    | DaysHours(days: nat, hours: nat)
    | HoursMinutes(hours: nat, minutes: nat)
    | MinutesSeconds(minutes: nat, seconds: nat)
    | SecondsOnly(seconds: nat)

  const MsPerSecond: nat := 1000
  const MsPerMinute: nat := 60000
  const MsPerHour: nat := 3600000
  const MsPerDay: nat := 86400000

  /** printDuration's unit decomposition. */
  function PrintDuration(ms: nat): Duration {
    var seconds := ms / 1000;
    var minutes := seconds / 60;
    var hours := minutes / 60;
    var days := hours / 24;
    if days > 0 then DaysHours(days, hours % 24)
    else if hours > 0 then HoursMinutes(hours, minutes % 60)
    else if minutes > 0 then MinutesSeconds(minutes, seconds % 60)
    else SecondsOnly(seconds)
  }

  /** The chosen unit is the largest one the duration reaches, and the two printed numbers
      are the duration truncated to the smaller unit: the report never overstates, and
      understates by less than one of the smaller unit. */
  lemma DurationMeaning(ms: nat)
    ensures var d := PrintDuration(ms);
      && (d.DaysHours? <==> ms >= MsPerDay)
      && (d.HoursMinutes? <==> MsPerHour <= ms < MsPerDay)
      && (d.MinutesSeconds? <==> MsPerMinute <= ms < MsPerHour)
      && (d.SecondsOnly? <==> ms < MsPerMinute)
      && (d.DaysHours? ==>
            (d.hours < 24 && d.days >= 1
             && d.days * MsPerDay + d.hours * MsPerHour <= ms < d.days * MsPerDay + (d.hours + 1) * MsPerHour))
      && (d.HoursMinutes? ==>
            (d.minutes < 60 && 1 <= d.hours < 24
             && d.hours * MsPerHour + d.minutes * MsPerMinute <= ms < d.hours * MsPerHour + (d.minutes + 1) * MsPerMinute))
      && (d.MinutesSeconds? ==>
            (d.seconds < 60 && 1 <= d.minutes < 60
             && d.minutes * MsPerMinute + d.seconds * MsPerSecond <= ms
             && ms < d.minutes * MsPerMinute + (d.seconds + 1) * MsPerSecond))
      && (d.SecondsOnly? ==> d.seconds < 60 && d.seconds * MsPerSecond <= ms < (d.seconds + 1) * MsPerSecond)
  {
    var seconds := ms / 1000;
    var minutes := seconds / 60;
    var hours := minutes / 60;
    var days := hours / 24;
    assert minutes == ms / MsPerMinute;
    assert hours == ms / MsPerHour;
    assert days == ms / MsPerDay;
    assert ms == seconds * 1000 + ms % 1000;
    assert seconds == minutes * 60 + seconds % 60;
    assert minutes == hours * 60 + minutes % 60;
    assert hours == days * 24 + hours % 24;
  }

  /** The global test state of the sketch. */
  class EnduranceTest {
    var mode: TestMode
    var logging: bool
    var fileOpen: bool
    var fileName: string
    var recordsWritten: nat
    var bytesWritten: nat
    var startTime: nat
    var lastWrite: nat
    var writeErrors: nat
    var writeInterval: nat
    var minWriteTime: nat
    var maxWriteTime: nat
    var totalWriteTime: nat
    var writeCount: nat

    function Snapshot(): Session
      reads this
    {
      Session(mode, logging, fileOpen, fileName, recordsWritten, bytesWritten, startTime, lastWrite,
              writeErrors, writeInterval, minWriteTime, maxWriteTime, totalWriteTime, writeCount)
    }

    /** setup's initialisation of the test state. */
    constructor ()
      ensures Snapshot() == Ready && Counters(Snapshot())
    {
      mode, logging, fileOpen, fileName := Idle, false, false, "";
      recordsWritten, bytesWritten, startTime, lastWrite, writeErrors := 0, 0, 0, 0, 0;
      writeInterval, minWriteTime, maxWriteTime, totalWriteTime, writeCount := 0, MinWriteSentinel, 0, 0, 0;
    }

    /** startLogging. */
    method StartLogging(newMode: TestMode, name: string, interval: nat, now: nat, fileOk: bool)
      modifies this
      ensures Snapshot() == Start(old(Snapshot()), newMode, name, interval, now, fileOk)
    {
      if !logging {
        mode, fileName, writeInterval := newMode, name, interval;
        ResetCounters();
        ResetWriteTimes();
        startTime, lastWrite := now, now;
        OpenFile(fileOk);
      }
    }

    /** startLogging's reset of the counters. */
    method ResetCounters()
      modifies this
      ensures Snapshot() == old(Snapshot()).(recordsWritten := 0, bytesWritten := 0, writeErrors := 0)
    {
      recordsWritten, bytesWritten, writeErrors := 0, 0, 0;
    }

    /** startLogging's reset of the write-time statistics. */
    method ResetWriteTimes()
      modifies this
      ensures Snapshot() == old(Snapshot()).(minWriteTime := MinWriteSentinel, maxWriteTime := 0,
        totalWriteTime := 0, writeCount := 0)
    {
      minWriteTime, maxWriteTime, totalWriteTime, writeCount := MinWriteSentinel, 0, 0, 0;
    }

    /** The end of startLogging: the file is open exactly when fileOk, and logging begins
        only then. */
    method OpenFile(fileOk: bool)
      requires !logging
      modifies this
      ensures Snapshot() == old(Snapshot()).(logging := fileOk, fileOpen := fileOk)
    {
      fileOpen := fileOk;
      if fileOk {
        logging := true;
      }
    }

    /** stopLogging. */
    method StopLogging()
      modifies this
      ensures Snapshot() == Stop(old(Snapshot()))
    {
      if !logging {
        return;
      }
      logging := false;
      fileOpen := false;
    }

    /** writeDataRecord. */
    method WriteDataRecord(written: nat, writeTime: nat)
      modifies this
      ensures Snapshot() == Write(old(Snapshot()), written, writeTime)
    {
      CountOutcome(written);
      RecordWriteTime(writeTime);
    }

    method CountOutcome(written: nat)
      modifies this
      ensures Snapshot() == Outcome(old(Snapshot()), written)
    {
      if fileOpen {
        if written > 0 {
          recordsWritten := recordsWritten + 1;
          bytesWritten := bytesWritten + written;
        } else {
          writeErrors := writeErrors + 1;
        }
      } else {
        writeErrors := writeErrors + 1;
      }
    }

    method RecordWriteTime(writeTime: nat)
      modifies this
      ensures Snapshot() == Timing(old(Snapshot()), writeTime)
    {
      if writeTime < minWriteTime {
        minWriteTime := writeTime;
      }
      if writeTime > maxWriteTime {
        maxWriteTime := writeTime;
      }
      totalWriteTime := totalWriteTime + writeTime;
      writeCount := writeCount + 1;
    }

    /** handleCommand. */
    method HandleCommand(cmd: char, now: nat, fileOk: bool)
      modifies this
      ensures Snapshot() == Command(old(Snapshot()), cmd, now, fileOk)
    {
      match cmd
      case '1' => StartLogging(Hz1, "log_1hz.csv", 1000, now, fileOk);
      case '2' => StartLogging(Hz10, "log_10hz.csv", 100, now, fileOk);
      case '3' => StartLogging(Hz20, "log_20hz.csv", 50, now, fileOk);
      case '4' => StartLogging(MaxSpeed, "log_max.csv", 0, now, fileOk);
      case 's' => if logging { StopLogging(); }
      case 'S' => if logging { StopLogging(); }
      case _ =>
    }

    /** The logging part of loop at time now. */
    method LoopLogging(now: nat, written: nat, writeTime: nat, percentUsed: real)
      modifies this
      ensures Snapshot() == LogStep(old(Snapshot()), now, written, writeTime, percentUsed)
    {
      if logging {
        if now - lastWrite >= writeInterval as int {
          WriteDataRecord(written, writeTime);
          lastWrite := now;
          if percentUsed > CardFullPercent {
            StopLogging();
          }
        }
      }
    }
  }
}
