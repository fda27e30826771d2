// The payload logger's main loop (src/main.cpp): the takeoff/landing latch on barometric
// altitude, the buzzer that chirps while recording, the debounced start/stop button, the
// serial command table and the timestamp formatter. The SD logger behind startLogging,
// stopLogging and isLoggingActive is not part of this model: whether a start or stop
// succeeds is an input, and the logger's active flag is a field those outcomes set.

module PayloadLogger {
  import opened Pcf8523
  import opened DecimalText

  // ---------------------------------------------------------------------------------
  // Timestamps
  // ---------------------------------------------------------------------------------

  /** formatTimestamp: "%04d-%02d-%02d %02d:%02d:%02d". */
  function FormatTimestamp(t: TimeFields): string
    requires t.year >= 0
  {
    Layout(ZeroPad(t.year as nat, 4), ZeroPad(t.month as nat, 2), ZeroPad(t.day as nat, 2),
           ZeroPad(t.hour as nat, 2), ZeroPad(t.minute as nat, 2), ZeroPad(t.second as nat, 2))
  }

  /** The six fields joined by the format's separators. */
  function Layout(y: string, mo: string, d: string, h: string, mi: string, s: string): string {
    y + "-" + mo + "-" + d + " " + h + ":" + mi + ":" + s
  }

  /** With a four-column year and two-column fields, every field and separator sits in a
      fixed column. */
  lemma LayoutColumns(y: string, mo: string, d: string, h: string, mi: string, s: string)
    requires |y| == 4 && |mo| == 2 && |d| == 2 && |h| == 2 && |mi| == 2 && |s| == 2
    ensures var r := Layout(y, mo, d, h, mi, s);
      && |r| == 19
      && r[4] == '-' && r[7] == '-' && r[10] == ' ' && r[13] == ':' && r[16] == ':'
      && r[0..4] == y && r[5..7] == mo && r[8..10] == d
      && r[11..13] == h && r[14..16] == mi && r[17..19] == s
  {
    var r := Layout(y, mo, d, h, mi, s);
    var front := y + "-" + mo + "-" + d + " ";
    var back := h + ":" + mi + ":" + s;
    assert r == front + back;
    assert |front| == 11 && |back| == 8;
    assert front[0..4] == y && front[5..7] == mo && front[8..10] == d;
    assert back[0..2] == h && back[3..5] == mi && back[6..8] == s;
    assert r[0..11] == front && r[11..19] == back;
  }

  /** For any time readRTC accepts, the timestamp is the 19-character form
      YYYY-MM-DD hh:mm:ss (so the 32-byte buffer never truncates it), and each field reads
      back from its columns. */
  lemma TimestampLayout(t: TimeFields)
    requires ReadValid(t) && 2000 <= t.year <= 2165
    ensures |FormatTimestamp(t)| == 19 < 32
    ensures var r := FormatTimestamp(t);
      && r[4] == '-' && r[7] == '-' && r[10] == ' ' && r[13] == ':' && r[16] == ':'
      && Field(r[0..4], t.year) && Field(r[5..7], t.month as int) && Field(r[8..10], t.day as int)
      && Field(r[11..13], t.hour as int) && Field(r[14..16], t.minute as int)
      && Field(r[17..19], t.second as int)
  {
    assert Pow10(2) == 100 && Pow10(4) == 10000;
    ZeroPadExact(t.year as nat, 4);
    ZeroPadExact(t.month as nat, 2);
    ZeroPadExact(t.day as nat, 2);
    ZeroPadExact(t.hour as nat, 2);
    ZeroPadExact(t.minute as nat, 2);
    ZeroPadExact(t.second as nat, 2);
    LayoutColumns(ZeroPad(t.year as nat, 4), ZeroPad(t.month as nat, 2), ZeroPad(t.day as nat, 2),
                  ZeroPad(t.hour as nat, 2), ZeroPad(t.minute as nat, 2), ZeroPad(t.second as nat, 2));
  }

  /** A column of decimal digits that reads back as v. */
  predicate Field(s: string, v: int) {
    (forall k :: 0 <= k < |s| ==> IsDigit(s[k])) && Value(s) == v
  }

  // ---------------------------------------------------------------------------------
  // Flight events
  // ---------------------------------------------------------------------------------

  /** The flight-event globals. */
  datatype Events = Events(baseAlt: real, takeoff: bool, landing: bool)

  const Cleared := Events(0.0, false, false)

  /** The flight-event chain of loop, for one accepted barometer altitude: record the base
      altitude while none is set, else latch takeoff one metre above it, else latch landing
      back below that mark. */
  function Detect(e: Events, alt: real): Events {
    if e.baseAlt == 0.0 && alt > 0.0 then e.(baseAlt := alt)
    else if !e.takeoff && alt > e.baseAlt + 1.0 then e.(takeoff := true)
    else if e.takeoff && !e.landing && alt < e.baseAlt + 1.0 then e.(landing := true)
    else e
  }

  /** The base altitude is never negative, landing comes only after takeoff, and takeoff
      only once a positive base altitude is set. */
  predicate Ordered(e: Events) {
    e.baseAlt >= 0.0 && (e.landing ==> e.takeoff) && (e.takeoff ==> e.baseAlt > 0.0)
  }

  /** What one pass may change: the base is set only while it is zero and the altitude
      positive; takeoff rises only from false above base + 1 m; landing rises only after
      takeoff below base + 1 m; at most one of the three happens; nothing is ever cleared;
      and the order of events is kept. */
  lemma DetectRules(e: Events, alt: real)
    ensures var n := Detect(e, alt);
      && (n.baseAlt != e.baseAlt ==> e.baseAlt == 0.0 && alt > 0.0 && n.baseAlt == alt)
      && (n.takeoff != e.takeoff ==> !e.takeoff && alt > e.baseAlt + 1.0)
      && (n.landing != e.landing ==> e.takeoff && !e.landing && alt < e.baseAlt + 1.0)
      && (n.baseAlt != e.baseAlt ==> n.takeoff == e.takeoff && n.landing == e.landing)
      && (n.takeoff != e.takeoff ==> n.baseAlt == e.baseAlt && n.landing == e.landing)
      && (e.takeoff ==> n.takeoff) && (e.landing ==> n.landing)
      && (Ordered(e) ==> Ordered(n))
  {
  }

  /** A logger that has recorded a base altitude and then sees a climb and a return below
      the mark reports takeoff then landing; a pass with the base altitude unset never
      latches anything, whatever the reading. */
  lemma DetectScenario()
    ensures Detect(Cleared, 120.0) == Events(120.0, false, false)
    ensures Detect(Events(120.0, false, false), 150.0) == Events(120.0, true, false)
    ensures Detect(Events(120.0, true, false), 120.5) == Events(120.0, true, true)
    ensures forall alt: real :: !Detect(Cleared, alt).takeoff && !Detect(Cleared, alt).landing
  {
  }

  // ---------------------------------------------------------------------------------
  // Buzzer
  // ---------------------------------------------------------------------------------

  const BeepInterval: nat := 1000
  const BeepLength: nat := 100
  const DebounceDelay: nat := 100

  /** Times are millis() readings. */
  datatype Buzzer = Buzzer(lastBeepTime: nat, beepStartTime: nat, beeping: bool)

  /** updateBuzzer at time now. While recording, a chirp starts once the interval since the
      last one ended has passed and stops 100 ms after it started; otherwise the buzzer is
      silenced. */
  function BuzzerStep(b: Buzzer, recording: bool, now: nat): Buzzer {
    if recording then
      if !b.beeping && now - b.lastBeepTime >= BeepInterval then b.(beepStartTime := now, beeping := true)
      else if b.beeping && now - b.beepStartTime >= BeepLength then b.(beeping := false, lastBeepTime := now)
      else b
    else if b.beeping then b.(beeping := false)
    else b
  }

  /** Each beep starts at least 1000 ms after the previous one ended and ends at least
      100 ms after it started; without recording the buzzer ends silent. */
  lemma BuzzerRules(b: Buzzer, recording: bool, now: nat)
    ensures var n := BuzzerStep(b, recording, now);
      && (!recording ==> !n.beeping && n.lastBeepTime == b.lastBeepTime)
      && (n.beeping && !b.beeping ==> recording && now >= b.lastBeepTime + BeepInterval && n.beepStartTime == now)
      && (!n.beeping && b.beeping && recording ==> now >= b.beepStartTime + BeepLength && n.lastBeepTime == now)
      && (n.beeping == b.beeping ==> n == b)
  {
  }

  /** Two successive chirps start at least 1100 ms apart: a beep started at s ends no sooner
      than s + 100, stamping the end, and the next one waits 1000 ms after that stamp. */
  lemma ChirpSpacing(b: Buzzer, now1: nat, now2: nat)
    requires b.beeping
    requires !BuzzerStep(b, true, now1).beeping
    requires BuzzerStep(BuzzerStep(b, true, now1), true, now2).beeping
    ensures now2 >= b.beepStartTime + BeepLength + BeepInterval
  {
  }

  // ---------------------------------------------------------------------------------
  // The loop's globals
  // ---------------------------------------------------------------------------------

  /** The globals of src/main.cpp that the loop reads or updates, with the logger's active
      flag (isLoggingActive()). lastButtonState is the level last seen: true = HIGH,
      released. */
  datatype Globals = Globals(events: Events, buzzer: Buzzer, lastButtonState: bool,
                             lastButtonPress: nat, logging: bool,
                             rtcOK: bool, baroOK: bool, sdOK: bool)

  /** startLogging("data.csv"), clearing the flight events when it succeeds. */
  function Begin(g: Globals, startOk: bool): Globals {
    if startOk then g.(logging := true, events := Cleared) else g
  }

  /** stopLogging(): the session ends when the logger stops. */
  function End(g: Globals, stopOk: bool): Globals {
    if stopOk then g.(logging := false) else g
  }

  /** handleButtonPress: stop a running session, or start one. */
  function Toggle(g: Globals, startOk: bool, stopOk: bool): Globals {
    if g.logging then End(g, stopOk) else Begin(g, startOk)
  }

  /** A HIGH-to-LOW edge more than the debounce delay after the last handled press. */
  predicate Pressed(g: Globals, now: nat, level: bool) {
    !level && g.lastButtonState && now - g.lastButtonPress > DebounceDelay
  }

  /** The button check at the end of loop. */
  function ButtonStep(g: Globals, now: nat, level: bool, startOk: bool, stopOk: bool): Globals {
    var h := if Pressed(g, now, level) then Toggle(g, startOk, stopOk).(lastButtonPress := now) else g;
    h.(lastButtonState := level)
  }

  /** handleCommand on the session: 'l'/'L' starts one unless one runs, 's'/'S'/'d'/'D'
      stop a running one, anything else is only echoed. */
  function CommandStep(g: Globals, cmd: char, startOk: bool, stopOk: bool): Globals {
    if cmd in "lL" then (if g.logging then g else Begin(g, startOk))
    else if cmd in "sSdD" then (if g.logging then End(g, stopOk) else g)
    else g
  }

  /** The flight-event chain of loop, run on a recording pass with a good barometer
      reading and a working clock. */
  function Sense(g: Globals, baroDataOK: bool, altitude: real): Globals {
    if g.logging && baroDataOK && g.rtcOK then g.(events := Detect(g.events, altitude)) else g
  }

  /** updateBuzzer at time now. */
  function Beep(g: Globals, now: nat): Globals {
    g.(buzzer := BuzzerStep(g.buzzer, g.logging, now))
  }

  /** One pass of loop after the sensors are read: the flight events, the buzzer, the
      button, and the serial command if one is waiting. */
  function Pass(g: Globals, now: nat, baroDataOK: bool, altitude: real, level: bool,
                cmd: char, hasCmd: bool, startOk: bool, stopOk: bool): Globals
  {
    var b := ButtonStep(Beep(Sense(g, baroDataOK, altitude), now), now, level, startOk, stopOk);
    if hasCmd then CommandStep(b, cmd, startOk, stopOk) else b
  }

  /** A press stops a running session exactly when the logger stops and otherwise starts
      one exactly when the logger starts, clearing the events; the press is stamped and the
      level is always remembered; the buzzer and the device flags are never touched. */
  lemma ButtonRules(g: Globals, now: nat, level: bool, startOk: bool, stopOk: bool)
    ensures var n := ButtonStep(g, now, level, startOk, stopOk);
      && n.lastButtonState == level
      && (Pressed(g, now, level) ==> n.lastButtonPress == now)
      && (Pressed(g, now, level) && g.logging ==> n.logging == !stopOk && n.events == g.events)
      && (Pressed(g, now, level) && !g.logging ==>
            n.logging == startOk && n.events == (if startOk then Cleared else g.events))
      && (!Pressed(g, now, level) ==> n == g.(lastButtonState := level))
      && n.buzzer == g.buzzer && n.rtcOK == g.rtcOK && n.baroOK == g.baroOK && n.sdOK == g.sdOK
  {
  }

  /** 'l'/'L' starts a session when none runs, clearing the events on success;
      's'/'S'/'d'/'D' stop a running one when the logger stops; every other command, and
      every command in the other logging state, changes nothing. */
  lemma CommandRules(g: Globals, cmd: char, startOk: bool, stopOk: bool)
    ensures var n := CommandStep(g, cmd, startOk, stopOk);
      && (cmd in "lL" && !g.logging ==>
            n.logging == startOk && n.events == (if startOk then Cleared else g.events))
      && (cmd in "sSdD" && g.logging ==> n.logging == !stopOk && n.events == g.events)
      && (!(cmd in "lL" && !g.logging) && !(cmd in "sSdD" && g.logging) ==> n == g)
      && n == g.(logging := n.logging, events := n.events)
  {
  }

  /** The flight-event step changes only the events, and only by one detection step on a
      recording pass with clock and barometer data; it keeps their order. */
  lemma SenseRules(g: Globals, baroDataOK: bool, altitude: real)
    ensures var n := Sense(g, baroDataOK, altitude);
      && n == g.(events := n.events)
      && (n.events == g.events || (g.logging && g.rtcOK && baroDataOK && n.events == Detect(g.events, altitude)))
      && (Ordered(g.events) ==> Ordered(n.events))
  {
    DetectRules(g.events, altitude);
  }

  /** Over a whole pass: the buzzer takes one step on the logging flag the pass began
      with; the level is remembered; the device flags stay; the events stay put, are
      cleared, or take one detection step on a recording pass with clock and barometer
      data; and the order of flight events survives. */
  lemma PassRules(g: Globals, now: nat, baroDataOK: bool, altitude: real, level: bool,
                  cmd: char, hasCmd: bool, startOk: bool, stopOk: bool)
    ensures var n := Pass(g, now, baroDataOK, altitude, level, cmd, hasCmd, startOk, stopOk);
      && n.buzzer == BuzzerStep(g.buzzer, g.logging, now)
      && n.lastButtonState == level
      && n.rtcOK == g.rtcOK && n.baroOK == g.baroOK && n.sdOK == g.sdOK
      && (n.events == g.events || n.events == Cleared
          || (g.logging && g.rtcOK && baroDataOK && n.events == Detect(g.events, altitude)))
      && (Ordered(g.events) ==> Ordered(n.events))
  {
    var s := Sense(g, baroDataOK, altitude);
    SenseRules(g, baroDataOK, altitude);
    var b := Beep(s, now);
    assert b == s.(buzzer := BuzzerStep(g.buzzer, g.logging, now));
    ButtonRules(b, now, level, startOk, stopOk);
    var c := ButtonStep(b, now, level, startOk, stopOk);
    CommandRules(c, cmd, startOk, stopOk);
    assert Ordered(Cleared);
  }

  /** The globals as one object. */
  class Payload {
    var baseAlt: real
    var takeoff: bool
    var landing: bool
    var lastBeepTime: nat
    var beepStartTime: nat
    var beeping: bool
    var lastButtonState: bool
    var lastButtonPress: nat
    var logging: bool
    var rtcOK: bool
    var baroOK: bool
    var sdOK: bool

    function State(): Globals
      reads this
    {
      Globals(Events(baseAlt, takeoff, landing), Buzzer(lastBeepTime, beepStartTime, beeping),
              lastButtonState, lastButtonPress, logging, rtcOK, baroOK, sdOK)
    }

    /** Static initialisation, and setup's device results. */
    constructor (rtcOK: bool, baroOK: bool, sdOK: bool)
      ensures State() == Globals(Cleared, Buzzer(0, 0, false), true, 0, false, rtcOK, baroOK, sdOK)
      ensures Ordered(State().events)
    {
      baseAlt, takeoff, landing := 0.0, false, false;
      lastBeepTime, beepStartTime, beeping := 0, 0, false;
      lastButtonState, lastButtonPress := true, 0;
      logging := false;
      this.rtcOK, this.baroOK, this.sdOK := rtcOK, baroOK, sdOK;
    }

    /** The flight-event chain in loop. */
    method FlightEvents(altitude: real)
      modifies this
      ensures State() == old(State()).(events := Detect(old(State()).events, altitude))
    {
      if baseAlt == 0.0 && altitude > 0.0 {
        baseAlt := altitude;
      } else if !takeoff && altitude > baseAlt + 1.0 {
        takeoff := true;
      } else if takeoff && !landing && altitude < baseAlt + 1.0 {
        landing := true;
      }
    }

    /** updateBuzzer at time now. */
    method UpdateBuzzer(now: nat)
      modifies this
      ensures State() == old(State()).(buzzer := BuzzerStep(old(State()).buzzer, old(logging), now))
    {
      if logging {
        if !beeping && now - lastBeepTime >= BeepInterval {
          beepStartTime := now;
          beeping := true;
        } else if beeping && now - beepStartTime >= BeepLength {
          beeping := false;
          lastBeepTime := now;
        }
      } else {
        if beeping {
          beeping := false;
        }
      }
    }

    /** startLogging("data.csv") followed, on success, by clearing the flight events. */
    method StartSession(startOk: bool)
      modifies this
      ensures State() == Begin(old(State()), startOk)
    {
      if startOk {
        logging := true;
        baseAlt := 0.0;
        takeoff := false;
        landing := false;
      }
    }

    /** stopLogging(). */
    method StopSession(stopOk: bool)
      modifies this
      ensures State() == End(old(State()), stopOk)
    {
      if stopOk {
        logging := false;
      }
    }

    /** handleButtonPress. */
    method HandleButtonPress(startOk: bool, stopOk: bool)
      modifies this
      ensures State() == Toggle(old(State()), startOk, stopOk)
    {
      if logging {
        StopSession(stopOk);
      } else {
        StartSession(startOk);
      }
    }

    /** The button check at the end of loop; pressed tells whether a press was handled. */
    method CheckButton(now: nat, level: bool, startOk: bool, stopOk: bool) returns (pressed: bool)
      modifies this
      ensures pressed == Pressed(old(State()), now, level)
      ensures State() == ButtonStep(old(State()), now, level, startOk, stopOk)
    {
      pressed := false;
      if !level && lastButtonState {
        if now - lastButtonPress > DebounceDelay {
          HandleButtonPress(startOk, stopOk);
          lastButtonPress := now;
          pressed := true;
        }
      }
      lastButtonState := level;
    }

    /** handleCommand. */
    method HandleCommand(cmd: char, startOk: bool, stopOk: bool)
      modifies this
      ensures State() == CommandStep(old(State()), cmd, startOk, stopOk)
    {
      if cmd == 'l' || cmd == 'L' {
        if !logging {
          StartSession(startOk);
        }
      } else if cmd == 's' || cmd == 'S' || cmd == 'd' || cmd == 'D' {
        if logging {
          StopSession(stopOk);
        }
      }
    }

    /** One pass of loop after the sensors are read. By PassRules the order of flight
        events survives it. */
    method LoopPass(now: nat, baroDataOK: bool, altitude: real, level: bool,
                    cmd: char, hasCmd: bool, startOk: bool, stopOk: bool)
      modifies this
      ensures State() == Pass(old(State()), now, baroDataOK, altitude, level, cmd, hasCmd, startOk, stopOk)
      ensures Ordered(old(State()).events) ==> Ordered(State().events)
    {
      PassRules(State(), now, baroDataOK, altitude, level, cmd, hasCmd, startOk, stopOk);
      if logging && baroDataOK && rtcOK {
        FlightEvents(altitude);
      }
      assert State() == Sense(old(State()), baroDataOK, altitude);
      UpdateBuzzer(now);
      var _ := CheckButton(now, level, startOk, stopOk);
      if hasCmd {
        HandleCommand(cmd, startOk, stopOk);
      }
    }
  }
}
