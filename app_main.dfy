// The stand-alone telemetry application (app/main.cpp): a three-phase flight state
// machine driven by altitude changes, and a sample interval chosen by the phase.
// Time is millis() as a natural number that only grows; its 32-bit wrap is not modelled.

module FlightMonitor {

  datatype FlightState = Preflight | Flight | Postflight

  function PhaseIndex(s: FlightState): (k: nat)
    ensures k <= 2
  {
    match s
    case Preflight => 0
    case Flight => 1
    case Postflight => 2
  }

  // app/config.h
  const PreflightSampleRateMs: nat := 1000
  const FlightSampleRateMs: nat := 100
  const PostflightSampleRateMs: nat := 5000
  const AltitudeRiseThresholdM: real := 10.0
  const AltitudeFallThresholdM: real := 5.0
  const AltitudeCheckIntervalMs: nat := 1000

  /** The globals and function-local statics the state machine reads and writes;
      altitude is currentData.altitude. */
  datatype Monitor = Monitor(
    state: FlightState,
    flightStarted: bool,
    flightStartTime: nat,
    lastAltitude: real,
    lastAltitudeCheck: nat,
    lastSampleTime: nat,
    altitude: real)

  /** Power-on values (setup stamps lastSampleTime with the current time). */
  function Initial(now: nat): Monitor {
    Monitor(Preflight, false, 0, 0.0, 0, now, 0.0)
  }

  /** determineFlightState at time now: once a check interval has passed, a rise of more
      than 10 m since the last check starts the flight, a later fall of more than 5 m
      marks it over, and the check records the altitude and the time. */
  function Check(m: Monitor, now: nat): Monitor {
    if now - m.lastAltitudeCheck >= AltitudeCheckIntervalMs as int then
      var alt := m.altitude;
      var m1 :=
        if !m.flightStarted && alt > m.lastAltitude + AltitudeRiseThresholdM then
          m.(flightStarted := true, flightStartTime := now, state := Flight)
        else if m.flightStarted && alt < m.lastAltitude - AltitudeFallThresholdM then
          m.(state := Postflight)
        else m;
      m1.(lastAltitude := alt, lastAltitudeCheck := now)
    else m
  }

  /** The phase tracks the started flag: PREFLIGHT exactly while no flight has started. */
  predicate Consistent(m: Monitor) {
    m.state == Preflight <==> !m.flightStarted
  }

  /** What one check may do: nothing before the interval has passed; otherwise it records
      the altitude and time, enters FLIGHT only on a rise of more than 10 m before any
      flight, enters POSTFLIGHT only on a fall of more than 5 m after one, never clears the
      started flag, never moves the phase back, and keeps the phase consistent. */
  lemma CheckRules(m: Monitor, now: nat)
    ensures var n := Check(m, now);
      && (now - m.lastAltitudeCheck < AltitudeCheckIntervalMs as int ==> n == m)
      && (now - m.lastAltitudeCheck >= AltitudeCheckIntervalMs as int ==>
            n.lastAltitude == m.altitude && n.lastAltitudeCheck == now)
      && (n.flightStarted && !m.flightStarted <==>
            now - m.lastAltitudeCheck >= AltitudeCheckIntervalMs as int && !m.flightStarted
            && m.altitude > m.lastAltitude + AltitudeRiseThresholdM)
      && (n.flightStarted && !m.flightStarted ==> n.state == Flight && n.flightStartTime == now)
      && (n.state == Postflight && m.state != Postflight ==>
            m.flightStarted && m.altitude < m.lastAltitude - AltitudeFallThresholdM)
      && (m.flightStarted ==> n.flightStarted && n.flightStartTime == m.flightStartTime)
      && (Consistent(m) ==> Consistent(n) && PhaseIndex(m.state) <= PhaseIndex(n.state))
      && n.altitude == m.altitude && n.lastSampleTime == m.lastSampleTime
  {
  }

  /** A climb detected at one check and a fall at the next give the full sequence. */
  lemma CheckScenario()
    ensures var m0 := Initial(0).(altitude := 50.0);
      var m1 := Check(m0, 1000);
      var m2 := Check(m1.(altitude := 40.0), 2000);
      && m1.state == Flight && m1.flightStartTime == 1000 && m1.lastAltitude == 50.0
      && m2.state == Postflight
  {
  }

  /** The sample interval for a phase: fastest in flight, slowest after it. */
  function SampleInterval(s: FlightState): (ms: nat)
    ensures ms == FlightSampleRateMs <==> s == Flight
    ensures ms == PostflightSampleRateMs <==> s == Postflight
    ensures s == Flight ==> ms < PreflightSampleRateMs < PostflightSampleRateMs
  {
    match s
    case Flight => FlightSampleRateMs
    case Preflight => PreflightSampleRateMs
    case Postflight => PostflightSampleRateMs
  }

  /** collectTelemetryData: the barometer is still a placeholder, so the sampled altitude
      is always 0.0. */
  function Collect(m: Monitor, now: nat): Monitor {
    m.(altitude := 0.0, lastSampleTime := now)
  }

  /** One pass of loop at time now: the state check, then a sample once the phase's
      interval has passed since the last one. */
  function Pass(m: Monitor, now: nat): Monitor {
    var c := Check(m, now);
    if now - c.lastSampleTime >= SampleInterval(c.state) as int then Collect(c, now) else c
  }

  /** Because collectTelemetryData only ever stores an altitude of 0.0, the application as
      written can never leave PREFLIGHT: no rise of more than 10 m is ever seen. */
  lemma {:induction false} PlaceholderNeverFlies(m: Monitor, times: seq<nat>)
    requires m.state == Preflight && !m.flightStarted && m.altitude == 0.0 && m.lastAltitude == 0.0
    ensures var n := RunPasses(m, times);
      n.state == Preflight && !n.flightStarted && n.altitude == 0.0 && n.lastAltitude == 0.0
    decreases |times|
  {
    if times != [] {
      var m1 := Pass(m, times[0]);
      assert m1.state == Preflight && !m1.flightStarted && m1.altitude == 0.0 && m1.lastAltitude == 0.0;
      PlaceholderNeverFlies(m1, times[1..]);
    }
  }

  function RunPasses(m: Monitor, times: seq<nat>): Monitor
    decreases |times|
  {
    if times == [] then m else RunPasses(Pass(m, times[0]), times[1..])
  }

  /** A check fed with an altitude reading (as a working barometer would supply it). */
  datatype Sample = Sample(now: nat, altitude: real)

  function RunChecks(m: Monitor, samples: seq<Sample>): Monitor
    decreases |samples|
  {
    if samples == [] then m
    else RunChecks(Check(m.(altitude := samples[0].altitude), samples[0].now), samples[1..])
  }

  /** Whatever altitudes are supplied, the phase only moves PREFLIGHT, FLIGHT, POSTFLIGHT
      and never returns, and once started the flight stays started with its start time. */
  lemma {:induction false} RunMonotone(m: Monitor, samples: seq<Sample>)
    requires Consistent(m)
    ensures var n := RunChecks(m, samples);
      && Consistent(n) && PhaseIndex(m.state) <= PhaseIndex(n.state)
      && (m.flightStarted ==> n.flightStarted && n.flightStartTime == m.flightStartTime)
    decreases |samples|
  {
    if samples != [] {
      var m0 := m.(altitude := samples[0].altitude);
      CheckRules(m0, samples[0].now);
      RunMonotone(Check(m0, samples[0].now), samples[1..]);
    }
  }

  /** The application's globals and the statics of determineFlightState. */
  class App {
    var state: FlightState
    var flightStarted: bool
    var flightStartTime: nat
    var lastAltitude: real
    var lastAltitudeCheck: nat
    var lastSampleTime: nat
    var altitude: real

    function Snapshot(): Monitor
      reads this
    {
      Monitor(state, flightStarted, flightStartTime, lastAltitude, lastAltitudeCheck, lastSampleTime, altitude)
    }

    /** Static initialisation followed by setup. */
    constructor (now: nat)
      ensures Snapshot() == Initial(now) && Consistent(Snapshot())
    {
      state, flightStarted, flightStartTime := Preflight, false, 0;
      lastAltitude, lastAltitudeCheck := 0.0, 0;
      lastSampleTime, altitude := now, 0.0;
    }

    /** determineFlightState at time now. */
    method DetermineFlightState(now: nat)
      modifies this
      ensures Snapshot() == Check(old(Snapshot()), now)
    {
      if now - lastAltitudeCheck >= AltitudeCheckIntervalMs as int {
        var currentAltitude := altitude;
        if !flightStarted && currentAltitude > lastAltitude + AltitudeRiseThresholdM {
          flightStarted := true;
          flightStartTime := now;
          state := Flight;
        } else if flightStarted && currentAltitude < lastAltitude - AltitudeFallThresholdM {
          state := Postflight;
        }
        lastAltitude := currentAltitude;
        lastAltitudeCheck := now;
      }
    }

    /** One pass of loop at time now; sampled says whether telemetry was collected. */
    method Loop(now: nat) returns (sampled: bool)
      modifies this
      ensures Snapshot() == Pass(old(Snapshot()), now)
      ensures sampled <==> now - Check(old(Snapshot()), now).lastSampleTime >= SampleInterval(state) as int
      ensures Consistent(old(Snapshot())) ==> Consistent(Snapshot())
    {
      DetermineFlightState(now);
      CheckRules(old(Snapshot()), now);
      var sampleInterval := SampleInterval(state);
      sampled := false;
      if now - lastSampleTime >= sampleInterval as int {
        altitude := 0.0;
        lastSampleTime := now;
        sampled := true;
      }
    }
  }
}
