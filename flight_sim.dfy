// The flight-detection test bench (examples/flight_detection/flight_detection_test.cpp): a
// simulated flight with stricter detection predicates, a launch -> apogee -> landing latch,
// the reset and per-step dynamics of the simulated vehicle, and the command table.

module FlightSimulation {
  import opened FlightDetection

  /** The simulated flight states, in declaration order. */
  datatype FlightState =
    | Preflight | Launch | PoweredAscent | Coasting | Apogee | Descent | Landing | Postflight

  function FlightStateIndex(s: FlightState): (k: nat)
    ensures k <= 7
  {
    match s
    case Preflight => 0
    case Launch => 1
    case PoweredAscent => 2
    case Coasting => 3
    case Apogee => 4
    case Descent => 5
    case Landing => 6
    case Postflight => 7
  }

  const TimeStep: real := 0.1
  const Gravity: real := 9.81
  const TerminalVelocity: real := -10.0
  const AutoLaunchTime: real := 5.0
  const LandingAltitudeM: real := 5.0

  /** The flight profile a command selects: target apogee, burn time, thrust in g. */
  datatype Profile = Profile(maxAltitude: real, burnTime: real, thrustAccel: real)

  /** The global sim record. */
  datatype SimRecord = SimRecord(
    altitude: real,
    velocity: real,
    acceleration: real,
    accelMagnitude: real,
    time: real,
    state: FlightState,
    launchDetected: bool,
    apogeeDetected: bool,
    landingDetected: bool)

  /** detectLaunch of the test bench: strictly more than 2 g. */
  predicate SimDetectLaunch(accelMagnitude: real) {
    accelMagnitude > LaunchAccelThresholdG
  }

  /** detectApogee of the test bench: above 30 m and descending faster than 2 m/s. */
  predicate SimDetectApogee(altitude: real, velocity: real) {
    altitude > MinimumFlightAltitudeM && velocity < ApogeeVelocityThreshold
  }

  /** detectLanding of the test bench: below 5 m, speed (either way) under 5 m/s, under 1.5 g. */
  predicate SimDetectLanding(altitude: real, velocity: real, accelMagnitude: real) {
    altitude < LandingAltitudeM && Abs(velocity) < LandingVelocityThreshold
    && accelMagnitude < LandingAccelThresholdG
  }

  /** The test bench's predicates are strictly stronger than the flight computer's: every
      apogee or landing they report, the flight computer reports too, but not conversely
      (a fall on the pad is no apogee, and a fast fall is no landing). */
  lemma StricterThanFlightComputer(alt: real, v: real, a: real)
    ensures SimDetectLaunch(a) <==> DetectLaunch(a)
    ensures SimDetectApogee(alt, v) ==> DetectApogee(v)
    ensures SimDetectLanding(alt, v, a) ==> DetectLanding(v, a)
    ensures DetectApogee(-10.0) && !SimDetectApogee(0.0, -10.0)
    ensures DetectLanding(-20.0, 1.0) && !SimDetectLanding(0.0, -20.0, 1.0)
  {
  }

  /** resetSimulation's record: on the pad at rest, 1 g, time zero, no detections. */
  function ResetRecord(): (r: SimRecord)
    ensures r.state == Preflight && r.altitude == 0.0 && r.velocity == 0.0 && r.time == 0.0
    ensures r.accelMagnitude == 1.0 && r.acceleration == 0.0
    ensures !r.launchDetected && !r.apogeeDetected && !r.landingDetected
  {
    SimRecord(0.0, 0.0, 0.0, 1.0, 0.0, Preflight, false, false, false)
  }

  /** The flight-state logic of updateSimulation (before integration), at the advanced time. */
  function Dynamics(s: SimRecord, p: Profile): (r: SimRecord)
    ensures FlightStateIndex(r.state) >= FlightStateIndex(s.state)
    ensures r.time == s.time
    ensures r.launchDetected == s.launchDetected && r.apogeeDetected == s.apogeeDetected
    ensures r.landingDetected == s.landingDetected
  {
    match s.state
    case Preflight =>
      if s.time > AutoLaunchTime then s.(state := Launch) else s
    case Launch | PoweredAscent =>
      if s.time < AutoLaunchTime + p.burnTime then
        s.(acceleration := p.thrustAccel * Gravity - Gravity, accelMagnitude := p.thrustAccel,
           state := PoweredAscent)
      else
        s.(acceleration := -Gravity, accelMagnitude := 1.0, state := Coasting)
    case Coasting =>
      var s1 := s.(acceleration := -Gravity, accelMagnitude := 1.0);
      if s1.velocity <= 0.0 then s1.(state := Apogee) else s1
    case Apogee =>
      s.(state := Descent)
    case Descent =>
      var s1 := if s.velocity > TerminalVelocity then s.(acceleration := -Gravity)
                else s.(acceleration := 0.0, velocity := TerminalVelocity);
      var s2 := s1.(accelMagnitude := 1.0);
      if s2.altitude <= 0.0 then
        s2.(altitude := 0.0, velocity := 0.0, acceleration := 0.0, state := Landing)
      else s2
    case Landing =>
      var s1 := s.(altitude := 0.0, velocity := 0.0, acceleration := 0.0, accelMagnitude := 1.0);
      if !s1.landingDetected then s1.(state := Postflight) else s1
    case Postflight =>
      s
  }

  /** One simulation step: advance the clock, apply the state logic, integrate velocity and
      altitude, and clamp at the ground. The vehicle never ends below ground, the flight state
      never moves backwards and the detection flags are left alone. */
  function Advance(s: SimRecord, p: Profile): (r: SimRecord)
    ensures r.altitude >= 0.0
    ensures r.altitude == 0.0 || r.velocity == Dynamics(s.(time := s.time + TimeStep), p).velocity
                                               + Dynamics(s.(time := s.time + TimeStep), p).acceleration * TimeStep
    ensures r.time == s.time + TimeStep
    ensures FlightStateIndex(r.state) >= FlightStateIndex(s.state)
    ensures r.launchDetected == s.launchDetected && r.apogeeDetected == s.apogeeDetected
    ensures r.landingDetected == s.landingDetected
  {
    Integrate(Dynamics(s.(time := s.time + TimeStep), p))
  }

  /** The integration part of updateSimulation: velocity from acceleration, altitude from
      velocity, both zeroed when the vehicle would go below ground. */
  function Integrate(d: SimRecord): (r: SimRecord)
    ensures r.altitude >= 0.0
    ensures r.altitude == 0.0 || r.velocity == d.velocity + d.acceleration * TimeStep
    ensures r == d.(velocity := r.velocity, altitude := r.altitude)
  {
    var v := d.velocity + d.acceleration * TimeStep;
    var alt := d.altitude + v * TimeStep;
    if alt < 0.0 then d.(velocity := 0.0, altitude := 0.0) else d.(velocity := v, altitude := alt)
  }

  /** The detection flags are ordered: landing implies apogee implies launch. */
  predicate Ordered(s: SimRecord) {
    (s.landingDetected ==> s.apogeeDetected) && (s.apogeeDetected ==> s.launchDetected)
  }

  /** updateFlightDetection: latch launch, then apogee once launched, then landing once apogee
      is latched, each evaluated on the current record. */
  function Detect(s: SimRecord): SimRecord {
    var launch := s.launchDetected || SimDetectLaunch(s.accelMagnitude);
    var apogee := s.apogeeDetected || (launch && SimDetectApogee(s.altitude, s.velocity));
    var landing := s.landingDetected || (apogee && SimDetectLanding(s.altitude, s.velocity, s.accelMagnitude));
    s.(launchDetected := launch, apogeeDetected := apogee, landingDetected := landing)
  }

  /** The latch keeps the flags ordered, never lowers a flag, and touches nothing else. */
  lemma DetectLatches(s: SimRecord)
    ensures Ordered(s) ==> Ordered(Detect(s))
    ensures s.launchDetected ==> Detect(s).launchDetected
    ensures s.apogeeDetected ==> Detect(s).apogeeDetected
    ensures s.landingDetected ==> Detect(s).landingDetected
    ensures Detect(s).(launchDetected := s.launchDetected, apogeeDetected := s.apogeeDetected,
                       landingDetected := s.landingDetected) == s
  {
  }

  /** Landing is never latched in the same call that latches launch or apogee: the landing
      test needs under 1.5 g and under 5 m, the others over 2 g or over 30 m. */
  lemma LandingLatchedOnLaterCall(s: SimRecord)
    requires !s.landingDetected && Detect(s).landingDetected
    ensures s.apogeeDetected && s.launchDetected == Detect(s).launchDetected
  {
  }

  /** The record the reset leaves has its detection flags in order; SimRunOrdered carries that
      order through any run of steps and detection calls from it. */
  lemma ResetOrdered()
    ensures Ordered(ResetRecord())
  {
  }

  /** The profiles behind commands '1', '2' and '3'. */
  function ProfileFor(cmd: char): (p: Profile)
    requires cmd in "123"
    ensures p.burnTime > 0.0 && p.thrustAccel > LaunchAccelThresholdG && p.maxAltitude > MinimumFlightAltitudeM
  {
    if cmd == '1' then Profile(300.0, 2.0, 8.0)
    else if cmd == '2' then Profile(1000.0, 3.0, 12.0)
    else Profile(100.0, 0.5, 3.0)
  }

  /** Every profile's thrust is a launch: the first powered step of any of them latches launch. */
  lemma ProfilesLaunch(cmd: char, s: SimRecord)
    requires cmd in "123" && s.state == Launch && s.time + TimeStep < AutoLaunchTime + ProfileFor(cmd).burnTime
    ensures Detect(Advance(s, ProfileFor(cmd))).launchDetected
  {
  }

  /** The simulation globals: the sim record and the flight profile. */
  class Simulation {
    var altitude: real
    var velocity: real
    var acceleration: real
    var accelMagnitude: real
    var time: real
    var state: FlightState
    var launchDetected: bool
    var apogeeDetected: bool
    var landingDetected: bool
    var maxAltitude: real
    var burnTime: real
    var thrustAccel: real

    function Snapshot(): SimRecord
      reads this
    {
      SimRecord(altitude, velocity, acceleration, accelMagnitude, time, state,
                launchDetected, apogeeDetected, landingDetected)
    }

    function CurrentProfile(): Profile
      reads this
    {
      Profile(maxAltitude, burnTime, thrustAccel)
    }

    /** Static initialisation followed by setup's resetSimulation, with the normal profile. */
    constructor ()
      ensures Snapshot() == ResetRecord() && CurrentProfile() == ProfileFor('1')
      ensures Ordered(Snapshot())
    {
      maxAltitude, burnTime, thrustAccel := 300.0, 2.0, 8.0;
      altitude, velocity, acceleration, accelMagnitude, time := 0.0, 0.0, 0.0, 1.0, 0.0;
      state := Preflight;
      launchDetected, apogeeDetected, landingDetected := false, false, false;
    }

    /** resetSimulation. */
    method ResetSimulation()
      modifies this
      ensures Snapshot() == ResetRecord() && CurrentProfile() == old(CurrentProfile())
      ensures Ordered(Snapshot())
    {
      altitude := 0.0;
      velocity := 0.0;
      acceleration := 0.0;
      accelMagnitude := 1.0;
      time := 0.0;
      state := Preflight;
      launchDetected := false;
      apogeeDetected := false;
      landingDetected := false;
    }

    /** updateSimulation: one 100 ms step. */
    method UpdateSimulation()
      modifies this
      ensures Snapshot() == Advance(old(Snapshot()), old(CurrentProfile()))
      ensures CurrentProfile() == old(CurrentProfile())
      ensures altitude >= 0.0
    {
      time := time + TimeStep;
      assert Snapshot() == old(Snapshot()).(time := old(time) + TimeStep);
      ApplyStateLogic();
      IntegrateMotion();
    }

    /** The integration and ground clamp that end updateSimulation. */
    method IntegrateMotion()
      modifies this
      ensures Snapshot() == Integrate(old(Snapshot()))
      ensures CurrentProfile() == old(CurrentProfile())
    {
      velocity := velocity + acceleration * TimeStep;
      altitude := altitude + velocity * TimeStep;
      if altitude < 0.0 {
        altitude := 0.0;
        velocity := 0.0;
      }
    }

    /** The flight-state part of updateSimulation. */
    method ApplyStateLogic()
      modifies this
      ensures Snapshot() == Dynamics(old(Snapshot()), CurrentProfile())
      ensures CurrentProfile() == old(CurrentProfile())
    {
      if FlightStateIndex(state) <= 3 {
        ApplyAscentLogic();
      } else {
        ApplyDescentLogic();
      }
    }

    /** Preflight through coasting. */
    method ApplyAscentLogic()
      requires FlightStateIndex(state) <= 3
      modifies this
      ensures Snapshot() == Dynamics(old(Snapshot()), CurrentProfile())
      ensures CurrentProfile() == old(CurrentProfile())
    {
      if state == Preflight {
        if time > AutoLaunchTime {
          state := Launch;
        }
      } else if state == Launch || state == PoweredAscent {
        if time < AutoLaunchTime + burnTime {
          acceleration := thrustAccel * Gravity - Gravity;
          accelMagnitude := thrustAccel;
          state := PoweredAscent;
        } else {
          acceleration := -Gravity;
          accelMagnitude := 1.0;
          state := Coasting;
        }
      } else {
        acceleration := -Gravity;
        accelMagnitude := 1.0;
        if velocity <= 0.0 {
          state := Apogee;
        }
      }
    }

    /** Apogee through postflight. */
    method ApplyDescentLogic()
      requires FlightStateIndex(state) >= 4
      modifies this
      ensures Snapshot() == Dynamics(old(Snapshot()), CurrentProfile())
      ensures CurrentProfile() == old(CurrentProfile())
    {
      if state == Apogee {
        state := Descent;
      } else if state == Descent {
        if velocity > TerminalVelocity {
          acceleration := -Gravity;
        } else {
          acceleration := 0.0;
          velocity := TerminalVelocity;
        }
        accelMagnitude := 1.0;
        if altitude <= 0.0 {
          altitude := 0.0;
          velocity := 0.0;
          acceleration := 0.0;
          state := Landing;
        }
      } else if state == Landing {
        altitude := 0.0;
        velocity := 0.0;
        acceleration := 0.0;
        accelMagnitude := 1.0;
        if !landingDetected {
          state := Postflight;
        }
      }
    }

    /** updateFlightDetection: the launch, apogee and landing latch. */
    method UpdateFlightDetection()
      modifies this
      ensures Snapshot() == Detect(old(Snapshot())) && CurrentProfile() == old(CurrentProfile())
      ensures old(Ordered(Snapshot())) ==> Ordered(Snapshot())
    {
      DetectLatches(Snapshot());
      if !launchDetected && SimDetectLaunch(accelMagnitude) {
        launchDetected := true;
      }
      if launchDetected && !apogeeDetected && SimDetectApogee(altitude, velocity) {
        apogeeDetected := true;
      }
      if apogeeDetected && !landingDetected && SimDetectLanding(altitude, velocity, accelMagnitude) {
        landingDetected := true;
      }
    }

    /** testLaunchThreshold: sweep 0.5 g to 5.0 g in steps of 0.5 g, report each verdict,
        then reset. Exactly the readings from 2.5 g up are reported as launches. */
    method TestLaunchThreshold() returns (detected: seq<bool>)
      modifies this
      ensures |detected| == 10
      ensures forall k :: 0 <= k < 10 ==> (detected[k] <==> k >= 4)
      ensures Snapshot() == ResetRecord() && CurrentProfile() == old(CurrentProfile())
    {
      detected := [];
      var accel := 0.5;
      while accel <= 5.0
        invariant 0 <= |detected| <= 10
        invariant accel == (|detected| + 1) as real * 0.5
        invariant forall k :: 0 <= k < |detected| ==> (detected[k] <==> k >= 4)
        invariant CurrentProfile() == old(CurrentProfile())
        decreases 10 - |detected|
      {
        accelMagnitude := accel;
        detected := detected + [SimDetectLaunch(accelMagnitude)];
        accel := accel + 0.5;
      }
      ResetSimulation();
    }

    /** testApogeeDetection: at 50 m, sweep the velocity from 10 m/s down to -10 m/s in steps
        of 2 m/s, report each verdict, then reset. Exactly -4 m/s and below are reported. */
    method TestApogeeDetection() returns (detected: seq<bool>)
      modifies this
      ensures |detected| == 11
      ensures forall k :: 0 <= k < 11 ==> (detected[k] <==> k >= 7)
      ensures Snapshot() == ResetRecord() && CurrentProfile() == old(CurrentProfile())
    {
      detected := [];
      altitude := 50.0;
      var vel := 10.0;
      while vel >= -10.0
        invariant 0 <= |detected| <= 11
        invariant vel == 10.0 - (|detected| as real) * 2.0
        invariant altitude == 50.0
        invariant forall k :: 0 <= k < |detected| ==> (detected[k] <==> k >= 7)
        invariant CurrentProfile() == old(CurrentProfile())
        decreases 11 - |detected|
      {
        velocity := vel;
        detected := detected + [SimDetectApogee(altitude, velocity)];
        vel := vel - 2.0;
      }
      ResetSimulation();
    }

    /** handleCommand: '1', '2' and '3' select a profile and reset; '4' and '5' run a
        threshold sweep, which ends in a reset; 'r'/'R' reset; anything else changes nothing. */
    method HandleCommand(cmd: char)
      modifies this
      ensures cmd in "123" ==> Snapshot() == ResetRecord() && CurrentProfile() == ProfileFor(cmd)
      ensures cmd in "45rR" ==> Snapshot() == ResetRecord() && CurrentProfile() == old(CurrentProfile())
      ensures cmd !in "12345rR" ==> Snapshot() == old(Snapshot()) && CurrentProfile() == old(CurrentProfile())
    {
      match cmd {
        case '1' =>
          maxAltitude, burnTime, thrustAccel := 300.0, 2.0, 8.0;
          ResetSimulation();
        case '2' =>
          maxAltitude, burnTime, thrustAccel := 1000.0, 3.0, 12.0;
          ResetSimulation();
        case '3' =>
          maxAltitude, burnTime, thrustAccel := 100.0, 0.5, 3.0;
          ResetSimulation();
        case '4' =>
          var _ := TestLaunchThreshold();
        case '5' =>
          var _ := TestApogeeDetection();
        case 'r' =>
          ResetSimulation();
        case 'R' =>
          ResetSimulation();
        case _ =>
      }
    }
  }

  /** Any sequence of steps and detection calls from reset keeps the flags ordered and the
      altitude non-negative. */
  datatype SimCall = StepCall | DetectCall

  function SimRun(s: SimRecord, p: Profile, calls: seq<SimCall>): SimRecord
    decreases |calls|
  {
    if calls == [] then s
    else SimRun(if calls[0] == StepCall then Advance(s, p) else Detect(s), p, calls[1..])
  }

  lemma {:induction false} SimRunOrdered(s: SimRecord, p: Profile, calls: seq<SimCall>)
    requires Ordered(s) && s.altitude >= 0.0
    ensures Ordered(SimRun(s, p, calls)) && SimRun(s, p, calls).altitude >= 0.0
    ensures FlightStateIndex(SimRun(s, p, calls).state) >= FlightStateIndex(s.state)
    ensures s.landingDetected ==> SimRun(s, p, calls).landingDetected
    decreases |calls|
  {
    if calls != [] {
      var next := if calls[0] == StepCall then Advance(s, p) else Detect(s);
      DetectLatches(s);
      SimRunOrdered(next, p, calls[1..]);
    }
  }
}
