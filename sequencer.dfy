// The mission sequencer as a pure state machine (src/sequencer.cpp): one tick of
// updateSequencer, executeCurrentState, executeAbortSequence and checkEmergencyConditions
// as functions from the control record, the readiness flags and the tick's inputs to the
// new record, the new flags and the actuation calls made. The class in
// sequencer_control.dfy performs the same steps in place and is proved against these.

module SequencerModel {
  import opened SequencerTypes
  import opened HardwareControl
  import opened DecimalText

  const StateTimeoutMs: int := 30000
  const LaunchAccelThresholdG: real := 2.0
  const ApogeeVelocityThreshold: real := -2.0
  const LandingVelocityThreshold: real := 5.0
  const LandingAccelThresholdG: real := 1.5
  const LaunchClearanceM: real := 50.0
  const FinalModeWaitMs: int := 5000
  const MaxStartupRetries: int := 3

  /** Length of one pyro pulse and of the settle waits after the fairing, the separation
      and landing: these delays run inside the tick, so later timestamps move forward. */
  const PulseMs: nat := 100
  const FairingClearMs: nat := 2000
  const SeparationClearMs: nat := 3000
  const ShutdownLogMs: nat := 30000

  /** SequencerControl: the whole mutable state of the sequencer. */
  datatype Control = Control(
    state: State,
    phase: Phase,
    stateStartTime: nat,
    lastStateUpdate: nat,
    sequenceActive: bool,
    emergencyAbort: bool,
    retries: int,
    launchAltitude: real,
    maxAltitude: real,
    apogeeDetected: bool)

  /** What one tick reads besides the control record and the flags: the clock, the
      derived flight signals, and the raw readings that the sensor and battery checks take. */
  datatype Input = Input(
    now: nat,
    accelMagnitude: real,
    altitude: real,
    altitudeAGL: real,
    verticalVelocity: real,
    temperature: real,
    batteryReading: int)

  /** The result of one call: new control record, new flags, actuation calls in order. */
  datatype Tick = Tick(ctl: Control, flags: Flags, actions: seq<Action>)

  /** initSequencer, at time now. */
  function Init(now: nat): (c: Control)
    ensures c.state == SbitInitSeqImu && c.phase == PhaseStartup
    ensures c.stateStartTime == now && c.lastStateUpdate == now
    ensures c.sequenceActive && !c.emergencyAbort && c.retries == 0
    ensures c.launchAltitude == 0.0 && c.maxAltitude == 0.0 && !c.apogeeDetected
  {
    Control(SbitInitSeqImu, PhaseStartup, now, now, true, false, 0, 0.0, 0.0, false)
  }

  /** transitionToState: enter s at time t and clear the retry counter; nothing else moves. */
  function Transition(c: Control, s: State, t: nat): (r: Control)
    ensures r.state == s && r.stateStartTime == t && r.retries == 0
    ensures r.phase == c.phase && r.emergencyAbort == c.emergencyAbort
    ensures r.sequenceActive == c.sequenceActive && r.lastStateUpdate == c.lastStateUpdate
    ensures r.launchAltitude == c.launchAltitude && r.maxAltitude == c.maxAltitude
    ensures r.apogeeDetected == c.apogeeDetected
  {
    c.(state := s, stateStartTime := t, retries := 0)
  }

  /** executeCurrentState: the action and exit guard of the current state. */
  function Execute(c: Control, f: Flags, inp: Input): Tick {
    match c.state
    case SbitInitSeqImu =>
      var ok := inp.temperature != TemperatureFailure;
      Tick(if ok then Transition(c, SbitStartupBattery, inp.now) else c, f.(sensorsOK := ok), [])
    case SbitStartupBattery =>
      var ok := BatteryOk(inp.batteryReading);
      Tick(if ok then Transition(c, SbitStartupTelem, inp.now) else c, f.(batteryOK := ok), [])
    case SbitStartupTelem =>
      Tick(if f.sensorsOK then Transition(c, SbitStartupPayload, inp.now) else c, f, [])
    case SbitStartupPayload =>
      Tick(Transition(c, SbitPayloadTelem, inp.now), f.(payloadOK := true), [PayloadPower(true)])
    case SbitPayloadTelem =>
      Tick(if f.payloadOK && f.sensorsOK then Transition(c, SbitRbsafeCheck, inp.now) else c, f, [])
    case SbitRbsafeCheck =>
      if f.batteryOK && f.sensorsOK && f.payloadOK then
        Tick(Transition(c, LbitIgnitBooster, inp.now).(phase := PhasePreflight), f, [])
      else
        Tick(c, f, [])
    case LbitIgnitBooster =>
      if inp.accelMagnitude > LaunchAccelThresholdG then
        var c1 := c.(launchAltitude := inp.altitudeAGL);
        Tick(Transition(c1, LbitLaunch, inp.now + PulseMs).(phase := PhaseLaunch), f, [Fire(Booster)])
      else
        Tick(c, f, [])
    case LbitLaunch =>
      if inp.altitudeAGL > c.launchAltitude + LaunchClearanceM then
        Tick(Transition(c, LbitPostLaunchReport, inp.now).(phase := PhaseFlight), f, [])
      else
        Tick(c, f, [])
    case LbitPostLaunchReport =>
      var c1 := if inp.altitude > c.maxAltitude then c.(maxAltitude := inp.altitude) else c;
      if inp.verticalVelocity < ApogeeVelocityThreshold then
        Tick(Transition(c1.(apogeeDetected := true), LbitApogeeReport, inp.now), f, [])
      else
        Tick(c1, f, [])
    case LbitApogeeReport =>
      Tick(Transition(c, DbitPopNoseFairing, inp.now).(phase := PhaseDeploy), f, [])
    case DbitPopNoseFairing =>
      Tick(Transition(c, DbitStageSeparation, inp.now + PulseMs + FairingClearMs), f, [Fire(NoseFairing)])
    case DbitStageSeparation =>
      Tick(Transition(c, DbitBoomPayload, inp.now + PulseMs + SeparationClearMs), f, [Fire(StageSeparation)])
    case DbitBoomPayload =>
      Tick(Transition(c, DbitFinalMode, inp.now + PulseMs), f, [Fire(PayloadDeploy)])
    case DbitFinalMode =>
      Tick(if inp.now - c.stateStartTime > FinalModeWaitMs then Transition(c, DbitDeployParachute, inp.now) else c, f, [])
    case DbitDeployParachute =>
      Tick(Transition(c, DbitSendAllTelem, inp.now + PulseMs).(phase := PhaseRecovery), f, [Fire(Parachute)])
    case DbitSendAllTelem =>
      if inp.verticalVelocity < LandingVelocityThreshold && inp.accelMagnitude < LandingAccelThresholdG then
        Tick(Transition(c, AbitKillAllProcesses, inp.now + ShutdownLogMs), f, [])
      else
        Tick(c, f, [])
    case AbitKillAllProcesses =>
      Tick(c.(sequenceActive := false), f, [SafeAll])
  }

  /** The state has been running for longer than STATE_TIMEOUT_MS. */
  predicate TimedOut(c: Control, now: nat) {
    now - c.stateStartTime > StateTimeoutMs
  }

  predicate InStartupBand(s: State) {
    StateIndex(s) <= StateIndex(SbitRbsafeCheck)
  }

  /** executeAbortSequence: safe every channel, fire the parachute once the vehicle may be
      airborne, and jump to the shutdown state. The phase is left as it was. */
  function AbortSequence(c: Control, f: Flags, now: nat): Tick {
    if PhaseIndex(c.phase) >= PhaseIndex(PhaseLaunch) then
      Tick(Transition(c, AbitKillAllProcesses, now + PulseMs), f, [SafeAll, Fire(Parachute)])
    else
      Tick(Transition(c, AbitKillAllProcesses, now), f, [SafeAll])
  }

  /** updateSequencer: paused, abort path, startup timeout and retry, then dispatch. */
  function Update(c: Control, f: Flags, inp: Input): Tick {
    if !c.sequenceActive && !c.emergencyAbort then
      Tick(c, f, [])
    else if c.emergencyAbort then
      AbortSequence(c, f, inp.now)
    else if TimedOut(c, inp.now) && InStartupBand(c.state) then
      var c1 := c.(retries := c.retries + 1);
      if c1.retries > MaxStartupRetries then Tick(c1.(emergencyAbort := true), f, [])
      else Execute(c1, f, inp)
    else
      Execute(c, f, inp)
  }

  /** checkEmergencyConditions: the abort pin reads LOW, or the battery has failed after launch
      (which fires the parachute when the phase is FLIGHT and sets no flag). */
  function CheckEmergency(c: Control, f: Flags, abortPinLow: bool): Tick {
    if abortPinLow then
      Tick(c.(emergencyAbort := true), f, [])
    else if !f.batteryOK && PhaseIndex(c.phase) >= PhaseIndex(PhaseLaunch) then
      Tick(c, f, if c.phase == PhaseFlight then [Fire(Parachute)] else [])
    else
      Tick(c, f, [])
  }

  /** The calls the application loop may make on the sequencer, in any order. */
  datatype Call =
    | UpdateCall(inp: Input)
    | EmergencyCall(abortPinLow: bool)
    | BatteryCall(reading: int)

  function Step(c: Control, f: Flags, call: Call): Tick {
    match call
    case UpdateCall(inp) => Update(c, f, inp)
    case EmergencyCall(pinLow) => CheckEmergency(c, f, pinLow)
    case BatteryCall(reading) => Tick(c, f.(batteryOK := BatteryOk(reading)), [])
  }

  /** A run of calls from (c, f): the final record and flags and every actuation made. */
  function Run(c: Control, f: Flags, calls: seq<Call>): Tick
    decreases |calls|
  {
    if calls == [] then Tick(c, f, [])
    else
      var t := Step(c, f, calls[0]);
      var rest := Run(t.ctl, t.flags, calls[1..]);
      Tick(rest.ctl, rest.flags, t.actions + rest.actions)
  }

  /** Number of times channel ch is pulsed in a list of actuation calls. */
  function FireCount(actions: seq<Action>, ch: Channel): (n: nat)
    ensures n <= |actions|
    ensures n == 0 <==> Fire(ch) !in actions
    decreases |actions|
  {
    if actions == [] then 0
    else (if actions[0] == Fire(ch) then 1 else 0) + FireCount(actions[1..], ch)
  }

  lemma {:induction false} FireCountAppend(a: seq<Action>, b: seq<Action>, ch: Channel)
    ensures FireCount(a + b, ch) == FireCount(a, ch) + FireCount(b, ch)
    decreases |a|
  {
    if a == [] {
      assert a + b == b;
    } else {
      assert (a + b)[1..] == a[1..] + b;
      FireCountAppend(a[1..], b, ch);
    }
  }

  // ---------------------------------------------------------------------------------
  // Single-tick properties
  // ---------------------------------------------------------------------------------

  /** Every move executeCurrentState makes is from state k to state k+1; it never touches
      the abort flag, and a move always clears the retry counter. */
  lemma ExecuteAdvancesByOne(c: Control, f: Flags, inp: Input)
    ensures var r := Execute(c, f, inp);
      (r.ctl.state == c.state || (c.state != AbitKillAllProcesses && r.ctl.state == Next(c.state)))
      && r.ctl.emergencyAbort == c.emergencyAbort
      && (r.ctl.state != c.state ==> r.ctl.retries == 0 && r.ctl.stateStartTime >= inp.now)
      && (r.ctl.state == c.state ==> r.ctl.retries == c.retries && r.ctl.stateStartTime == c.stateStartTime)
  {
  }

  /** The channel each deploy-band state pulses. */
  function DeployChannel(s: State): Channel
    requires s in {DbitPopNoseFairing, DbitStageSeparation, DbitBoomPayload, DbitDeployParachute}
  {
    match s
    case DbitPopNoseFairing => NoseFairing
    case DbitStageSeparation => StageSeparation
    case DbitBoomPayload => PayloadDeploy
    case DbitDeployParachute => Parachute
  }

  /** States 10, 11, 12 and 14 pulse exactly their own channel and move on in the same tick,
      with the start of the next state pushed past the pulse and the settle wait. */
  lemma DeployStatesActuateOnce(c: Control, f: Flags, inp: Input)
    requires c.state in {DbitPopNoseFairing, DbitStageSeparation, DbitBoomPayload, DbitDeployParachute}
    ensures var r := Execute(c, f, inp);
      r.actions == [Fire(DeployChannel(c.state))] && r.ctl.state == Next(c.state) && r.flags == f
      && r.ctl.stateStartTime == inp.now + PulseMs
           + (if c.state == DbitPopNoseFairing then FairingClearMs
              else if c.state == DbitStageSeparation then SeparationClearMs else 0)
  {
  }

  /** A paused sequencer (inactive and not aborting) ignores the tick completely. */
  lemma PausedIsNoop(c: Control, f: Flags, inp: Input)
    requires !c.sequenceActive && !c.emergencyAbort
    ensures Update(c, f, inp) == Tick(c, f, [])
  {
  }

  /** In ABIT_KILL_ALL_PROCESSES, a normal tick safes all channels and deactivates the sequencer. */
  lemma KillStateShutsDown(c: Control, f: Flags, inp: Input)
    requires c.state == AbitKillAllProcesses && c.sequenceActive && !c.emergencyAbort
    ensures Update(c, f, inp) == Tick(c.(sequenceActive := false), f, [SafeAll])
    ensures !Update(c, f, inp).ctl.sequenceActive
  {
  }

  /** With the abort flag set, the tick runs the abort sequence and nothing else: it ends in
      ABIT_KILL_ALL_PROCESSES, keeps the flag, the phase (never PHASE_ABORT unless it already was)
      and sequenceActive, evaluates no exit guard, and fires the parachute whenever the phase
      is LAUNCH or later. */
  lemma AbortTick(c: Control, f: Flags, inp: Input)
    requires c.emergencyAbort
    ensures var r := Update(c, f, inp);
      r.ctl.state == AbitKillAllProcesses && r.ctl.emergencyAbort
      && r.ctl.phase == c.phase && r.ctl.sequenceActive == c.sequenceActive
      && r.ctl.launchAltitude == c.launchAltitude && r.ctl.maxAltitude == c.maxAltitude
      && r.ctl.apogeeDetected == c.apogeeDetected && r.ctl.retries == 0
      && r.flags == f
      && r.actions == [SafeAll] + (if PhaseIndex(c.phase) >= PhaseIndex(PhaseLaunch) then [Fire(Parachute)] else [])
  {
  }

  /** States after the startup band never time out: the tick goes straight to dispatch. */
  lemma LaterBandsIgnoreTimeout(c: Control, f: Flags, inp: Input)
    requires c.sequenceActive && !c.emergencyAbort && !InStartupBand(c.state)
    ensures Update(c, f, inp) == Execute(c, f, inp)
  {
  }

  /** A timed-out startup tick counts one retry without moving stateStartTime; once the count
      passes 3 it sets the abort flag and dispatches no state in that tick. */
  lemma StartupTimeoutTick(c: Control, f: Flags, inp: Input)
    requires c.sequenceActive && !c.emergencyAbort && InStartupBand(c.state) && TimedOut(c, inp.now)
    ensures c.retries + 1 > MaxStartupRetries ==>
      Update(c, f, inp) == Tick(c.(retries := c.retries + 1, emergencyAbort := true), f, [])
    ensures c.retries + 1 <= MaxStartupRetries ==>
      Update(c, f, inp) == Execute(c.(retries := c.retries + 1), f, inp)
  {
  }

  /** The exit guard of a startup state fails on this tick. */
  predicate StartupGuardFails(s: State, f: Flags, inp: Input) {
    match s
    case SbitInitSeqImu => inp.temperature == TemperatureFailure
    case SbitStartupBattery => !BatteryOk(inp.batteryReading)
    case SbitStartupTelem => !f.sensorsOK
    case SbitPayloadTelem => !(f.payloadOK && f.sensorsOK)
    case SbitRbsafeCheck => !(f.batteryOK && f.sensorsOK && f.payloadOK)
    case _ => false
  }

  /** A timed-out startup tick whose guard fails leaves the state and its start time where
      they are, counts a retry, and leaves the guard just as failing for the next tick. */
  lemma StalledStartupTick(c: Control, f: Flags, inp: Input)
    requires c.sequenceActive && !c.emergencyAbort && InStartupBand(c.state)
    requires TimedOut(c, inp.now) && StartupGuardFails(c.state, f, inp)
    ensures var r := Update(c, f, inp);
      r.ctl == c.(retries := c.retries + 1, emergencyAbort := c.retries + 1 > MaxStartupRetries)
      && r.actions == []
      && (forall inp2 :: StartupGuardFails(c.state, r.flags, inp2) == StartupGuardFails(c.state, f, inp2))
  {
  }

  /** Exit guards: SBIT_RBSAFE_CHECK needs all three readiness flags; LBIT_IGNIT_BOOSTER needs
      an acceleration strictly above 2 g and records the launch altitude; DBIT_FINAL_MODE needs
      more than 5000 ms in the state. */
  lemma ExitGuards(c: Control, f: Flags, inp: Input)
    ensures c.state == SbitRbsafeCheck ==>
      (Execute(c, f, inp).ctl.state != c.state <==> f.batteryOK && f.sensorsOK && f.payloadOK)
      && (Execute(c, f, inp).ctl.state != c.state ==> Execute(c, f, inp).ctl.phase == PhasePreflight)
    ensures c.state == LbitIgnitBooster ==>
      (Execute(c, f, inp).ctl.state != c.state <==> inp.accelMagnitude > 2.0)
      && (inp.accelMagnitude > 2.0 ==>
            Execute(c, f, inp).ctl.launchAltitude == inp.altitudeAGL
            && Execute(c, f, inp).ctl.phase == PhaseLaunch
            && Execute(c, f, inp).actions == [Fire(Booster)])
      && (inp.accelMagnitude <= 2.0 ==> Execute(c, f, inp) == Tick(c, f, []))
    ensures c.state == DbitFinalMode ==>
      (Execute(c, f, inp).ctl.state != c.state <==> inp.now - c.stateStartTime > 5000)
  {
  }

  /** In LBIT_POST_LAUNCH_REPORT the recorded maximum becomes max(old, altitude), and the
      apogee flag is raised exactly when the state leaves on a descent faster than 2 m/s. */
  lemma PostLaunchTracksApogee(c: Control, f: Flags, inp: Input)
    requires c.state == LbitPostLaunchReport
    ensures var r := Execute(c, f, inp);
      r.ctl.maxAltitude >= c.maxAltitude && r.ctl.maxAltitude >= inp.altitude
      && (r.ctl.maxAltitude == c.maxAltitude || r.ctl.maxAltitude == inp.altitude)
      && (r.ctl.state == LbitApogeeReport <==> inp.verticalVelocity < -2.0)
      && (r.ctl.state != LbitApogeeReport ==> r.ctl.state == c.state)
      && (r.ctl.apogeeDetected <==> c.apogeeDetected || inp.verticalVelocity < -2.0)
  {
  }

  /** A low battery after launch fires the parachute on every check while the phase is FLIGHT,
      and never sets the abort flag or changes the record. */
  lemma LowBatteryInFlight(c: Control, f: Flags)
    requires !f.batteryOK && c.phase == PhaseFlight
    ensures CheckEmergency(c, f, false) == Tick(c, f, [Fire(Parachute)])
  {
  }

  // ---------------------------------------------------------------------------------
  // Properties of whole runs
  // ---------------------------------------------------------------------------------

  /** No updateSequencer tick moves the state backwards: abort jumps to the last state,
      dispatch to k+1 at most. */
  lemma UpdateMonotone(c: Control, f: Flags, inp: Input)
    ensures StateIndex(Update(c, f, inp).ctl.state) >= StateIndex(c.state)
    ensures Update(c, f, inp).ctl.state != c.state ==>
              Update(c, f, inp).ctl.state == AbitKillAllProcesses || Update(c, f, inp).ctl.state == Next(c.state)
  {
    if !c.sequenceActive && !c.emergencyAbort {
    } else if c.emergencyAbort {
    } else if TimedOut(c, inp.now) && InStartupBand(c.state) {
      ExecuteAdvancesByOne(c.(retries := c.retries + 1), f, inp);
    } else {
      ExecuteAdvancesByOne(c, f, inp);
    }
  }

  /** No call moves the state backwards. */
  lemma StepMonotone(c: Control, f: Flags, call: Call)
    ensures StateIndex(Step(c, f, call).ctl.state) >= StateIndex(c.state)
  {
    if call.UpdateCall? {
      UpdateMonotone(c, f, call.inp);
    }
  }

  lemma {:induction false} RunMonotone(c: Control, f: Flags, calls: seq<Call>)
    ensures StateIndex(Run(c, f, calls).ctl.state) >= StateIndex(c.state)
    decreases |calls|
  {
    if calls != [] {
      var t := Step(c, f, calls[0]);
      StepMonotone(c, f, calls[0]);
      RunMonotone(t.ctl, t.flags, calls[1..]);
    }
  }

  /** Only initSequencer clears the abort flag: no call does. */
  lemma StepKeepsAbort(c: Control, f: Flags, call: Call)
    requires c.emergencyAbort
    ensures Step(c, f, call).ctl.emergencyAbort
    ensures Step(c, f, call).ctl.sequenceActive == c.sequenceActive
  {
  }

  /** Once the abort flag is set it stays set, and the sequencer is never deactivated: the
      shutdown state's own body never runs, so the abort sequence repeats on every tick. */
  lemma {:induction false} RunKeepsAbort(c: Control, f: Flags, calls: seq<Call>)
    requires c.emergencyAbort
    ensures Run(c, f, calls).ctl.emergencyAbort
    ensures Run(c, f, calls).ctl.sequenceActive == c.sequenceActive
    decreases |calls|
  {
    if calls != [] {
      var t := Step(c, f, calls[0]);
      StepKeepsAbort(c, f, calls[0]);
      RunKeepsAbort(t.ctl, t.flags, calls[1..]);
    }
  }

  /** A run made only of updateSequencer ticks. */
  function Updates(ins: seq<Input>): (calls: seq<Call>)
    ensures |calls| == |ins|
    ensures forall k :: 0 <= k < |ins| ==> calls[k] == UpdateCall(ins[k])
  {
    seq(|ins|, k requires 0 <= k < |ins| => UpdateCall(ins[k]))
  }

  /** Under abort after launch, every tick fires the parachute again: n ticks, n pulses. */
  lemma {:induction false} AbortRefiresParachute(c: Control, f: Flags, ins: seq<Input>)
    requires c.emergencyAbort && PhaseIndex(c.phase) >= PhaseIndex(PhaseLaunch)
    ensures FireCount(Run(c, f, Updates(ins)).actions, Parachute) == |ins|
    ensures Run(c, f, Updates(ins)).ctl.phase == c.phase
    decreases |ins|
  {
    if ins != [] {
      var calls := Updates(ins);
      var t := Step(c, f, calls[0]);
      AbortTick(c, f, ins[0]);
      assert t.actions == [SafeAll, Fire(Parachute)];
      assert calls[1..] == Updates(ins[1..]);
      AbortRefiresParachute(t.ctl, t.flags, ins[1..]);
      FireCountAppend(t.actions, Run(t.ctl, t.flags, calls[1..]).actions, Parachute);
      assert FireCount(t.actions, Parachute) == 1 by {
        assert t.actions[1..] == [Fire(Parachute)];
        assert t.actions[1..][1..] == [];
      }
    }
  }

  /** n emergency checks with a failed battery in FLIGHT fire the parachute n times and leave
      the record, abort flag included, unchanged. */
  lemma {:induction false} LowBatteryRefires(c: Control, f: Flags, n: nat)
    requires !f.batteryOK && c.phase == PhaseFlight
    ensures Run(c, f, seq(n, _ => EmergencyCall(false))).ctl == c
    ensures FireCount(Run(c, f, seq(n, _ => EmergencyCall(false))).actions, Parachute) == n
    decreases n
  {
    var calls := seq(n, _ => EmergencyCall(false));
    if n > 0 {
      LowBatteryInFlight(c, f);
      assert Step(c, f, calls[0]) == Tick(c, f, [Fire(Parachute)]);
      assert calls[1..] == seq(n - 1, _ => EmergencyCall(false));
      LowBatteryRefires(c, f, n - 1);
      var rest := Run(c, f, calls[1..]);
      assert Run(c, f, calls) == Tick(rest.ctl, rest.flags, [Fire(Parachute)] + rest.actions);
      FireCountAppend([Fire(Parachute)], rest.actions, Parachute);
      assert [Fire(Parachute)][1..] == [];
    }
  }

  /** Starting with no retries, a startup state whose guard keeps failing after the timeout
      survives three ticks and is aborted on the fourth, because stateStartTime is never reset. */
  lemma {:induction false} StalledStartupTicks(c: Control, f: Flags, ins: seq<Input>)
    requires c.sequenceActive && !c.emergencyAbort && InStartupBand(c.state)
    requires 0 <= c.retries <= MaxStartupRetries && c.retries + |ins| <= MaxStartupRetries + 1
    requires forall k :: 0 <= k < |ins| ==> TimedOut(c, ins[k].now) && StartupGuardFails(c.state, f, ins[k])
    ensures Run(c, f, Updates(ins)).ctl
            == c.(retries := c.retries + |ins|, emergencyAbort := c.retries + |ins| > MaxStartupRetries)
    ensures Run(c, f, Updates(ins)).actions == []
    decreases |ins|
  {
    if ins != [] {
      var calls := Updates(ins);
      StalledStartupTick(c, f, ins[0]);
      var t := Step(c, f, calls[0]);
      assert calls[1..] == Updates(ins[1..]);
      if |ins| == 1 {
        assert calls[1..] == [];
      } else {
        assert !t.ctl.emergencyAbort;
        forall k | 0 <= k < |ins[1..]|
          ensures TimedOut(t.ctl, ins[1..][k].now) && StartupGuardFails(t.ctl.state, t.flags, ins[1..][k])
        {
          assert ins[1..][k] == ins[k + 1];
        }
        StalledStartupTicks(t.ctl, t.flags, ins[1..]);
      }
    }
  }

  /** The fourth timed-out tick in a stalled startup state sets the abort flag; the first three do not. */
  lemma FourthTimeoutTickAborts(c: Control, f: Flags, i1: Input, i2: Input, i3: Input, i4: Input)
    requires c.sequenceActive && !c.emergencyAbort && InStartupBand(c.state) && c.retries == 0
    requires forall i :: i in [i1, i2, i3, i4] ==> TimedOut(c, i.now) && StartupGuardFails(c.state, f, i)
    ensures !Run(c, f, Updates([i1, i2, i3])).ctl.emergencyAbort
    ensures Run(c, f, Updates([i1, i2, i3, i4])).ctl.emergencyAbort
    ensures Run(c, f, Updates([i1, i2, i3, i4])).ctl.state == c.state
  {
    var ins := [i1, i2, i3, i4];
    assert forall k :: 0 <= k < 4 ==> ins[k] in ins;
    StalledStartupTicks(c, f, ins);
    var ins3 := [i1, i2, i3];
    assert forall k :: 0 <= k < 3 ==> ins3[k] in ins;
    StalledStartupTicks(c, f, ins3);
  }

  /** The state each of the four single-use channels fires from. */
  function FiringState(ch: Channel): State
    requires ch != Parachute
  {
    match ch
    case Booster => LbitIgnitBooster
    case NoseFairing => DbitPopNoseFairing
    case StageSeparation => DbitStageSeparation
    case PayloadDeploy => DbitBoomPayload
  }

  /** executeCurrentState makes at most one actuation call, and pulses a single-use channel
      only from the state that owns it, moving on to the next state. */
  lemma ExecuteFiresFromItsState(c: Control, f: Flags, inp: Input, ch: Channel)
    requires ch != Parachute
    ensures var r := Execute(c, f, inp);
      |r.actions| <= 1
      && (Fire(ch) in r.actions ==> c.state == FiringState(ch) && r.ctl.state == Next(c.state))
  {
  }

  /** A call pulses a single-use channel at most once, and only while leaving its firing state. */
  lemma StepFiresFromItsState(c: Control, f: Flags, call: Call, ch: Channel)
    requires ch != Parachute
    ensures var t := Step(c, f, call);
      FireCount(t.actions, ch) <= 1
      && (FireCount(t.actions, ch) == 1 ==>
            c.state == FiringState(ch) && StateIndex(t.ctl.state) > StateIndex(FiringState(ch)))
  {
    match call
    case UpdateCall(inp) =>
      if !c.sequenceActive && !c.emergencyAbort {
      } else if c.emergencyAbort {
        AbortTick(c, f, inp);
      } else if TimedOut(c, inp.now) && InStartupBand(c.state) {
        ExecuteFiresFromItsState(c.(retries := c.retries + 1), f, inp, ch);
      } else {
        ExecuteFiresFromItsState(c, f, inp, ch);
      }
    case EmergencyCall(_) =>
    case BatteryCall(_) =>
  }

  /** Booster, nose fairing, stage separation and payload each fire at most once in any run,
      and not at all once the state has passed the one that fires them. */
  lemma {:induction false} SingleUseChannelsFireAtMostOnce(c: Control, f: Flags, calls: seq<Call>, ch: Channel)
    requires ch != Parachute
    ensures FireCount(Run(c, f, calls).actions, ch)
            <= if StateIndex(c.state) <= StateIndex(FiringState(ch)) then 1 else 0
    decreases |calls|
  {
    if calls != [] {
      var t := Step(c, f, calls[0]);
      var rest := Run(t.ctl, t.flags, calls[1..]);
      StepFiresFromItsState(c, f, calls[0], ch);
      StepMonotone(c, f, calls[0]);
      SingleUseChannelsFireAtMostOnce(t.ctl, t.flags, calls[1..], ch);
      FireCountAppend(t.actions, rest.actions, ch);
    }
  }

  // ---------------------------------------------------------------------------------
  // The record invariant
  // ---------------------------------------------------------------------------------

  /** The phase each state runs in on the normal path. */
  function ExpectedPhase(s: State): Phase {
    if InStartupBand(s) then PhaseStartup
    else if s == LbitIgnitBooster then PhasePreflight
    else if s == LbitLaunch then PhaseLaunch
    else if s == LbitPostLaunchReport || s == LbitApogeeReport then PhaseFlight
    else if StateIndex(s) <= StateIndex(DbitDeployParachute) then PhaseDeploy
    else PhaseRecovery
  }

  /** The record stays consistent: the retry count is 0..4 and 4 only with the abort flag
      set, and outside the shutdown state the phase is the one the state belongs to. */
  ghost predicate Inv(c: Control) {
    && 0 <= c.retries <= MaxStartupRetries + 1
    && (c.retries > MaxStartupRetries ==> c.emergencyAbort)
    && (c.state != AbitKillAllProcesses ==> c.phase == ExpectedPhase(c.state))
    && (c.state == AbitKillAllProcesses && !c.emergencyAbort ==> c.phase == PhaseRecovery)
  }

  lemma InitInv(now: nat)
    ensures Inv(Init(now))
  {
  }

  lemma StepPreservesInv(c: Control, f: Flags, call: Call)
    requires Inv(c)
    ensures Inv(Step(c, f, call).ctl)
  {
    match call
    case UpdateCall(inp) => UpdatePreservesInv(c, f, inp);
    case EmergencyCall(pinLow) =>
    case BatteryCall(reading) =>
  }

  lemma UpdatePreservesInv(c: Control, f: Flags, inp: Input)
    requires Inv(c)
    ensures Inv(Update(c, f, inp).ctl)
  {
    if !c.sequenceActive && !c.emergencyAbort {
    } else if c.emergencyAbort {
    } else if TimedOut(c, inp.now) && InStartupBand(c.state) {
      var c1 := c.(retries := c.retries + 1);
      if c1.retries <= MaxStartupRetries {
        ExecutePreservesInv(c1, f, inp);
      }
    } else {
      ExecutePreservesInv(c, f, inp);
    }
  }

  lemma ExecutePreservesInv(c: Control, f: Flags, inp: Input)
    requires Inv(c)
    ensures Inv(Execute(c, f, inp).ctl)
  {
    if StateIndex(c.state) < StateIndex(LbitIgnitBooster) {
      StartupExecutePreservesInv(c, f, inp);
    } else {
      FlightExecutePreservesInv(c, f, inp);
    }
  }

  lemma StartupExecutePreservesInv(c: Control, f: Flags, inp: Input)
    requires Inv(c) && StateIndex(c.state) < StateIndex(LbitIgnitBooster)
    ensures Inv(Execute(c, f, inp).ctl)
  {
  }

  lemma FlightExecutePreservesInv(c: Control, f: Flags, inp: Input)
    requires Inv(c) && StateIndex(c.state) >= StateIndex(LbitIgnitBooster)
    ensures Inv(Execute(c, f, inp).ctl)
  {
    if StateIndex(c.state) < StateIndex(DbitPopNoseFairing) {
      LaunchExecutePreservesInv(c, f, inp);
    } else {
      DeployExecutePreservesInv(c, f, inp);
    }
  }

  lemma LaunchExecutePreservesInv(c: Control, f: Flags, inp: Input)
    requires Inv(c) && BandOf(c.state) == Launch
    ensures Inv(Execute(c, f, inp).ctl)
  {
    match c.state
    case LbitIgnitBooster =>
    case LbitLaunch =>
    case LbitPostLaunchReport =>
    case LbitApogeeReport =>
  }

  lemma DeployExecutePreservesInv(c: Control, f: Flags, inp: Input)
    requires Inv(c) && StateIndex(c.state) >= StateIndex(DbitPopNoseFairing)
    ensures Inv(Execute(c, f, inp).ctl)
  {
    match c.state
    case DbitPopNoseFairing => assert ExpectedPhase(DbitStageSeparation) == PhaseDeploy;
    case DbitStageSeparation => assert ExpectedPhase(DbitBoomPayload) == PhaseDeploy;
    case DbitBoomPayload => assert ExpectedPhase(DbitFinalMode) == PhaseDeploy;
    case DbitFinalMode => assert ExpectedPhase(DbitDeployParachute) == PhaseDeploy;
    case DbitDeployParachute => assert ExpectedPhase(DbitSendAllTelem) == PhaseRecovery;
    case DbitSendAllTelem =>
    case AbitKillAllProcesses =>
  }

  lemma {:induction false} RunPreservesInv(c: Control, f: Flags, calls: seq<Call>)
    requires Inv(c)
    ensures Inv(Run(c, f, calls).ctl)
    decreases |calls|
  {
    if calls != [] {
      var t := Step(c, f, calls[0]);
      StepPreservesInv(c, f, calls[0]);
      RunPreservesInv(t.ctl, t.flags, calls[1..]);
    }
  }

  /** Under the invariant, "phase >= PHASE_LAUNCH" means "past booster ignition", so a low
      battery can only fire the parachute from LBIT_POST_LAUNCH_REPORT or LBIT_APOGEE_REPORT. */
  lemma EmergencyParachuteOnlyInFlight(c: Control, f: Flags)
    requires Inv(c) && c.state != AbitKillAllProcesses
    ensures PhaseIndex(c.phase) >= PhaseIndex(PhaseLaunch) <==> StateIndex(c.state) >= StateIndex(LbitLaunch)
    ensures Fire(Parachute) in CheckEmergency(c, f, false).actions <==>
            !f.batteryOK && c.state in {LbitPostLaunchReport, LbitApogeeReport}
  {
  }

  // ---------------------------------------------------------------------------------
  // Names
  // ---------------------------------------------------------------------------------

  /** getStateString. */
  function StateString(s: State): string {
    match s
    case SbitInitSeqImu => "SBIT-0: Init Seq/IMU"
    case SbitStartupBattery => "SBIT-1: Startup Battery"
    case SbitStartupTelem => "SBIT-2: Startup Telemetry"
    case SbitStartupPayload => "SBIT-3: Startup Payload"
    case SbitPayloadTelem => "SBIT-4: Payload Telemetry"
    case SbitRbsafeCheck => "SBIT-5: RBSAFE Check"
    case LbitIgnitBooster => "LBIT-6: Ignit Booster"
    case LbitLaunch => "LBIT-7: Launch"
    case LbitPostLaunchReport => "LBIT-8: Post Launch"
    case LbitApogeeReport => "LBIT-9: Apogee Report"
    case DbitPopNoseFairing => "DBIT-10: Pop Nose Fairing"
    case DbitStageSeparation => "DBIT-11: Stage Separation"
    case DbitBoomPayload => "DBIT-12: Boom Payload"
    case DbitFinalMode => "DBIT-13: Final Mode"
    case DbitDeployParachute => "DBIT-14: Deploy Parachute"
    case DbitSendAllTelem => "DBIT-15: Send All Telemetry"
    case AbitKillAllProcesses => "ABIT-16: Kill All Processes"
  }

  /** getPhaseString. */
  function PhaseString(p: Phase): string {
    match p
    case PhaseStartup => "STARTUP"
    case PhasePreflight => "PREFLIGHT"
    case PhaseLaunch => "LAUNCH"
    case PhaseFlight => "FLIGHT"
    case PhaseDeploy => "DEPLOY"
    case PhaseRecovery => "RECOVERY"
    case PhaseAbort => "ABORT"
  }

  function BandTag(b: Band): string {
    match b
    case Startup => "SBIT"
    case Launch => "LBIT"
    case Deploy => "DBIT"
    case Abort => "ABIT"
  }

  /** The label prefixes of each band, state by state. */
  lemma StartupLabels(s: State)
    requires BandOf(s) == Startup
    ensures BandTag(BandOf(s)) + "-" + Decimal(StateIndex(s)) <= StateString(s)
  {
    if StateIndex(s) <= 2 {
      EarlyStartupLabels(s);
    } else {
      LateStartupLabels(s);
    }
  }

  lemma EarlyStartupLabels(s: State)
    requires BandOf(s) == Startup && StateIndex(s) <= 2
    ensures "SBIT-" + Decimal(StateIndex(s)) <= StateString(s)
  {
    match s
    case SbitInitSeqImu => assert Decimal(0) == "0";
    case SbitStartupBattery => assert Decimal(1) == "1";
    case SbitStartupTelem => assert Decimal(2) == "2";
    case _ =>
  }

  lemma LateStartupLabels(s: State)
    requires BandOf(s) == Startup && StateIndex(s) > 2
    ensures "SBIT-" + Decimal(StateIndex(s)) <= StateString(s)
  {
    match s
    case SbitStartupPayload => assert Decimal(3) == "3";
    case SbitPayloadTelem => assert Decimal(4) == "4";
    case SbitRbsafeCheck => assert Decimal(5) == "5";
    case _ =>
  }

  lemma LaunchLabels(s: State)
    requires BandOf(s) == Launch
    ensures BandTag(BandOf(s)) + "-" + Decimal(StateIndex(s)) <= StateString(s)
  {
    if StateIndex(s) <= 7 {
      EarlyLaunchLabels(s);
    } else {
      LateLaunchLabels(s);
    }
  }

  lemma EarlyLaunchLabels(s: State)
    requires BandOf(s) == Launch && StateIndex(s) <= 7
    ensures "LBIT-" + Decimal(StateIndex(s)) <= StateString(s)
  {
    match s
    case LbitIgnitBooster => assert Decimal(6) == "6";
    case LbitLaunch => assert Decimal(7) == "7";
    case _ =>
  }

  lemma LateLaunchLabels(s: State)
    requires BandOf(s) == Launch && StateIndex(s) > 7
    ensures "LBIT-" + Decimal(StateIndex(s)) <= StateString(s)
  {
    match s
    case LbitPostLaunchReport => assert Decimal(8) == "8";
    case LbitApogeeReport => assert Decimal(9) == "9";
    case _ =>
  }

  lemma DeployLabels(s: State)
    requires BandOf(s) == Deploy
    ensures BandTag(BandOf(s)) + "-" + Decimal(StateIndex(s)) <= StateString(s)
  {
    DecimalTeens(StateIndex(s));
    if StateIndex(s) <= 12 {
      EarlyDeployLabels(s);
    } else {
      LateDeployLabels(s);
    }
  }

  lemma EarlyDeployLabels(s: State)
    requires BandOf(s) == Deploy && StateIndex(s) <= 12
    ensures "DBIT-" + Decimal(StateIndex(s)) <= StateString(s)
  {
    DecimalTeens(StateIndex(s));
  }

  lemma LateDeployLabels(s: State)
    requires BandOf(s) == Deploy && StateIndex(s) > 12
    ensures "DBIT-" + Decimal(StateIndex(s)) <= StateString(s)
  {
    DecimalTeens(StateIndex(s));
  }

  lemma AbortLabels(s: State)
    requires BandOf(s) == Abort
    ensures BandTag(BandOf(s)) + "-" + Decimal(StateIndex(s)) <= StateString(s)
  {
    DecimalTeens(StateIndex(s));
  }

  /** Every state label begins with its band tag, a dash and its enum value in decimal. */
  lemma StateStringLabel(s: State)
    ensures BandTag(BandOf(s)) + "-" + Decimal(StateIndex(s)) <= StateString(s)
  {
    match BandOf(s)
    case Startup => StartupLabels(s);
    case Launch => LaunchLabels(s);
    case Deploy => DeployLabels(s);
    case Abort => AbortLabels(s);
  }

  /** No two states, and no two phases, share a label. */
  lemma LabelsDistinct(s: State, t: State, p: Phase, q: Phase)
    ensures StateString(s) == StateString(t) ==> s == t
    ensures PhaseString(p) == PhaseString(q) ==> p == q
  {
  }
}
