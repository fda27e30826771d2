// The sequencer as the source runs it (src/sequencer.cpp): the global SequencerControl
// record updated field by field, the readiness flags of the telemetry record, and the
// actuation calls made on the board. Each method is proved to leave exactly the state that
// the matching function of SequencerModel computes.

module MissionSequencer {
  import opened SequencerTypes
  import opened HardwareControl
  import opened SequencerModel

  /** A single actuation call changes the pins and payload power as Effect says. */
  lemma ApplyOne(pyro: PinMap, power: bool, a: Action)
    ensures ApplyPins(pyro, [a]) == Effect(pyro, a)
    ensures ApplyPower(power, [a]) == if a.PayloadPower? then a.on else power
  {
    assert [a][1..] == [];
  }

  lemma ApplyTwo(pyro: PinMap, power: bool, a: Action, b: Action)
    ensures ApplyPins(pyro, [a, b]) == Effect(Effect(pyro, a), b)
    ensures ApplyPower(power, [a, b]) ==
      ApplyPower(if a.PayloadPower? then a.on else power, [b])
  {
    assert [a, b][1..] == [b];
    ApplyOne(Effect(pyro, a), power, b);
  }

  class Sequencer {
    var currentState: State
    var currentPhase: Phase
    var stateStartTime: nat
    var lastStateUpdate: nat
    var sequenceActive: bool
    var emergencyAbort: bool
    var sequenceRetries: int
    var launchAltitude: real
    var maxAltitude: real
    var apogeeDetected: bool

    /** The telemetry record whose readiness flags the states read and write. */
    const data: TelemetryData
    /** The actuation outputs. */
    const board: Board

    /** The control record as a value. */
    function Snapshot(): Control
      reads this
    {
      Control(currentState, currentPhase, stateStartTime, lastStateUpdate, sequenceActive,
              emergencyAbort, sequenceRetries, launchAltitude, maxAltitude, apogeeDetected)
    }

    ghost predicate Valid()
      reads this, board
    {
      board.Valid()
    }

    /** After a call: the record, the flags and the board are what the tick t describes,
        the board having started from log0, pyro0 and power0. */
    ghost predicate Performed(t: Tick, log0: seq<Action>, pyro0: PinMap, power0: bool)
      reads this, data, board
    {
      && Snapshot() == t.ctl
      && data.Snapshot() == t.flags
      && board.log == log0 + t.actions
      && board.pyro == ApplyPins(pyro0, t.actions)
      && board.payloadPower == ApplyPower(power0, t.actions)
      && board.Valid()
    }

    /** initSequencer. */
    constructor InitSequencer(now: nat, data: TelemetryData, board: Board)
      ensures Snapshot() == Init(now)
      ensures this.data == data && this.board == board
    {
      currentState := SbitInitSeqImu;
      currentPhase := PhaseStartup;
      stateStartTime := now;
      lastStateUpdate := now;
      sequenceActive := true;
      emergencyAbort := false;
      sequenceRetries := 0;
      launchAltitude := 0.0;
      maxAltitude := 0.0;
      apogeeDetected := false;
      this.data := data;
      this.board := board;
    }

    /** transitionToState at time now. */
    method TransitionToState(newState: State, now: nat)
      modifies this
      ensures Snapshot() == Transition(old(Snapshot()), newState, now)
    {
      currentState := newState;
      stateStartTime := now;
      sequenceRetries := 0;
    }

    /** transitionToPhase. */
    method TransitionToPhase(newPhase: Phase)
      modifies this
      ensures Snapshot() == old(Snapshot()).(phase := newPhase)
    {
      currentPhase := newPhase;
    }

    /** Pulse one channel through the board and keep the pin model in step. */
    method Pulse(ch: Channel)
      requires Valid()
      modifies board
      ensures Valid()
      ensures board.log == old(board.log) + [Fire(ch)]
      ensures board.pyro == ApplyPins(old(board.pyro), [Fire(ch)])
      ensures board.payloadPower == ApplyPower(old(board.payloadPower), [Fire(ch)])
    {
      ApplyOne(board.pyro, board.payloadPower, Fire(ch));
      board.FireChannel(ch);
    }

    /** executeCurrentState for the startup band (states 0-5). */
    method ExecuteStartupState(inp: Input)
      requires Valid() && InStartupBand(currentState)
      modifies this, data, board
      ensures Performed(Execute(old(Snapshot()), old(data.Snapshot()), inp),
                        old(board.log), old(board.pyro), old(board.payloadPower))
    {
      if StateIndex(currentState) <= 2 {
        ExecuteSelfTestState(inp);
      } else {
        ExecutePayloadState(inp);
      }
    }

    /** Sensor, battery and telemetry checks (states 0-2). */
    method ExecuteSelfTestState(inp: Input)
      requires Valid() && InStartupBand(currentState) && StateIndex(currentState) <= 2
      modifies this, data, board
      ensures Performed(Execute(old(Snapshot()), old(data.Snapshot()), inp),
                        old(board.log), old(board.pyro), old(board.payloadPower))
    {
      match currentState {
        case SbitInitSeqImu =>
          var ok := CheckSensorStatus(data, inp.temperature);
          if ok {
            TransitionToState(SbitStartupBattery, inp.now);
          }
        case SbitStartupBattery =>
          CheckBatteryStatus(data, inp.batteryReading);
          if data.batteryOK {
            TransitionToState(SbitStartupTelem, inp.now);
          }
        case SbitStartupTelem =>
          if data.sensorsOK {
            TransitionToState(SbitStartupPayload, inp.now);
          }
      }
    }

    /** Payload power-up and the final readiness checks (states 3-5). */
    method ExecutePayloadState(inp: Input)
      requires Valid() && InStartupBand(currentState) && StateIndex(currentState) > 2
      modifies this, data, board
      ensures Performed(Execute(old(Snapshot()), old(data.Snapshot()), inp),
                        old(board.log), old(board.pyro), old(board.payloadPower))
    {
      match currentState {
        case SbitStartupPayload =>
          ApplyOne(board.pyro, board.payloadPower, PayloadPower(true));
          board.EnablePayloadPower();
          data.payloadOK := true;
          if data.payloadOK {
            TransitionToState(SbitPayloadTelem, inp.now);
          }
        case SbitPayloadTelem =>
          if data.payloadOK && data.sensorsOK {
            TransitionToState(SbitRbsafeCheck, inp.now);
          }
        case SbitRbsafeCheck =>
          if data.batteryOK && data.sensorsOK && data.payloadOK {
            TransitionToState(LbitIgnitBooster, inp.now);
            TransitionToPhase(PhasePreflight);
          }
      }
    }

    /** executeCurrentState for the launch band (states 6-9). */
    method ExecuteLaunchState(inp: Input)
      requires Valid() && BandOf(currentState) == Launch
      modifies this, board
      ensures Performed(Execute(old(Snapshot()), old(data.Snapshot()), inp),
                        old(board.log), old(board.pyro), old(board.payloadPower))
    {
      if StateIndex(currentState) <= 7 {
        ExecuteIgnitionState(inp);
      } else {
        ExecuteAscentState(inp);
      }
    }

    /** Booster ignition and the climb off the pad (states 6-7). */
    method ExecuteIgnitionState(inp: Input)
      requires Valid() && BandOf(currentState) == Launch && StateIndex(currentState) <= 7
      modifies this, board
      ensures Performed(Execute(old(Snapshot()), old(data.Snapshot()), inp),
                        old(board.log), old(board.pyro), old(board.payloadPower))
    {
      match currentState {
        case LbitIgnitBooster =>
          if inp.accelMagnitude > LaunchAccelThresholdG {
            Pulse(Booster);
            launchAltitude := inp.altitudeAGL;
            TransitionToState(LbitLaunch, inp.now + PulseMs);
            TransitionToPhase(PhaseLaunch);
          }
        case LbitLaunch =>
          if inp.altitudeAGL > launchAltitude + LaunchClearanceM {
            TransitionToState(LbitPostLaunchReport, inp.now);
            TransitionToPhase(PhaseFlight);
          }
      }
    }

    /** Apogee tracking and the apogee report (states 8-9). */
    method ExecuteAscentState(inp: Input)
      requires Valid() && BandOf(currentState) == Launch && StateIndex(currentState) > 7
      modifies this, board
      ensures Performed(Execute(old(Snapshot()), old(data.Snapshot()), inp),
                        old(board.log), old(board.pyro), old(board.payloadPower))
    {
      match currentState {
        case LbitPostLaunchReport =>
          if inp.altitude > maxAltitude {
            maxAltitude := inp.altitude;
          }
          if inp.verticalVelocity < ApogeeVelocityThreshold {
            apogeeDetected := true;
            TransitionToState(LbitApogeeReport, inp.now);
          }
        case LbitApogeeReport =>
          TransitionToState(DbitPopNoseFairing, inp.now);
          TransitionToPhase(PhaseDeploy);
      }
    }

    /** executeCurrentState for the three pyro states of the deploy band (states 10-12). */
    method ExecuteSeparationState(inp: Input)
      requires Valid() && 10 <= StateIndex(currentState) <= 12
      modifies this, board
      ensures Performed(Execute(old(Snapshot()), old(data.Snapshot()), inp),
                        old(board.log), old(board.pyro), old(board.payloadPower))
    {
      match currentState {
        case DbitPopNoseFairing =>
          Pulse(NoseFairing);
          TransitionToState(DbitStageSeparation, inp.now + PulseMs + FairingClearMs);
        case DbitStageSeparation =>
          Pulse(StageSeparation);
          TransitionToState(DbitBoomPayload, inp.now + PulseMs + SeparationClearMs);
        case DbitBoomPayload =>
          Pulse(PayloadDeploy);
          TransitionToState(DbitFinalMode, inp.now + PulseMs);
      }
    }

    /** executeCurrentState for the recovery end of the deploy band (states 13-15). */
    method ExecuteRecoveryState(inp: Input)
      requires Valid() && 13 <= StateIndex(currentState) <= 15
      modifies this, board
      ensures Performed(Execute(old(Snapshot()), old(data.Snapshot()), inp),
                        old(board.log), old(board.pyro), old(board.payloadPower))
    {
      if StateIndex(currentState) <= 14 {
        ExecuteParachuteState(inp);
      } else {
        ExecuteLandingState(inp);
      }
    }

    /** The wait before the parachute and its deployment (states 13-14). */
    method ExecuteParachuteState(inp: Input)
      requires Valid() && 13 <= StateIndex(currentState) <= 14
      modifies this, board
      ensures Performed(Execute(old(Snapshot()), old(data.Snapshot()), inp),
                        old(board.log), old(board.pyro), old(board.payloadPower))
    {
      match currentState {
        case DbitFinalMode =>
          if inp.now - stateStartTime > FinalModeWaitMs {
            TransitionToState(DbitDeployParachute, inp.now);
          }
        case DbitDeployParachute =>
          Pulse(Parachute);
          TransitionToState(DbitSendAllTelem, inp.now + PulseMs);
          TransitionToPhase(PhaseRecovery);
      }
    }

    /** The wait for landing (state 15). */
    method ExecuteLandingState(inp: Input)
      requires Valid() && StateIndex(currentState) == 15
      modifies this, board
      ensures Performed(Execute(old(Snapshot()), old(data.Snapshot()), inp),
                        old(board.log), old(board.pyro), old(board.payloadPower))
    {
      match currentState {
        case DbitSendAllTelem =>
          if inp.verticalVelocity < LandingVelocityThreshold && inp.accelMagnitude < LandingAccelThresholdG {
            TransitionToState(AbitKillAllProcesses, inp.now + ShutdownLogMs);
          }
      }
    }

    /** executeCurrentState: dispatch on the current state; the shutdown state safes every
        channel and deactivates the sequencer. */
    method ExecuteCurrentState(inp: Input)
      requires Valid()
      modifies this, data, board
      ensures Performed(Execute(old(Snapshot()), old(data.Snapshot()), inp),
                        old(board.log), old(board.pyro), old(board.payloadPower))
    {
      BandRanges(currentState);
      if InStartupBand(currentState) {
        ExecuteStartupState(inp);
      } else if BandOf(currentState) == Launch {
        ExecuteLaunchState(inp);
      } else if StateIndex(currentState) <= 12 {
        ExecuteSeparationState(inp);
      } else if StateIndex(currentState) <= 15 {
        ExecuteRecoveryState(inp);
      } else {
        ApplyOne(board.pyro, board.payloadPower, SafeAll);
        board.SafeAllPyrotechnics();
        sequenceActive := false;
      }
    }

    /** executeAbortSequence at time now. */
    method ExecuteAbortSequence(now: nat)
      requires Valid()
      modifies this, board
      ensures Performed(AbortSequence(old(Snapshot()), old(data.Snapshot()), now),
                        old(board.log), old(board.pyro), old(board.payloadPower))
    {
      ApplyTwo(board.pyro, board.payloadPower, SafeAll, Fire(Parachute));
      ApplyOne(board.pyro, board.payloadPower, SafeAll);
      board.SafeAllPyrotechnics();
      var t := now;
      if PhaseIndex(currentPhase) >= PhaseIndex(PhaseLaunch) {
        board.FireChannel(Parachute);
        t := now + PulseMs;
      }
      TransitionToState(AbitKillAllProcesses, t);
    }

    /** updateSequencer: one tick. */
    method UpdateSequencer(inp: Input)
      requires Valid()
      modifies this, data, board
      ensures Performed(Update(old(Snapshot()), old(data.Snapshot()), inp),
                        old(board.log), old(board.pyro), old(board.payloadPower))
    {
      if !sequenceActive && !emergencyAbort {
        return;
      }
      if emergencyAbort {
        ExecuteAbortSequence(inp.now);
        return;
      }
      if inp.now - stateStartTime > StateTimeoutMs {
        if InStartupBand(currentState) {
          sequenceRetries := sequenceRetries + 1;
          if sequenceRetries > MaxStartupRetries {
            emergencyAbort := true;
            return;
          }
        }
      }
      ExecuteCurrentState(inp);
    }

    /** checkEmergencyConditions, given the level of the abort pin. */
    method CheckEmergencyConditions(abortPinLow: bool)
      requires Valid()
      modifies this, board
      ensures Performed(CheckEmergency(old(Snapshot()), old(data.Snapshot()), abortPinLow),
                        old(board.log), old(board.pyro), old(board.payloadPower))
    {
      if abortPinLow {
        emergencyAbort := true;
        return;
      }
      if !data.batteryOK && PhaseIndex(currentPhase) >= PhaseIndex(PhaseLaunch) {
        if currentPhase == PhaseFlight {
          Pulse(Parachute);
        }
      }
    }
  }
}
