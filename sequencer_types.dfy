// The enumerations and records shared by the mission sequencer
// (include/sequencer.h and its identical copy rtc_setter/include/sequencer.h).

module SequencerTypes {

  /** The 17 sequencer states, in declaration order (values 0..16). */
  datatype State =
    | SbitInitSeqImu          // 0
    | SbitStartupBattery      // 1
    | SbitStartupTelem        // 2
    | SbitStartupPayload      // 3
    | SbitPayloadTelem        // 4
    | SbitRbsafeCheck         // 5
    | LbitIgnitBooster        // 6
    | LbitLaunch              // 7
    | LbitPostLaunchReport    // 8
    | LbitApogeeReport        // 9
    | DbitPopNoseFairing      // 10
    | DbitStageSeparation     // 11
    | DbitBoomPayload         // 12
    | DbitFinalMode           // 13
    | DbitDeployParachute     // 14
    | DbitSendAllTelem        // 15
    | AbitKillAllProcesses    // 16

  /** The numeric value the C enum gives each state. */
  function StateIndex(s: State): (k: nat)
    ensures k <= 16
  {
    match s
    case SbitInitSeqImu => 0
    case SbitStartupBattery => 1
    case SbitStartupTelem => 2
    case SbitStartupPayload => 3
    case SbitPayloadTelem => 4
    case SbitRbsafeCheck => 5
    case LbitIgnitBooster => 6
    case LbitLaunch => 7
    case LbitPostLaunchReport => 8
    case LbitApogeeReport => 9
    case DbitPopNoseFairing => 10
    case DbitStageSeparation => 11
    case DbitBoomPayload => 12
    case DbitFinalMode => 13
    case DbitDeployParachute => 14
    case DbitSendAllTelem => 15
    case AbitKillAllProcesses => 16
  }

  /** The state whose numeric value is k (the cast `(SequencerState)k`). */
  function StateOf(k: nat): (s: State)
    requires k <= 16
    ensures StateIndex(s) == k
  {
    if k == 0 then SbitInitSeqImu
    else if k == 1 then SbitStartupBattery
    else if k == 2 then SbitStartupTelem
    else if k == 3 then SbitStartupPayload
    else if k == 4 then SbitPayloadTelem
    else if k == 5 then SbitRbsafeCheck
    else if k == 6 then LbitIgnitBooster
    else if k == 7 then LbitLaunch
    else if k == 8 then LbitPostLaunchReport
    else if k == 9 then LbitApogeeReport
    else if k == 10 then DbitPopNoseFairing
    else if k == 11 then DbitStageSeparation
    else if k == 12 then DbitBoomPayload
    else if k == 13 then DbitFinalMode
    else if k == 14 then DbitDeployParachute
    else if k == 15 then DbitSendAllTelem
    else AbitKillAllProcesses
  }

  /** The enum values are exactly 0..16 and no two states share one. */
  lemma StateIndexBijective(s: State, t: State)
    ensures StateOf(StateIndex(s)) == s
    ensures StateIndex(s) == StateIndex(t) ==> s == t
  {
  }

  /** The state following s in declaration order (used by every normal transition). */
  function Next(s: State): (t: State)
    requires s != AbitKillAllProcesses
    ensures StateIndex(t) == StateIndex(s) + 1
  {
    StateOf(StateIndex(s) + 1)
  }

  /** The four built-in-test bands of the state list. */
  datatype Band = Startup | Launch | Deploy | Abort

  function BandOf(s: State): Band {
    match s
    case SbitInitSeqImu | SbitStartupBattery | SbitStartupTelem
       | SbitStartupPayload | SbitPayloadTelem | SbitRbsafeCheck => Startup
    case LbitIgnitBooster | LbitLaunch | LbitPostLaunchReport | LbitApogeeReport => Launch
    case DbitPopNoseFairing | DbitStageSeparation | DbitBoomPayload
       | DbitFinalMode | DbitDeployParachute | DbitSendAllTelem => Deploy
    case AbitKillAllProcesses => Abort
  }

  /** The bands are the index ranges 0-5, 6-9, 10-15 and 16; in particular
      `state <= SBIT_RBSAFE_CHECK` selects exactly the startup band. */
  lemma BandRanges(s: State)
    ensures BandOf(s) == Startup <==> StateIndex(s) <= StateIndex(SbitRbsafeCheck)
    ensures BandOf(s) == Launch <==> 6 <= StateIndex(s) <= 9
    ensures BandOf(s) == Deploy <==> 10 <= StateIndex(s) <= 15
    ensures BandOf(s) == Abort <==> StateIndex(s) == 16
  {
  }

  /** Mission phases, in declaration order. */
  datatype Phase =
    | PhaseStartup | PhasePreflight | PhaseLaunch | PhaseFlight
    | PhaseDeploy | PhaseRecovery | PhaseAbort

  function PhaseIndex(p: Phase): (k: nat)
    ensures k <= 6
  {
    match p
    case PhaseStartup => 0
    case PhasePreflight => 1
    case PhaseLaunch => 2
    case PhaseFlight => 3
    case PhaseDeploy => 4
    case PhaseRecovery => 5
    case PhaseAbort => 6
  }

  /** `phase >= PHASE_LAUNCH` covers exactly LAUNCH, FLIGHT, DEPLOY, RECOVERY and ABORT. */
  lemma AtLeastLaunch(p: Phase)
    ensures PhaseIndex(p) >= PhaseIndex(PhaseLaunch) <==>
            p in {PhaseLaunch, PhaseFlight, PhaseDeploy, PhaseRecovery, PhaseAbort}
    ensures PhaseIndex(PhaseStartup) < PhaseIndex(PhasePreflight) < PhaseIndex(PhaseLaunch)
            < PhaseIndex(PhaseFlight) < PhaseIndex(PhaseDeploy) < PhaseIndex(PhaseRecovery)
            < PhaseIndex(PhaseAbort)
  {
  }

  /** The readiness flags of the telemetry record (batteryOK, sensorsOK, payloadOK). */
  datatype Flags = Flags(batteryOK: bool, sensorsOK: bool, payloadOK: bool)

  /** The part of the telemetry record that the sequencer and the hardware checks write:
      the three readiness flags. The flight signals are passed to each tick instead. */
  class TelemetryData {
    var batteryOK: bool
    var sensorsOK: bool
    var payloadOK: bool

    function Snapshot(): (f: Flags)
      reads this
      ensures f.batteryOK == batteryOK && f.sensorsOK == sensorsOK && f.payloadOK == payloadOK
    {
      Flags(batteryOK, sensorsOK, payloadOK)
    }

    /** A zero-initialised global record: all flags false. */
    constructor ()
      ensures Snapshot() == Flags(false, false, false)
    {
      batteryOK, sensorsOK, payloadOK := false, false, false;
    }
  }
}
