# USLI Summer Subscale Payload — a verified model

This project models the flight software of a subscale rocket payload. The original is written
in Arduino C++ for an ATmega328P (Nano) board. The model covers:

- **Mission sequencer**: a 17-state built-in-test sequence (startup, launch, deploy and abort
  bands) grouped into seven mission phases. It fires five pyrotechnic channels and has an
  emergency-abort path. The model has a pure layer (`SequencerTypes`, `SequencerModel`) and
  an imperative layer (`MissionSequencer`, `HardwareControl`).
- **Flight detection**: launch, apogee and landing predicates, the vertical-velocity
  estimator, and the flight-detection test bench with its simulated flight
  (`FlightDetection`, `FlightSimulation`).
- **RBSAFE gate**: the pre-launch safety checker (`Rbsafe`).
- **PCF8523 real-time clock driver**: BCD conversion, reading and validating the time, and
  the two ways of setting it (`Pcf8523`).
- **Barometer bench sketch**: the median altitude filter and min/max statistics
  (`BaroFilter`).
- **Stand-alone telemetry app**: a three-phase state machine (`FlightMonitor`).
- **Payload logger main loop**: flight events, buzzer, debounced button, serial commands and
  timestamps (`PayloadLogger`, with `DecimalText` for `%0Nd` formatting).
- **SD endurance sketch**: logging sessions, counters and report texts (`SdEndurance`).

Code that changes state step by step is modelled as classes with `modifies` clauses. Each
such method is proved equal to a pure function of the old state, and the properties are
lemmas about those functions. Conventions:

- Time is a natural number that never decreases.
- Floats are reals.
- Hardware reads, library results (SD card, I2C status) and sensor values are parameters.

## Model

| member | source | states |
|---|---|---|
| `SequencerTypes.StateIndex` | include/sequencer.h:7-32 | every state's enum value lies in 0..16 |
| `SequencerTypes.StateOf` | include/sequencer.h:7-32 | the cast from an integer 0..16 yields the state with exactly that enum value |
| `SequencerTypes.StateIndexBijective` | rtc_setter/include/sequencer.h:7-32 | enum values and states are in one-to-one correspondence (the header copy is identical) |
| `SequencerTypes.Next` | include/sequencer.h:7-32 | the successor of a non-final state has enum value one higher |
| `SequencerTypes.BandRanges` | src/sequencer.cpp:44 | `state <= SBIT_RBSAFE_CHECK` selects exactly the startup band; the launch, deploy and abort bands are 6-9, 10-15 and 16 |
| `SequencerTypes.PhaseIndex` | include/sequencer.h:35-43 | phase enum values lie in 0..6 |
| `SequencerTypes.AtLeastLaunch` | rtc_setter/include/sequencer.h:35-43 | phases are strictly ordered, and `phase >= PHASE_LAUNCH` holds exactly for LAUNCH, FLIGHT, DEPLOY, RECOVERY and ABORT |
| `SequencerTypes.TelemetryData.constructor` | include/sequencer.h:60-78 | a zero-initialised global starts with all readiness flags false |
| `HardwareControl.ChannelsComplete` | src/hardware_control.cpp:66-73 | the channel set that safe-all drives holds all five pyro channels |
| `HardwareControl.PinsDistinct` | src/hardware_control.cpp:31-64 | no two pyro channels share a pin, and none uses the payload power pin |
| `HardwareControl.AllLow` | src/hardware_control.cpp:66-73 | safe-all leaves every one of the five channels present and LOW |
| `HardwareControl.ActionsKeepSafe` | src/hardware_control.cpp:31-83 | starting from all pins LOW, any sequence of fire, safe-all and power calls leaves every pyro pin LOW, because a pulse ends LOW within its own call |
| `HardwareControl.SafeAllIdempotent` | src/hardware_control.cpp:66-73 | safing twice gives the same pins as safing once |
| `HardwareControl.Board.InitHardware` | src/hardware_control.cpp:7-29 | all pyro pins end LOW, payload power ends on, and the call log is a safe-all followed by power-on |
| `HardwareControl.Board.SafeAllPyrotechnics` | src/hardware_control.cpp:66-73 | all five pins end LOW and payload power is untouched |
| `HardwareControl.Board.FireChannel` | src/hardware_control.cpp:31-64 | only the channel's own pin goes HIGH during the pulse and ends LOW; the other pins are unchanged |
| `HardwareControl.Board.EnablePayloadPower` | src/hardware_control.cpp:75-78 | power goes on and the pyro pins are unchanged |
| `HardwareControl.Board.DisablePayloadPower` | src/hardware_control.cpp:80-83 | power goes off and the pyro pins are unchanged |
| `HardwareControl.BatteryThreshold` | src/hardware_control.cpp:85-95 | the more-than-3.3 V verdict holds exactly for raw ADC readings of 676 and up |
| `HardwareControl.BatteryVoltage` | src/hardware_control.cpp:86-87 | defines the voltage of a raw 10-bit reading against a 5 V reference |
| `HardwareControl.BatteryOk` | src/hardware_control.cpp:88 | defines the battery verdict: more than 3.3 V |
| `HardwareControl.CheckBatteryStatus` | src/hardware_control.cpp:85-95 | only batteryOK changes, and it becomes the 3.3 V verdict |
| `HardwareControl.CheckSensorStatus` | src/hardware_control.cpp:97-115 | sensors are OK exactly when the temperature is not the -999 failure value; the other readiness flags are unchanged |
| `SequencerModel.Init` | src/sequencer.cpp:13-26 | initSequencer starts at SBIT_INIT_SEQ_IMU in PHASE_STARTUP, active, not aborting, with zero retries, zero altitudes and no apogee |
| `SequencerModel.Transition` | src/sequencer.cpp:217-226 | the new state and start time are set and retries cleared; phase, abort flag, altitudes and apogee flag are kept |
| `SequencerModel.Execute` | src/sequencer.cpp:59-214 | defines executeCurrentState: each state's action, its exit guard and the next state and phase, with the actuation calls made |
| `SequencerModel.AbortSequence` | src/sequencer.cpp:255-271 | defines executeAbortSequence: safe every channel, fire the parachute from PHASE_LAUNCH on, and enter the kill state keeping the phase |
| `SequencerModel.Update` | src/sequencer.cpp:28-57 | defines updateSequencer: a paused sequencer does nothing, an aborting one runs the abort sequence, a timed-out startup state counts a retry and aborts past three, and then the current state executes |
| `SequencerModel.CheckEmergency` | src/sequencer.cpp:237-253 | defines checkEmergencyConditions: a LOW abort pin sets the abort flag; a failed battery from PHASE_LAUNCH on fires the parachute while in FLIGHT |
| `SequencerModel.ExecuteAdvancesByOne` | src/sequencer.cpp:59-214 | every move executeCurrentState makes goes from state k to k+1 and clears the retries; the abort flag is never touched |
| `SequencerModel.DeployStatesActuateOnce` | src/sequencer.cpp:157-191 | states 10, 11, 12 and 14 pulse exactly their own channel once and advance in the same tick, with the next start time after pulse and settle |
| `SequencerModel.PausedIsNoop` | src/sequencer.cpp:29-31 | an inactive sequencer that is not aborting ignores the tick entirely |
| `SequencerModel.KillStateShutsDown` | src/sequencer.cpp:204-213 | ABIT_KILL_ALL_PROCESSES safes every channel and deactivates the sequencer |
| `SequencerModel.AbortTick` | src/sequencer.cpp:33-36 | under emergency abort the tick ends in the kill state, keeps the flag and phase, evaluates no exit guard, and fires the parachute whenever the phase is LAUNCH or later |
| `SequencerModel.LaterBandsIgnoreTimeout` | src/sequencer.cpp:39-54 | states after the startup band never take the timeout path |
| `SequencerModel.StartupTimeoutTick` | src/sequencer.cpp:39-54 | a timed-out startup tick counts one retry without resetting the start time; past three retries it sets the abort flag and dispatches nothing |
| `SequencerModel.StalledStartupTick` | src/sequencer.cpp:39-112 | a timed-out startup state whose guard fails stays put, keeps its start time and counts a retry |
| `SequencerModel.ExitGuards` | src/sequencer.cpp:104-183 | the RBSAFE state leaves exactly when all three readiness flags hold; booster ignition leaves exactly above 2 g, firing the booster and recording the launch altitude; final mode leaves exactly after more than 5000 ms in the state |
| `SequencerModel.PostLaunchTracksApogee` | src/sequencer.cpp:134-146 | the maximum altitude becomes max(old, altitude), and apogee is flagged exactly when the state leaves on a descent faster than 2 m/s |
| `SequencerModel.LowBatteryInFlight` | src/sequencer.cpp:246-252 | a low battery after launch fires the parachute on every check while in FLIGHT, and never sets the abort flag or changes the record |
| `SequencerModel.UpdateMonotone` | src/sequencer.cpp:28-57 | no updateSequencer tick moves the state backwards |
| `SequencerModel.StepMonotone` | src/sequencer.cpp:237-253 | neither a tick nor an emergency check moves the state backwards |
| `SequencerModel.RunMonotone` | src/sequencer.cpp:28-271 | across any sequence of calls the state index never decreases |
| `SequencerModel.StepKeepsAbort` | src/sequencer.cpp:237-271 | no call clears the abort flag |
| `SequencerModel.RunKeepsAbort` | src/sequencer.cpp:19 | once set, the abort flag and the active flag stay set in every run, since only initSequencer clears them |
| `SequencerModel.AbortRefiresParachute` | src/sequencer.cpp:255-271 | under abort after launch, n ticks pulse the parachute n times |
| `SequencerModel.LowBatteryRefires` | src/sequencer.cpp:246-252 | n emergency checks with a failed battery in FLIGHT fire the parachute n times and change nothing else |
| `SequencerModel.StalledStartupTicks` | src/sequencer.cpp:39-54 | a startup state whose guard keeps failing survives three timed-out ticks with no retries at the start |
| `SequencerModel.FourthTimeoutTickAborts` | src/sequencer.cpp:47-50 | the fourth timed-out tick in a stalled startup state sets the abort flag; the first three do not |
| `SequencerModel.ExecuteFiresFromItsState` | src/sequencer.cpp:114-191 | executeCurrentState makes at most one actuation call, and pulses a single-use channel only from the state that owns it, moving on to the next state |
| `SequencerModel.StepFiresFromItsState` | src/sequencer.cpp:28-57 | a call pulses a single-use channel at most once, and only while leaving its firing state |
| `SequencerModel.SingleUseChannelsFireAtMostOnce` | src/hardware_control.cpp:31-57 | booster, nose fairing, stage separation and payload fire at most once in any run, and never after the state has passed their firing state |
| `SequencerModel.InitInv` | src/sequencer.cpp:13-26 | the initial record satisfies the consistency invariant (retries 0..4, 4 only under abort, phase matching the state) |
| `SequencerModel.StepPreservesInv` | src/sequencer.cpp:217-235 | every call preserves the invariant |
| `SequencerModel.UpdatePreservesInv` | src/sequencer.cpp:28-57 | updateSequencer preserves the invariant, including the retry path that counts a timeout before executing the state |
| `SequencerModel.ExecutePreservesInv` | src/sequencer.cpp:59-214 | executeCurrentState preserves the invariant from every state |
| `SequencerModel.StartupExecutePreservesInv` | src/sequencer.cpp:61-112 | the startup states keep the invariant; the last one enters PREFLIGHT with the first launch state |
| `SequencerModel.FlightExecutePreservesInv` | src/sequencer.cpp:114-213 | the launch, deploy and shutdown states keep the invariant |
| `SequencerModel.LaunchExecutePreservesInv` | src/sequencer.cpp:114-155 | each launch-band state moves to the phase its next state belongs to |
| `SequencerModel.DeployExecutePreservesInv` | src/sequencer.cpp:157-213 | each deploy-band state keeps the phase in step with the state, switching to RECOVERY with the parachute |
| `SequencerModel.RunPreservesInv` | src/sequencer.cpp:28-271 | every run preserves the invariant |
| `SequencerModel.EmergencyParachuteOnlyInFlight` | src/sequencer.cpp:246-252 | under the invariant, a low battery can fire the parachute only from the post-launch or apogee report states |
| `SequencerModel.StartupLabels` | src/sequencer.cpp:439-444 | the startup-band labels begin with "SBIT-" and their enum value |
| `SequencerModel.EarlyStartupLabels` | src/sequencer.cpp:439-441 | the labels of states 0-2 begin with "SBIT-" and their enum value |
| `SequencerModel.LateStartupLabels` | src/sequencer.cpp:442-444 | the labels of states 3-5 begin with "SBIT-" and their enum value |
| `SequencerModel.LaunchLabels` | src/sequencer.cpp:445-448 | the launch-band labels begin with "LBIT-" and their enum value |
| `SequencerModel.EarlyLaunchLabels` | src/sequencer.cpp:445-446 | the labels of states 6-7 begin with "LBIT-" and their enum value |
| `SequencerModel.LateLaunchLabels` | src/sequencer.cpp:447-448 | the labels of states 8-9 begin with "LBIT-" and their enum value |
| `SequencerModel.DeployLabels` | src/sequencer.cpp:449-454 | the deploy-band labels begin with "DBIT-" and their enum value |
| `SequencerModel.EarlyDeployLabels` | src/sequencer.cpp:449-451 | the labels of states 10-12 begin with "DBIT-" and their two-digit enum value |
| `SequencerModel.LateDeployLabels` | src/sequencer.cpp:452-454 | the labels of states 13-15 begin with "DBIT-" and their two-digit enum value |
| `SequencerModel.AbortLabels` | src/sequencer.cpp:455 | the abort label begins with "ABIT-16" |
| `SequencerModel.StateString` | src/sequencer.cpp:437-458 | defines getStateString: the label of each of the seventeen states |
| `SequencerModel.PhaseString` | src/sequencer.cpp:460-471 | defines getPhaseString: the label of each of the seven phases |
| `SequencerModel.StateStringLabel` | src/sequencer.cpp:437-458 | every state label is its band tag, a dash and its enum value in decimal |
| `SequencerModel.LabelsDistinct` | src/sequencer.cpp:460-471 | no two states and no two phases share a label |
| `MissionSequencer.Sequencer.InitSequencer` | src/sequencer.cpp:13-26 | the record becomes the initial record and the hardware is untouched |
| `MissionSequencer.Sequencer.TransitionToState` | src/sequencer.cpp:217-226 | the record becomes the transition of the old one |
| `MissionSequencer.Sequencer.TransitionToPhase` | src/sequencer.cpp:228-235 | only the phase changes |
| `MissionSequencer.Sequencer.Pulse` | src/hardware_control.cpp:31-64 | one pulse is logged and the pin model follows it |
| `MissionSequencer.Sequencer.ExecuteStartupState` | src/sequencer.cpp:61-112 | states 0-5 end as the pure execute function says, with matching hardware calls |
| `MissionSequencer.Sequencer.ExecuteSelfTestState` | src/sequencer.cpp:61-84 | the sensor, battery and telemetry checks end as the pure execute function says |
| `MissionSequencer.Sequencer.ExecutePayloadState` | src/sequencer.cpp:86-112 | payload power-up and the readiness check end as the pure execute function says, with the payload power call |
| `MissionSequencer.Sequencer.ExecuteLaunchState` | src/sequencer.cpp:114-155 | states 6-9 end as the pure execute function says, with matching hardware calls |
| `MissionSequencer.Sequencer.ExecuteIgnitionState` | src/sequencer.cpp:114-132 | ignition and pad clearance end as the pure execute function says, with the booster pulse |
| `MissionSequencer.Sequencer.ExecuteAscentState` | src/sequencer.cpp:134-155 | apogee tracking and the apogee report end as the pure execute function says |
| `MissionSequencer.Sequencer.ExecuteSeparationState` | src/sequencer.cpp:157-175 | states 10-12 end as the pure execute function says, with matching hardware calls |
| `MissionSequencer.Sequencer.ExecuteRecoveryState` | src/sequencer.cpp:177-202 | states 13-15 end as the pure execute function says, with matching hardware calls |
| `MissionSequencer.Sequencer.ExecuteParachuteState` | src/sequencer.cpp:177-190 | the wait before the parachute and its deployment end as the pure execute function says, with the parachute pulse |
| `MissionSequencer.Sequencer.ExecuteLandingState` | src/sequencer.cpp:192-202 | the landing wait ends as the pure execute function says |
| `MissionSequencer.Sequencer.ExecuteCurrentState` | src/sequencer.cpp:59-214 | the dispatch matches the pure execute function, record and actuation log alike |
| `MissionSequencer.Sequencer.ExecuteAbortSequence` | src/sequencer.cpp:255-271 | the abort sequence matches the pure abort function |
| `MissionSequencer.Sequencer.UpdateSequencer` | src/sequencer.cpp:28-57 | one tick matches the pure update function, record and actuation log alike |
| `MissionSequencer.Sequencer.CheckEmergencyConditions` | src/sequencer.cpp:237-253 | the emergency check matches the pure function, given the abort pin level |
| `FlightDetection.DetectionBoundaries` | src/flight_detection.cpp:13-24 | exactly 2 g is no launch but any more is; a fast fall at low acceleration satisfies the signed landing test |
| `FlightDetection.DetectLaunch` | src/flight_detection.cpp:13-15 | defines detectLaunch: an acceleration magnitude strictly above 2 g |
| `FlightDetection.DetectApogee` | src/flight_detection.cpp:17-19 | defines detectApogee: a vertical velocity strictly below -2 m/s |
| `FlightDetection.DetectLanding` | src/flight_detection.cpp:21-24 | defines detectLanding: a signed vertical velocity below 5 m/s and a magnitude below 1.5 g |
| `FlightDetection.MagnitudeThreshold` | src/flight_detection.cpp:44-50 | the acceleration norm exceeds a threshold exactly when the sum of squares exceeds its square |
| `FlightDetection.VelocityEstimator.constructor` | src/flight_detection.cpp:26-28 | both statics start at zero |
| `FlightDetection.VelocityEstimator.CalculateVerticalVelocity` | src/flight_detection.cpp:26-42 | with a second or more elapsed, the result is the altitude change per second, no larger than the change and of the same sign, and the statics advance; otherwise the previous velocity is returned and nothing changes |
| `FlightDetection.FlightSignals.constructor` | include/sequencer.h:60-78 | the zero-initialised telemetry record starts with zero altitude, acceleration, velocity and magnitude |
| `FlightDetection.FlightSignals.UpdateFlightDetection` | src/flight_detection.cpp:5-11 | the acceleration magnitude becomes the norm; with a second or more since the remembered sample the velocity is the altitude change per second since it, with matching sign, and the sample moves to now; otherwise the velocity and the sample stay; no other field is written |
| `FlightSimulation.FlightStateIndex` | examples/flight_detection/flight_detection_test.cpp:39-48 | the simulated flight states are numbered 0..7 |
| `FlightSimulation.SimDetectLaunch` | examples/flight_detection/flight_detection_test.cpp:312-314 | defines the bench's detectLaunch: more than 2 g |
| `FlightSimulation.SimDetectApogee` | examples/flight_detection/flight_detection_test.cpp:316-319 | defines the bench's detectApogee: above 30 m and descending faster than 2 m/s |
| `FlightSimulation.SimDetectLanding` | examples/flight_detection/flight_detection_test.cpp:321-325 | defines the bench's detectLanding: below 5 m, a speed under 5 m/s either way, and under 1.5 g |
| `FlightSimulation.StricterThanFlightComputer` | examples/flight_detection/flight_detection_test.cpp:312-325 | every apogee or landing the test bench reports, the flight computer's predicates report too, but not conversely |
| `FlightSimulation.ResetRecord` | examples/flight_detection/flight_detection_test.cpp:158-184 | reset puts the vehicle on the pad at rest, 1 g, time zero, preflight, with no detections |
| `FlightSimulation.Dynamics` | examples/flight_detection/flight_detection_test.cpp:186-254 | the state logic never moves the flight state backwards and leaves the time and flags alone |
| `FlightSimulation.Advance` | examples/flight_detection/flight_detection_test.cpp:255-262 | a step advances time by 0.1 s, never ends below ground, never moves the state backwards and leaves the flags alone |
| `FlightSimulation.Integrate` | examples/flight_detection/flight_detection_test.cpp:253-261 | integration never leaves the vehicle below ground, integrates the velocity unless it clamps, and changes only velocity and altitude |
| `FlightSimulation.Detect` | examples/flight_detection/flight_detection_test.cpp:264-310 | defines the bench's updateFlightDetection: latch launch, then apogee once launched, then landing once apogee is latched, each on the current record |
| `FlightSimulation.DetectLatches` | examples/flight_detection/flight_detection_test.cpp:264-310 | the latch keeps landing ⇒ apogee ⇒ launch, never lowers a flag and touches nothing else |
| `FlightSimulation.LandingLatchedOnLaterCall` | examples/flight_detection/flight_detection_test.cpp:264-310 | landing is never latched in the same call that latches launch or apogee |
| `FlightSimulation.ResetOrdered` | examples/flight_detection/flight_detection_test.cpp:158-184 | the reset record has ordered flags |
| `FlightSimulation.ProfileFor` | examples/flight_detection/flight_detection_test.cpp:100-130 | commands '1', '2' and '3' give the profiles (300 m, 2 s, 8 g), (1000 m, 3 s, 12 g) and (100 m, 0.5 s, 3 g) |
| `FlightSimulation.ProfilesLaunch` | examples/flight_detection/flight_detection_test.cpp:194-205 | every profile's thrust acceleration counts as a launch |
| `FlightSimulation.Simulation.constructor` | examples/flight_detection/flight_detection_test.cpp:68-81 | setup leaves the reset record with the normal profile |
| `FlightSimulation.Simulation.ResetSimulation` | examples/flight_detection/flight_detection_test.cpp:158-184 | the record becomes the reset record and the profile is kept |
| `FlightSimulation.Simulation.UpdateSimulation` | examples/flight_detection/flight_detection_test.cpp:186-262 | one step equals the pure step function of the old record |
| `FlightSimulation.Simulation.IntegrateMotion` | examples/flight_detection/flight_detection_test.cpp:253-261 | the record becomes the pure integration of the old record |
| `FlightSimulation.Simulation.ApplyStateLogic` | examples/flight_detection/flight_detection_test.cpp:190-254 | the state part of the step equals the pure state logic |
| `FlightSimulation.Simulation.ApplyAscentLogic` | examples/flight_detection/flight_detection_test.cpp:190-230 | preflight to coasting follow the pure state logic |
| `FlightSimulation.Simulation.ApplyDescentLogic` | examples/flight_detection/flight_detection_test.cpp:231-254 | apogee to postflight follow the pure state logic |
| `FlightSimulation.Simulation.UpdateFlightDetection` | examples/flight_detection/flight_detection_test.cpp:264-310 | the record becomes the latched record |
| `FlightSimulation.Simulation.TestLaunchThreshold` | examples/flight_detection/flight_detection_test.cpp:363-383 | of the sweep 0.5 g to 5.0 g, exactly the readings from 2.5 g up are reported as launches, and the simulation ends reset |
| `FlightSimulation.Simulation.TestApogeeDetection` | examples/flight_detection/flight_detection_test.cpp:385-410 | of the sweep 10 m/s down to -10 m/s at 50 m, exactly -4 m/s and below are reported, and the simulation ends reset |
| `FlightSimulation.Simulation.HandleCommand` | examples/flight_detection/flight_detection_test.cpp:100-156 | '1'-'3' select a profile and reset; '4' and '5' run a sweep and reset; 'r'/'R' reset; any other command changes nothing |
| `FlightSimulation.SimRunOrdered` | examples/flight_detection/flight_detection_test.cpp:83-98 | any interleaving of steps and detection calls keeps the flags ordered and the altitude non-negative, never moves the state back and never clears landing |
| `Rbsafe.Evaluate` | src/rbsafe.cpp:32-76 | the overall verdict is the conjunction of the six category verdicts |
| `Rbsafe.VerifyImuCalibration` | src/rbsafe.cpp:237-242 | defines verifyIMUCalibration: the Z axis within 0.2 g of 1 g |
| `Rbsafe.VerifyBarometerBaseline` | src/rbsafe.cpp:244-250 | defines verifyBarometerBaseline: two pressures within 2 hPa |
| `Rbsafe.VerifyGpsLock` | src/rbsafe.cpp:252-257 | defines verifyGPSLock: at least four satellites and an HDOP below 5 |
| `Rbsafe.VerifyTemperatureSensors` | src/rbsafe.cpp:259-262 | defines verifyTemperatureSensors: strictly between -50 and 85 degrees C |
| `Rbsafe.VerifyPowerSystems` | src/rbsafe.cpp:264-267 | defines verifyPowerSystems: more than 3.3 V |
| `Rbsafe.StructuralIntegrity` | src/rbsafe.cpp:79-99 | defines checkStructuralIntegrity: the three continuity pins read LOW and the mechanical check passes |
| `Rbsafe.SensorHealth` | src/rbsafe.cpp:101-129 | defines checkSensorHealth: all five sensor verifications pass |
| `Rbsafe.CommunicationSystems` | src/rbsafe.cpp:131-150 | defines checkCommunicationSystems: telemetry link, command reception and data logging pass |
| `Rbsafe.FlightComputer` | src/rbsafe.cpp:152-175 | defines checkFlightComputer: memory, timing, interrupts and watchdog pass |
| `Rbsafe.EnvironmentalConditions` | src/rbsafe.cpp:177-198 | defines checkEnvironmentalConditions: strictly between -10 and 50 degrees C, the always-passing humidity check, and stable pressure |
| `Rbsafe.RangeSafety` | src/rbsafe.cpp:200-223 | defines checkRangeSafety: three always-passing placeholders and the manual approval pin |
| `Rbsafe.OverallSafeIffEveryTest` | src/rbsafe.cpp:79-223 | the gate passes exactly when every pin, threshold and status test passes |
| `Rbsafe.AnyFailedCategoryBlocks` | rtc_setter/include/rbsafe.h:200-223 | without manual approval, with fewer than four satellites, or with 3.3 V or less, the gate fails |
| `Rbsafe.TemperatureRangesNest` | src/rbsafe.cpp:177-198 | the environmental range lies inside the sensor-plausibility range, and 60 degrees C passes only the latter |
| `Rbsafe.ThresholdEdges` | src/rbsafe.cpp:237-267 | each threshold's bound itself fails |
| `Rbsafe.RbsafeChecker.constructor` | src/rbsafe.cpp:23-25 | the constructor clears every flag |
| `Rbsafe.RbsafeChecker.ResetStatus` | src/rbsafe.cpp:27-29 | all seven flags become false |
| `Rbsafe.RbsafeChecker.PerformRbsafeCheck` | rtc_setter/include/rbsafe.h:32-76 | the stored status is the evaluation of this check's readings, and the result is the overall flag, the conjunction of the six |
| `Pcf8523.Bcd2DecValue` | src/rtc_pcf8523.cpp:19-21 | bcd2dec is ten times the high nibble plus the low nibble, at most 165, with no byte wrap |
| `Pcf8523.Bcd2Dec` | src/rtc_pcf8523.cpp:19-21 | defines bcd2dec on a byte, with the byte result of the uint8_t return |
| `Pcf8523.Dec2Bcd` | src/rtc_pcf8523.cpp:24-26 | defines dec2bcd on a byte, wrapping to 8 bits |
| `Pcf8523.Decode` | src/rtc_pcf8523.cpp:84-98 | defines readRTC's decoding of the seven bytes: the flag bits masked, the weekday skipped, the year from 2000 |
| `Pcf8523.ReadValid` | src/rtc_pcf8523.cpp:101-102 | defines readRTC's range check on the decoded fields |
| `Pcf8523.Dec2BcdPacks` | src/rtc_pcf8523.cpp:24-26 | for values up to 99, dec2bcd puts the tens digit in the high nibble and the units in the low one |
| `Pcf8523.Dec2BcdWraps` | rtc_setter/src/rtc_pcf8523.cpp:110-112 | example: above 99 the byte wraps, and 255 encodes to 149 |
| `Pcf8523.DecodeEncode` | rtc_setter/src/rtc_pcf8523.cpp:20-22 | bcd2dec(dec2bcd(v)) == v for every v up to 99 |
| `Pcf8523.EncodeDecode` | src/rtc_pcf8523.cpp:19-26 | dec2bcd(bcd2dec(b)) == b when both nibbles are decimal digits |
| `Pcf8523.NonBcdDecodesInRange` | src/rtc_pcf8523.cpp:93-105 | example: 0x1A decodes to 20 just as 0x20 does, so the range check cannot reject it |
| `Pcf8523.DecodedYearRange` | src/rtc_pcf8523.cpp:98 | every decoded year lies in 2000-2165 |
| `Pcf8523.DecodeIgnoresFlags` | src/rtc_pcf8523.cpp:84-97 | replies that agree on the kept bits decode alike |
| `Pcf8523.OscillatorFlagIgnored` | rtc_setter/src/rtc_pcf8523.cpp:91 | the oscillator-stop bit of the seconds byte never reaches the decoded seconds |
| `Pcf8523.Encode` | src/rtc_pcf8523.cpp:125-136 | seven bytes are sent from SECONDS, each field BCD-encoded, with a zero weekday |
| `Pcf8523.ReadAfterSet` | src/rtc_pcf8523.cpp:60-147 | whatever setRTC accepts and writes, readRTC decodes back to the same fields and accepts |
| `Pcf8523.ClearStopBit` | src/rtc_pcf8523.cpp:50-56 | the cleared value has no STOP bit and keeps every other bit |
| `Pcf8523.DateTime.constructor` | include/rtc_pcf8523.h:6-14 | a fresh record holds zero fields and is marked invalid |
| `Pcf8523.ReadRtc` | src/rtc_pcf8523.cpp:60-109 | a bus error or a short reply fails with the fields untouched; otherwise the fields are decoded and the call succeeds exactly when they are in range; dataValid equals the result |
| `Pcf8523.Device.constructor` | src/rtc_pcf8523.cpp:7-16 | the device holds the ten given registers, Control_1 to Years, and no writes have been made |
| `Pcf8523.Device.WriteRegister` | src/rtc_pcf8523.cpp:39-44 | the write is always sent and logged; only an acknowledged one changes the addressed register, and nothing else changes |
| `Pcf8523.Device.InitRtc` | rtc_setter/src/rtc_pcf8523.cpp:44-56 | a missing device fails; a set STOP bit gets one write that clears it keeping the other bits, and stays set if that write is not acknowledged, yet the call still succeeds; a clear one causes no write |
| `Pcf8523.Device.SetRtcBurst` | src/rtc_pcf8523.cpp:111-147 | out-of-range arguments send nothing; otherwise the seven registers from SECONDS hold the encoding in one logged burst |
| `Pcf8523.Device.SetRtcSingle` | rtc_setter/src/rtc_pcf8523.cpp:115-140 | out-of-range arguments send nothing; otherwise six writes go out one by one, each time register takes its encoding only if its write was acknowledged, the weekday register is kept, and success is reported whatever the bus did |
| `Pcf8523.Device.SetRtcSingleChecked` | rtc_setter/src/rtc_pcf8523.cpp:115-140 | the same six writes, but success is reported exactly when the arguments are in range and every write was acknowledged, and then the registers hold the encoding |
| `Pcf8523.Device.WriteTimeRegisters` | rtc_setter/src/rtc_pcf8523.cpp:131-137 | the six writeRegister calls of setRTC, in order, each landing only when acknowledged |
| `Pcf8523.Land` | src/rtc_pcf8523.cpp:39-44 | an acknowledged write sets the addressed register; an unacknowledged one leaves it; no other register changes |
| `Pcf8523.SingleWritesRegisters` | rtc_setter/src/rtc_pcf8523.cpp:131-137 | after the six writes each time register holds its encoding if acknowledged and its old value otherwise; the control and weekday registers are untouched |
| `Pcf8523.AllAckedWritesEncode` | rtc_setter/src/rtc_pcf8523.cpp:131-137 | when every write is acknowledged the registers hold the encoding with the old weekday byte |
| `Pcf8523.UnackedSetReportsSuccess` | rtc_setter/src/rtc_pcf8523.cpp:115-140 | with no write acknowledged the registers are unchanged although setRTC reports success; cleared registers then read back as a time readRTC rejects |
| `Pcf8523.CheckedSetReadsBack` | rtc_setter/src/rtc_pcf8523.cpp:58-107 | when every single write was acknowledged, readRTC returns exactly the time that was set and accepts it |
| `Pcf8523.SetThenReadRoundTrip` | rtc_setter/src/rtc_pcf8523.cpp:58-107 | once either setRTC's writes have all landed (the acknowledged burst, or six acknowledged single writes), readRTC returns exactly the time that was set, whatever the weekday byte |
| `BaroFilter.NextIndexAsWritten` | examples/baro/baro_test.cpp:33 | altIndex++ on a 16-bit int wraps from 32767 to -32768 |
| `BaroFilter.AsWrittenIndexLeavesBuffer` | examples/baro/baro_test.cpp:24-34 | the first 32768 calls stay inside the buffer (the 32768th writes altBuf[2]); the 32769th writes altBuf[-3] |
| `BaroFilter.NextSlot` | examples/baro/baro_test.cpp:33 | the bounded ring index stays in 0..4 |
| `BaroFilter.SlotAfter` | examples/baro/baro_test.cpp:33 | the slot after n writes stays in 0..4 |
| `BaroFilter.SlotAfterIsCountModN` | examples/baro/baro_test.cpp:33 | the bounded index after n writes is n mod 5, the intended `altIndex++ % N` |
| `BaroFilter.MiddleOfSorted` | examples/baro/baro_test.cpp:45 | the middle of a sorted window of five has at least three values at or below it and three at or above it |
| `BaroFilter.ExchangeSort` | examples/baro/baro_test.cpp:36-44 | the window ends sorted and a permutation of what it held |
| `BaroFilter.MedianFilter.constructor` | examples/baro/baro_test.cpp:23-24 | the window starts as five zeros at index 0 |
| `BaroFilter.MedianFilter.FilterAltitude` | examples/baro/baro_test.cpp:32-46 | the new value goes into the current slot, the other four are kept, the index advances, and the result is a buffered value with at least three others at or below and at or above it |
| `BaroFilter.WindowMedian` | examples/baro/baro_test.cpp:34-45 | the median of a five-slot window is one of its values with at least three values at or below it and three at or above it |
| `BaroFilter.ValidReadingBounds` | examples/baro/baro_test.cpp:49-54 | the bounds themselves are accepted and any value past them is rejected |
| `BaroFilter.Min` | examples/baro/baro_test.cpp:104-109 | the result is one of the two arguments and no larger than either |
| `BaroFilter.Max` | examples/baro/baro_test.cpp:104-109 | the result is one of the two arguments and no smaller than either |
| `BaroFilter.Statistics.constructor` | examples/baro/baro_test.cpp:17-20 | the statistics start at their sentinels with a zero count and no readings |
| `BaroFilter.Wrap16` | examples/baro/baro_test.cpp:20 | the result is a 16-bit value, equal to the input when that already fits |
| `BaroFilter.CRem` | examples/baro/baro_test.cpp:119 | C's remainder: in 0..b-1 for a non-negative dividend, in -(b-1)..0 for a negative one |
| `BaroFilter.SlotAsWritten` | examples/baro/baro_test.cpp:33 | defines the slot `altIndex++ % N` writes, with C's remainder on the 16-bit counter |
| `BaroFilter.ValidReading` | examples/baro/baro_test.cpp:47-52 | defines validReading: temperature in -40..85 and pressure in 300..1100 hPa |
| `BaroFilter.Reset` | examples/baro/baro_test.cpp:125-127 | defines the sentinel ranges the report restarts from |
| `BaroFilter.Widen` | examples/baro/baro_test.cpp:103-109 | defines readingCount++ on a 16-bit int and the min/max updates |
| `BaroFilter.Reports` | examples/baro/baro_test.cpp:119 | defines the report test `readingCount % 10 == 0` with C's remainder |
| `BaroFilter.Tally` | examples/baro/baro_test.cpp:103-128 | defines the statistics step of loop: widen, then restart the ranges on a reporting count |
| `BaroFilter.TallyRules` | examples/baro/baro_test.cpp:103-128 | the count steps on with a 16-bit wrap; on a reporting count every range is at its sentinel; otherwise each range only grows, takes in the reading, and moves an end only to the reading |
| `BaroFilter.ReportsEveryTenth` | examples/baro/baro_test.cpp:103-119 | until the count wraps, a report comes exactly on every tenth reading |
| `BaroFilter.ReportGapAcrossWrap` | examples/baro/baro_test.cpp:103-119 | as written, the report at count 32760 is followed by sixteen readings before the next, at count -32760, because the count wraps to -32768 and C's `-32768 % 10` is -8 |
| `BaroFilter.Statistics.Record` | examples/baro/baro_test.cpp:103-128 | the statistics become the pure tally of the reading, and every value since the last report stays within its range |
| `BaroFilter.Statistics.Include` | examples/baro/baro_test.cpp:103-109 | the 16-bit count steps on and each range widens to take in the reading, keeping every earlier reading inside |
| `BaroFilter.Statistics.Restart` | examples/baro/baro_test.cpp:125-127 | every range restarts from its sentinel, the count is kept, and no reading is left in range records |
| `BaroFilter.LoopPass` | examples/baro/baro_test.cpp:84-131 | a pass is accepted exactly when the first or the second reading is plausible, and otherwise changes neither filter nor statistics; an accepted pass stores the chosen altitude in the current slot, returns the median of the window, and leaves the statistics as the tally of the chosen pressure, the chosen temperature and that median |
| `DecimalText.Decimal` | src/main.cpp:39-42 | every number prints at least one digit |
| `DecimalText.Value` | src/main.cpp:39-42 | defines the number a string of decimal digits denotes, so that a printed field can be read back |
| `DecimalText.ZeroPad` | src/main.cpp:39-42 | defines %0Nd: the digits left-padded with zeros to at least N characters |
| `DecimalText.DecimalRoundTrip` | src/main.cpp:39-42 | the digits of n are decimal digits that read back as n |
| `DecimalText.DecimalLength` | src/main.cpp:39-42 | n fits in width digits exactly when n < 10^width |
| `DecimalText.ZeroPadExact` | src/main.cpp:39-42 | a number below 10^width pads to exactly width digits that read back as the number |
| `PayloadLogger.LayoutColumns` | src/main.cpp:39-42 | with a four-column year and two-column fields, every field and separator sits in a fixed column of the 19 characters |
| `PayloadLogger.FormatTimestamp` | src/main.cpp:39-42 | defines formatTimestamp: "%04d-%02d-%02d %02d:%02d:%02d" |
| `PayloadLogger.TimestampLayout` | src/main.cpp:39-42 | for any time readRTC accepts, the timestamp has 19 characters, which always fit the 32-byte buffer; the separators are at columns 4, 7, 10, 13 and 16, and each field reads back from its columns |
| `PayloadLogger.DetectRules` | src/main.cpp:288-301 | the base is set only while zero and the altitude is positive; takeoff needs more than base + 1 m; landing needs takeoff and less than base + 1 m; at most one changes per pass; nothing is cleared; the order of events is kept |
| `PayloadLogger.Detect` | src/main.cpp:288-301 | defines the flight-event chain: set the base altitude, else latch takeoff, else latch landing |
| `PayloadLogger.DetectScenario` | src/main.cpp:288-301 | example: base, climb and return give base, takeoff and landing in turn; for all readings: with no base set, none latches an event |
| `PayloadLogger.BuzzerRules` | src/main.cpp:57-78 | a chirp starts only while recording and 1000 ms after the last one ended; it stops 100 ms after it started; without recording the buzzer ends silent |
| `PayloadLogger.BuzzerStep` | src/main.cpp:57-78 | defines updateBuzzer on the buzzer globals |
| `PayloadLogger.ChirpSpacing` | src/main.cpp:57-78 | successive chirps start at least 1100 ms apart |
| `PayloadLogger.Begin` | src/main.cpp:89-94 | defines a start: logging on and the events cleared when the logger starts |
| `PayloadLogger.End` | src/main.cpp:85-87 | defines a stop: logging off when the logger stops |
| `PayloadLogger.Toggle` | src/main.cpp:81-96 | defines handleButtonPress on the globals |
| `PayloadLogger.Pressed` | src/main.cpp:322-325 | defines a handled press: a HIGH-to-LOW edge more than 100 ms after the last one |
| `PayloadLogger.ButtonStep` | src/main.cpp:319-330 | defines the button check on the globals |
| `PayloadLogger.CommandStep` | src/main.cpp:99-165 | defines handleCommand on the globals |
| `PayloadLogger.Sense` | src/main.cpp:276-301 | defines the flight-event part of loop: the chain runs on a recording pass with barometer data and a working clock |
| `PayloadLogger.Beep` | src/main.cpp:315-316 | defines the updateBuzzer call of loop on the globals |
| `PayloadLogger.Pass` | src/main.cpp:251-340 | defines one pass of loop on the globals: events, buzzer, button, command |
| `PayloadLogger.ButtonRules` | src/main.cpp:319-330 | the level is always remembered; a press is stamped and stops a running session when the logger stops, or starts one when it starts, clearing the events; without a press only the level changes; the buzzer and device flags are untouched |
| `PayloadLogger.CommandRules` | src/main.cpp:99-165 | 'l'/'L' start a session when none runs, clearing the events on success; 's'/'S'/'d'/'D' stop a running one when the logger stops; anything else changes nothing; only logging and the events can change |
| `PayloadLogger.SenseRules` | src/main.cpp:276-301 | the event step changes only the events, by one detection step on a recording pass with clock and barometer data, and keeps their order |
| `PayloadLogger.PassRules` | src/main.cpp:251-340 | over a pass the buzzer steps on the logging flag the pass began with, the level is remembered, the device flags stay, the events stay, are cleared, or take one detection step, and their order survives |
| `PayloadLogger.Payload.constructor` | src/main.cpp:11-30 | events cleared, buzzer idle, button released and unstamped, not logging, device flags as set up |
| `PayloadLogger.Payload.FlightEvents` | src/main.cpp:288-301 | the events take the pure event step; every other global is unchanged |
| `PayloadLogger.Payload.UpdateBuzzer` | src/main.cpp:57-78 | the buzzer takes the pure buzzer step on the logging flag; every other global is unchanged |
| `PayloadLogger.Payload.StartSession` | src/main.cpp:106-116 | logging starts exactly when the logger starts, and then the events are cleared; every other global is unchanged |
| `PayloadLogger.Payload.StopSession` | src/main.cpp:84-87 | logging ends exactly when the logger stops; every other global is unchanged |
| `PayloadLogger.Payload.HandleButtonPress` | src/main.cpp:81-96 | the globals become the pure toggle: a running session stops when the logger stops, otherwise a session starts |
| `PayloadLogger.Payload.CheckButton` | src/main.cpp:319-330 | a press is reported exactly on a debounced HIGH-to-LOW edge, and the globals become the pure button step |
| `PayloadLogger.Payload.HandleCommand` | src/main.cpp:99-165 | the globals become the pure command step |
| `PayloadLogger.Payload.LoopPass` | src/main.cpp:251-340 | the globals become the pure pass of the old globals (event step, buzzer step, button step, command step), and the order of flight events survives it |
| `FlightMonitor.PhaseIndex` | app/main.cpp:16-20 | the three phases are numbered 0..2 |
| `FlightMonitor.Check` | app/main.cpp:156-182 | defines determineFlightState: once 1000 ms have passed, a rise of more than 10 m starts the flight, a later fall of more than 5 m ends it, and the altitude and time are recorded |
| `FlightMonitor.Collect` | app/main.cpp:119-154 | defines collectTelemetryData on the monitored fields: the placeholder altitude 0.0 and the sample time |
| `FlightMonitor.Pass` | app/main.cpp:69-89 | defines one pass of loop: the state check, then a sample once the phase's interval has passed |
| `FlightMonitor.CheckRules` | app/main.cpp:156-182 | nothing happens within 1000 ms of the last check; otherwise the altitude and time are recorded; FLIGHT starts exactly on a rise of more than 10 m before any flight; POSTFLIGHT needs a fall of more than 5 m after one; the started flag is never cleared and the phase never goes back |
| `FlightMonitor.CheckScenario` | app/main.cpp:164-180 | example: a 50 m rise then a 10 m fall at the next check give FLIGHT then POSTFLIGHT |
| `FlightMonitor.SampleInterval` | app/main.cpp:76-78 | flight samples every 100 ms, post-flight every 5000 ms, and flight samples fastest |
| `FlightMonitor.PlaceholderNeverFlies` | app/main.cpp:143-145 | because collectTelemetryData stores an altitude of 0.0, no run of loop ever leaves PREFLIGHT |
| `FlightMonitor.RunMonotone` | app/main.cpp:22-26 | whatever altitudes are supplied, the phase keeps matching the started flag, never goes back, and a started flight keeps its start time |
| `FlightMonitor.App.constructor` | app/main.cpp:22-26 | power-on state: PREFLIGHT, not started, sample clock stamped |
| `FlightMonitor.App.DetermineFlightState` | app/main.cpp:156-182 | the state becomes the pure check of the old state |
| `FlightMonitor.App.Loop` | app/main.cpp:69-89 | a sample is taken exactly when the phase's interval has passed; the consistency of phase and flag is kept |
| `SdEndurance.ModeStringsDistinct` | examples/sd_endurance_test/sd_endurance_test.cpp:634-642 | no two modes share a label |
| `SdEndurance.ModeString` | examples/sd_endurance_test/sd_endurance_test.cpp:634-642 | defines getModeString: the label of each test mode |
| `SdEndurance.Start` | examples/sd_endurance_test/sd_endurance_test.cpp:234-283 | defines startLogging on the session |
| `SdEndurance.Outcome` | examples/sd_endurance_test/sd_endurance_test.cpp:401-413 | defines the counting half of writeDataRecord: a record when the file is open and bytes were written, an error otherwise |
| `SdEndurance.Timing` | examples/sd_endurance_test/sd_endurance_test.cpp:415-420 | defines the write-time half of writeDataRecord: total, minimum and maximum |
| `SdEndurance.Command` | examples/sd_endurance_test/sd_endurance_test.cpp:178-232 | defines handleCommand on the session |
| `SdEndurance.LogStep` | examples/sd_endurance_test/sd_endurance_test.cpp:138-161 | defines the logging pass of loop: write once the interval has passed, stamp the time, stop above 95% full |
| `SdEndurance.PrintDuration` | examples/sd_endurance_test/sd_endurance_test.cpp:594-619 | defines printDuration's choice of unit and its two numbers |
| `SdEndurance.StartRules` | examples/sd_endurance_test/sd_endurance_test.cpp:234-283 | starting while logging changes nothing; otherwise counters reset, mode, file and interval are set, and logging begins exactly when the file opened |
| `SdEndurance.Stop` | examples/sd_endurance_test/sd_endurance_test.cpp:289-293 | stopping without a session changes nothing; otherwise logging ends, the file closes, and the counters are kept |
| `SdEndurance.WriteRules` | examples/sd_endurance_test/sd_endurance_test.cpp:401-420 | one write counts exactly one record or one error, adds the bytes only on success, brackets its time by min and max, and keeps writeCount == records + errors with the average between min and max |
| `SdEndurance.CommandPlan` | examples/sd_endurance_test/sd_endurance_test.cpp:182-196 | exactly '1'-'4' start a session |
| `SdEndurance.CommandTable` | examples/sd_endurance_test/sd_endurance_test.cpp:178-232 | '1'-'4' select 1 Hz, 10 Hz, 20 Hz and maximum speed with intervals 1000/100/50/0 ms; commands other than '1'-'4' and 's'/'S' leave the session alone |
| `SdEndurance.CommandsWhileLogging` | examples/sd_endurance_test/sd_endurance_test.cpp:198-205 | a running session is never restarted: only 's'/'S' end it |
| `SdEndurance.LogStepRules` | examples/sd_endurance_test/sd_endurance_test.cpp:138-161 | a pass writes one record exactly when logging and the interval has passed; logging continues only below 95% full; the statistics stay consistent |
| `SdEndurance.DurationMeaning` | examples/sd_endurance_test/sd_endurance_test.cpp:594-619 | the reported unit is the largest one the duration reaches, and both numbers are the duration truncated to the smaller unit |
| `SdEndurance.EnduranceTest.constructor` | examples/sd_endurance_test/sd_endurance_test.cpp:115-124 | setup leaves an idle session with consistent statistics |
| `SdEndurance.EnduranceTest.StartLogging` | examples/sd_endurance_test/sd_endurance_test.cpp:234-283 | the state becomes the pure start of the old state |
| `SdEndurance.EnduranceTest.ResetCounters` | examples/sd_endurance_test/sd_endurance_test.cpp:243-245 | the record, byte and error counters restart at zero and nothing else changes |
| `SdEndurance.EnduranceTest.ResetWriteTimes` | examples/sd_endurance_test/sd_endurance_test.cpp:246-249 | the write-time statistics restart from their sentinels and nothing else changes |
| `SdEndurance.EnduranceTest.OpenFile` | examples/sd_endurance_test/sd_endurance_test.cpp:267-283 | the file is open, and logging running, exactly when the file opened |
| `SdEndurance.EnduranceTest.StopLogging` | examples/sd_endurance_test/sd_endurance_test.cpp:289-293 | the state becomes the pure stop of the old state |
| `SdEndurance.EnduranceTest.WriteDataRecord` | examples/sd_endurance_test/sd_endurance_test.cpp:348-421 | the state becomes the pure write of the old state |
| `SdEndurance.EnduranceTest.CountOutcome` | examples/sd_endurance_test/sd_endurance_test.cpp:401-413 | the state becomes the pure outcome count of the old state |
| `SdEndurance.EnduranceTest.RecordWriteTime` | examples/sd_endurance_test/sd_endurance_test.cpp:415-420 | the state becomes the pure write-time update of the old state |
| `SdEndurance.EnduranceTest.HandleCommand` | examples/sd_endurance_test/sd_endurance_test.cpp:178-232 | the state becomes the pure command step |
| `SdEndurance.EnduranceTest.LoopLogging` | examples/sd_endurance_test/sd_endurance_test.cpp:138-161 | the state becomes the pure logging pass |

## Left out

- Serial output, string formatting of floats, LED blinking and the telemetry/summary reports (`printStatus`, `printProjection`, `printBytes`, `sendTelemetryBurst`, `logSequencerData`, `blinkSequencerStatus`) are output only.
- `collectSequencerTelemetry` reads GPS and temperature through libraries; its values are tick inputs.
- Sensor drivers, the SD, GPS, temperature and I2C libraries, and the logger's `startLogging`/`stopLogging`/`isLoggingActive`/`deleteFile` are not part of this model. Their results (file opened, bytes written, bus status, readings) are parameters.
- `millis()` is a non-decreasing natural number; its 32-bit wrap-around is not modelled, and `delay()` waits are time advancing.
- `sqrt`, `pow`, `isnan` and float rounding are not modelled. Reals stand for floats, the acceleration magnitude is characterised by its square, and `validReading` omits the NaN test.
- The SD card capacity projection and `updateCardInfo` (directory walk, percentages) are out; the fill percentage is an input to the logging pass.
- `deleteTestFiles` and the 'i' and 'd' commands of the endurance sketch act only on the card and the console; the model shows them leaving the session alone.
- `checkContinuity` in the RBSAFE checker reconfigures the pyro pin and drives it LOW again; only its verdict (the pin reading LOW) is modelled.
- The ambient temperature and pressure in the RBSAFE checker are read twice by separate calls; each read is its own input.
- The GPS satellite warning in `checkSensorStatus` only prints, so it is not modelled.
- The `default` branches of `getStateString`/`getPhaseString` ("UNKNOWN") cannot be reached with the enum's values, so they are not modelled.
- `lastStateUpdate` in the sequencer record is set only by initSequencer (src/sequencer.cpp:17) and never updated afterwards; the model sets it there and carries it unchanged through every other operation.
- `FAST_TELEM_RATE_MS` differs between include/config.h and include/flight_detection.h; neither value is used by the modelled code.
- The stand-alone app's `collectTelemetryData` stores a placeholder altitude of 0.0; the model keeps that, and `FlightMonitor.PlaceholderNeverFlies` shows its consequence.
- `Pcf8523.Device.SetRtcSingle`: a write the device does not acknowledge is modelled as not reaching its register; a reported success therefore promises the set time only when every write was acknowledged (see Findings).
- `Pcf8523.Device.InitRtc`: success does not promise a running oscillator, because the source does not check the Control_1 write either.
- `Pcf8523.Device.SetRtcBurst`: a burst the device does not acknowledge is modelled as changing no register, since which bytes reached the device is unknown.
- `SdEndurance.WriteRules`: the 32-bit `unsigned long` counters are unbounded here; wrap-around after 2^32 records is not modelled.
- `BaroFilter.MedianFilter.FilterAltitude`: models the corrected, bounded ring index (see Findings), not the overflowing 16-bit counter.

## Findings

| source | as written | input that shows it | evidently intended | confidence | as-written member | corrected member |
|---|---|---|---|---|---|---|
| examples/baro/baro_test.cpp:24-33 | `altBuf[altIndex++ % N]` with a 16-bit `int altIndex` that is never reset | the 32769th call: the 32768th call sees altIndex 32767 and writes `altBuf[2]`, the counter wraps to -32768, and C's `-32768 % 5 == -3` makes the 32769th write `altBuf[-3]`, outside the buffer | a ring index that stays in 0..4 and equals the call count modulo 5 | medium, not executed; assumes the 16-bit `int` of the ATmega328P | `BaroFilter.AsWrittenIndexLeavesBuffer` | `BaroFilter.SlotAfterIsCountModN` |
| rtc_setter/src/rtc_pcf8523.cpp:115-140 | setRTC returns true without checking the bus: `writeRegister` discards the status of each transmission and the function ends in `return true` | a valid time (the sketch's 2025-10-29 19:04:45) sent to a device that acknowledges none of the six writes and whose time registers are cleared: setRTC reports success, the registers are unchanged, and reading back gives 2000-00-00 00:00:00 | report failure when a write is not acknowledged, as the burst setRTC in src/rtc_pcf8523.cpp:140-143 does | medium, not executed; depends on the bus actually dropping a write | `Pcf8523.UnackedSetReportsSuccess` | `Pcf8523.CheckedSetReadsBack` |
