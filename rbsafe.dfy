// The RBSAFE (rocket body safe) gate checked before the launch band (src/rbsafe.cpp, with an
// identical copy in rtc_setter/include/rbsafe.h): six category verdicts, each a conjunction
// of threshold tests on sensor readings, and an overall verdict that is their conjunction.

module Rbsafe {
  import opened FlightDetection

  /** Everything the checker reads from the outside world during one check. Readings taken
      by separate calls (the ambient temperature is read twice, the pressure twice) are
      separate fields, since nothing forces the two reads to agree. */
  datatype Readings = Readings(
    stageSepPinLow: bool,
    parachutePinLow: bool,
    noseFairingPinLow: bool,
    mechanicalOk: bool,
    accelZ: real,
    pressure1: real,
    pressure2: real,
    satellites: int,
    hdop: real,
    sensorTemperature: real,
    batteryVoltage: real,
    telemetryLinkOk: bool,
    commandReceptionOk: bool,
    dataLoggingOk: bool,
    memoryOk: bool,
    timingOk: bool,
    interruptsOk: bool,
    watchdogOk: bool,
    ambientTemperature: real,
    pressureStable: bool,
    manualApproval: bool)

  /** verifyIMUCalibration: the Z axis reads within 0.2 g of 1 g. */
  predicate VerifyImuCalibration(accelZ: real) {
    Abs(accelZ - 1.0) < 0.2
  }

  /** verifyBarometerBaseline: two readings agree within 2 hPa. */
  predicate VerifyBarometerBaseline(p1: real, p2: real) {
    Abs(p1 - p2) < 2.0
  }

  /** verifyGPSLock: at least four satellites and an HDOP under 5. */
  predicate VerifyGpsLock(satellites: int, hdop: real) {
    satellites >= 4 && hdop < 5.0
  }

  /** verifyTemperatureSensors: a plausible reading, strictly between -50 and 85 degrees C. */
  predicate VerifyTemperatureSensors(t: real) {
    -50.0 < t < 85.0
  }

  /** verifyPowerSystems: more than 3.3 V. */
  predicate VerifyPowerSystems(volts: real) {
    volts > 3.3
  }

  /** checkStructuralIntegrity: three pyro continuity checks (a LOW read under the pull-up)
      and the mechanical check. */
  predicate StructuralIntegrity(r: Readings) {
    r.stageSepPinLow && r.parachutePinLow && r.noseFairingPinLow && r.mechanicalOk
  }

  /** checkSensorHealth. */
  predicate SensorHealth(r: Readings) {
    VerifyImuCalibration(r.accelZ) && VerifyBarometerBaseline(r.pressure1, r.pressure2)
    && VerifyGpsLock(r.satellites, r.hdop) && VerifyTemperatureSensors(r.sensorTemperature)
    && VerifyPowerSystems(r.batteryVoltage)
  }

  /** checkCommunicationSystems. */
  predicate CommunicationSystems(r: Readings) {
    r.telemetryLinkOk && r.commandReceptionOk && r.dataLoggingOk
  }

  /** checkFlightComputer. */
  predicate FlightComputer(r: Readings) {
    r.memoryOk && r.timingOk && r.interruptsOk && r.watchdogOk
  }

  /** checkEnvironmentalConditions: -10 < t < 50 degrees C, humidity (always passes) and
      pressure stability. */
  predicate EnvironmentalConditions(r: Readings) {
    var humidityOk := true;
    -10.0 < r.ambientTemperature < 50.0 && humidityOk && r.pressureStable
  }

  /** checkRangeSafety: three placeholder checks that always pass and the manual approval pin. */
  predicate RangeSafety(r: Readings) {
    var fts, frequency, recoveryArea := true, true, true;
    fts && frequency && recoveryArea && r.manualApproval
  }

  /** The seven flags of the SafetyStatus member. */
  datatype SafetyStatus = SafetyStatus(
    structuralIntegrity: bool,
    sensorHealth: bool,
    communicationSystems: bool,
    flightComputer: bool,
    environmentalConditions: bool,
    rangeSafety: bool,
    overallSafe: bool)

  const Cleared := SafetyStatus(false, false, false, false, false, false, false)

  /** The status a completed check leaves: each category's verdict and their conjunction. */
  function Evaluate(r: Readings): (s: SafetyStatus)
    ensures s.overallSafe <==> s.structuralIntegrity && s.sensorHealth && s.communicationSystems
                               && s.flightComputer && s.environmentalConditions && s.rangeSafety
  {
    var st := StructuralIntegrity(r);
    var sh := SensorHealth(r);
    var cs := CommunicationSystems(r);
    var fc := FlightComputer(r);
    var ec := EnvironmentalConditions(r);
    var rs := RangeSafety(r);
    SafetyStatus(st, sh, cs, fc, ec, rs, st && sh && cs && fc && ec && rs)
  }

  /** The overall verdict passes exactly when every individual test passes. */
  lemma OverallSafeIffEveryTest(r: Readings)
    ensures Evaluate(r).overallSafe <==>
      && r.stageSepPinLow && r.parachutePinLow && r.noseFairingPinLow && r.mechanicalOk
      && -0.2 < r.accelZ - 1.0 < 0.2
      && -2.0 < r.pressure1 - r.pressure2 < 2.0
      && r.satellites >= 4 && r.hdop < 5.0
      && -50.0 < r.sensorTemperature < 85.0
      && r.batteryVoltage > 3.3
      && r.telemetryLinkOk && r.commandReceptionOk && r.dataLoggingOk
      && r.memoryOk && r.timingOk && r.interruptsOk && r.watchdogOk
      && -10.0 < r.ambientTemperature < 50.0 && r.pressureStable
      && r.manualApproval
  {
  }

  /** Any single failed category blocks the launch band, whatever the other readings are; in
      particular, without the manual approval switch the gate never passes. */
  lemma AnyFailedCategoryBlocks(r: Readings)
    ensures !r.manualApproval ==> !Evaluate(r).overallSafe
    ensures r.satellites < 4 ==> !Evaluate(r).overallSafe
    ensures r.batteryVoltage <= 3.3 ==> !Evaluate(r).overallSafe
  {
  }

  /** When both temperature reads return the same value, the environmental range is the
      narrower one: a reading that passes the environment check also passes the sensor check,
      but a reading of 60 degrees C passes only the sensor check. */
  lemma TemperatureRangesNest(t: real)
    ensures -10.0 < t < 50.0 ==> VerifyTemperatureSensors(t)
    ensures VerifyTemperatureSensors(60.0)
  {
  }

  /** The threshold edges: each bound itself fails. */
  lemma ThresholdEdges()
    ensures !VerifyImuCalibration(1.2) && !VerifyImuCalibration(0.8) && VerifyImuCalibration(1.0)
    ensures !VerifyBarometerBaseline(1000.0, 1002.0) && VerifyBarometerBaseline(1000.0, 1001.5)
    ensures !VerifyGpsLock(3, 1.0) && !VerifyGpsLock(4, 5.0) && VerifyGpsLock(4, 4.9)
    ensures !VerifyTemperatureSensors(-50.0) && !VerifyTemperatureSensors(85.0)
    ensures !VerifyPowerSystems(3.3)
  {
  }

  /** The RBSAFEChecker object: its SafetyStatus member, updated flag by flag. */
  class RbsafeChecker {
    var structuralIntegrity: bool
    var sensorHealth: bool
    var communicationSystems: bool
    var flightComputer: bool
    var environmentalConditions: bool
    var rangeSafety: bool
    var overallSafe: bool

    function Status(): SafetyStatus
      reads this
    {
      SafetyStatus(structuralIntegrity, sensorHealth, communicationSystems, flightComputer,
                   environmentalConditions, rangeSafety, overallSafe)
    }

    /** The constructor clears the status. */
    constructor ()
      ensures Status() == Cleared
    {
      structuralIntegrity, sensorHealth, communicationSystems := false, false, false;
      flightComputer, environmentalConditions, rangeSafety := false, false, false;
      overallSafe := false;
    }

    /** resetStatus: all seven flags false. */
    method ResetStatus()
      modifies this
      ensures Status() == Cleared
    {
      structuralIntegrity, sensorHealth, communicationSystems := false, false, false;
      flightComputer, environmentalConditions, rangeSafety := false, false, false;
      overallSafe := false;
    }

    /** performRBSAFECheck: clear the status, record each category's verdict, and return
        their conjunction. The result is a function of this check's readings alone: nothing
        from an earlier check carries over. */
    method PerformRbsafeCheck(r: Readings) returns (safe: bool)
      modifies this
      ensures Status() == Evaluate(r)
      ensures safe == overallSafe
      ensures safe <==> structuralIntegrity && sensorHealth && communicationSystems
                        && flightComputer && environmentalConditions && rangeSafety
    {
      ResetStatus();
      structuralIntegrity := StructuralIntegrity(r);
      sensorHealth := SensorHealth(r);
      communicationSystems := CommunicationSystems(r);
      flightComputer := FlightComputer(r);
      environmentalConditions := EnvironmentalConditions(r);
      rangeSafety := RangeSafety(r);
      overallSafe := structuralIntegrity && sensorHealth && communicationSystems
                     && flightComputer && environmentalConditions && rangeSafety;
      safe := overallSafe;
    }
  }
}
