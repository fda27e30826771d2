// Flight-event detection on the flight computer (src/flight_detection.cpp): threshold
// predicates over the derived signals, the finite-difference vertical velocity with its
// remembered last sample, and the update that refreshes the two derived signals.

module FlightDetection {

  /** Thresholds shared by the flight computer (include/flight_detection.h, include/config.h). */
  const LaunchAccelThresholdG: real := 2.0
  const ApogeeVelocityThreshold: real := -2.0
  const LandingVelocityThreshold: real := 5.0
  const LandingAccelThresholdG: real := 1.5
  const MinimumFlightAltitudeM: real := 30.0

  /** The velocity estimate is refreshed at most once a second. */
  const VelocityPeriodMs: int := 1000

  /** detectLaunch: strictly more than 2 g. */
  predicate DetectLaunch(accelMagnitude: real) {
    accelMagnitude > LaunchAccelThresholdG
  }

  /** detectApogee: descending faster than 2 m/s; altitude plays no part. */
  predicate DetectApogee(verticalVelocity: real) {
    verticalVelocity < ApogeeVelocityThreshold
  }

  /** detectLanding: a signed velocity below 5 m/s and less than 1.5 g. */
  predicate DetectLanding(verticalVelocity: real, accelMagnitude: real) {
    verticalVelocity < LandingVelocityThreshold && accelMagnitude < LandingAccelThresholdG
  }

  /** Exactly 2 g is not a launch; any larger reading is. A descent that detects apogee also
      satisfies the velocity half of landing, because the landing test is signed: a fast
      fall at low acceleration reads as a landing. */
  lemma DetectionBoundaries(a: real, v: real)
    ensures !DetectLaunch(2.0) && (a > 2.0 ==> DetectLaunch(a))
    ensures DetectApogee(v) && a < 1.5 ==> DetectLanding(v, a)
    ensures DetectLanding(-100.0, 1.0)
  {
  }

  /** m is the Euclidean norm of (x, y, z): the value sqrt returns, without computing it. */
  ghost predicate IsMagnitude(m: real, x: real, y: real, z: real) {
    m >= 0.0 && m * m == x * x + y * y + z * z
  }

  /** calculateAccelerationMagnitude compared with a non-negative threshold t: the norm exceeds
      t exactly when the sum of squares exceeds t squared, so no square root is needed. */
  lemma MagnitudeThreshold(m: real, x: real, y: real, z: real, t: real)
    requires IsMagnitude(m, x, y, z) && t >= 0.0
    ensures m > t <==> x * x + y * y + z * z > t * t
  {
    SquareMonotone(m, t);
    SquareMonotone(t, m);
  }

  /** For non-negative a and b, a > b forces a * a > b * b. */
  lemma SquareMonotone(a: real, b: real)
    requires a >= 0.0 && b >= 0.0
    ensures a > b ==> a * a > b * b
  {
    if a > b {
      ProductSigns(a - b, a + b);
      assert (a - b) * (a + b) == a * a - b * b;
    }
  }

  lemma ProductSigns(a: real, b: real)
    requires a >= 0.0 && b >= 0.0
    ensures a * b >= 0.0
    ensures a > 0.0 && b > 0.0 ==> a * b > 0.0
  {
  }

  /** The static lastAltitude/lastAltTime pair of calculateVerticalVelocity. */
  class VelocityEstimator {
    var lastAltitude: real
    var lastAltTime: nat

    /** Static initialisation: both zero. */
    constructor ()
      ensures lastAltitude == 0.0 && lastAltTime == 0
    {
      lastAltitude := 0.0;
      lastAltTime := 0;
    }

    /** calculateVerticalVelocity at time now for the current altitude; previous is the
        velocity last stored in the telemetry record. With a second or more since the last
        sample, the result is the altitude change per second over that interval (so it is
        never larger in size than the change itself, the divisor being at least 1 s) and the
        sample is remembered; otherwise the previous value comes back and nothing moves. */
    method CalculateVerticalVelocity(altitude: real, previous: real, now: nat) returns (v: real)
      modifies this
      ensures old(now - lastAltTime) >= VelocityPeriodMs ==>
        && v * ((now - old(lastAltTime)) as real / 1000.0) == altitude - old(lastAltitude)
        && (v > 0.0 <==> altitude > old(lastAltitude))
        && (v < 0.0 <==> altitude < old(lastAltitude))
        && -(Abs(altitude - old(lastAltitude))) <= v <= Abs(altitude - old(lastAltitude))
        && lastAltitude == altitude && lastAltTime == now
      ensures old(now - lastAltTime) < VelocityPeriodMs ==>
        v == previous && lastAltitude == old(lastAltitude) && lastAltTime == old(lastAltTime)
    {
      if now - lastAltTime >= VelocityPeriodMs {
        var deltaAlt := altitude - lastAltitude;
        var deltaTime := (now - lastAltTime) as real / 1000.0;
        assert deltaTime >= 1.0;
        v := deltaAlt / deltaTime;
        QuotientBound(deltaAlt, deltaTime);
        lastAltitude := altitude;
        lastAltTime := now;
        return;
      }
      v := previous;
    }
  }

  function Abs(x: real): (r: real)
    ensures r >= 0.0 && (r == x || r == -x)
  {
    if x < 0.0 then -x else x
  }

  /** Dividing by at least one keeps the sign and does not grow the size. */
  lemma QuotientBound(d: real, t: real)
    requires t >= 1.0
    ensures (d / t) * t == d
    ensures d / t > 0.0 <==> d > 0.0
    ensures d / t < 0.0 <==> d < 0.0
    ensures -Abs(d) <= d / t <= Abs(d)
  {
    var q := d / t;
    assert q * t == d;
    if d > 0.0 {
      assert q > 0.0;
      assert q <= q * t;
    } else if d < 0.0 {
      assert q < 0.0;
      assert q * t <= q;
    }
  }

  /** The fields of the telemetry record that flight detection reads or writes. */
  class FlightSignals {
    var altitude: real
    var accelX: real
    var accelY: real
    var accelZ: real
    var verticalVelocity: real
    var accelMagnitude: real

    constructor ()
      ensures altitude == 0.0 && accelX == 0.0 && accelY == 0.0 && accelZ == 0.0
      ensures verticalVelocity == 0.0 && accelMagnitude == 0.0
    {
      altitude, accelX, accelY, accelZ := 0.0, 0.0, 0.0, 0.0;
      verticalVelocity, accelMagnitude := 0.0, 0.0;
    }

    /** updateFlightDetection: refresh the vertical velocity and the acceleration magnitude
        (norm is what sqrt returns for the three axes) and write no other field. A fresh
        velocity is the altitude change per second since the remembered sample. */
    method UpdateFlightDetection(est: VelocityEstimator, now: nat, norm: real)
      requires IsMagnitude(norm, accelX, accelY, accelZ)
      modifies this, est
      ensures accelMagnitude == norm && accelMagnitude >= 0.0
      ensures altitude == old(altitude) && accelX == old(accelX)
      ensures accelY == old(accelY) && accelZ == old(accelZ)
      ensures old(now - est.lastAltTime) < VelocityPeriodMs ==>
        verticalVelocity == old(verticalVelocity)
        && est.lastAltitude == old(est.lastAltitude) && est.lastAltTime == old(est.lastAltTime)
      ensures old(now - est.lastAltTime) >= VelocityPeriodMs ==>
        && verticalVelocity * ((now - old(est.lastAltTime)) as real / 1000.0) == altitude - old(est.lastAltitude)
        && (verticalVelocity > 0.0 <==> altitude > old(est.lastAltitude))
        && (verticalVelocity < 0.0 <==> altitude < old(est.lastAltitude))
        && est.lastAltitude == altitude && est.lastAltTime == now
    {
      verticalVelocity := est.CalculateVerticalVelocity(altitude, verticalVelocity, now);
      accelMagnitude := norm;
    }
  }
}
