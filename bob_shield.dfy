/**
 * The Ball-on-Beam (BoB) shield's Arduino driver: a servo tilts the beam
 * through a saturated, integer-valued angle command, a time-of-flight
 * sensor reads the ball's distance, and a calibration run records the
 * sensor's extreme readings. The servo and sensor are modelled as a log
 * of values written and as readings passed in; delays and serial echo
 * are not part of this model.
 */
module BobShield {

  /** What the time-of-flight sensor's readRange() returns: an unsigned byte (millimetres). */
  type Byte = x: int | 0 <= x < 256

  /** Default offset subtracted from a reading before calibration has run. */
  const MinCalibratedDefault: int := 7
  /** Tilt limit of the beam, in degrees either way. */
  const TiltLimit: int := 30
  /** Servo positions for full tilt one way and the other. */
  const ServoLow: int := 65
  const ServoHigh: int := 125
  /** Number of sensor readings in each half of the calibration. */
  const CalibrationSamples: int := 100

  // ---------------------------------------------------------------------
  // C and Arduino arithmetic
  // ---------------------------------------------------------------------

  function Abs(x: int): (r: int)
    ensures r >= 0 && (r == x || r == -x)
  {
    if x < 0 then -x else x
  }

  /** A C cast from float to int: the fraction is dropped, towards zero. */
  function Trunc(x: real): (n: int)
    ensures x >= 0.0 ==> n >= 0 && n as real <= x < n as real + 1.0
    ensures x < 0.0 ==> n <= 0 && n as real - 1.0 < x <= n as real
  {
    if x >= 0.0 then x.Floor else -((-x).Floor)
  }

  /** Truncation is monotone. */
  lemma TruncMonotone(x: real, y: real)
    requires x <= y
    ensures Trunc(x) <= Trunc(y)
  {
  }

  /** C division of longs: the quotient of the magnitudes, negated when the signs differ (truncation towards zero). */
  function CDiv(a: int, b: int): int
    requires b != 0
  {
    var q := Abs(a) / Abs(b);
    if (a < 0) != (b < 0) then -q else q
  }

  /** Arduino's map(): integer linear rescaling, as (x - inMin) * (outMax - outMin) / (inMax - inMin) + outMin in long arithmetic. */
  function ArduinoMap(x: int, inMin: int, inMax: int, outMin: int, outMax: int): int
    requires inMax != inMin
  {
    CDiv((x - inMin) * (outMax - outMin), inMax - inMin) + outMin
  }

  /** The servo mapping the driver uses, tilt 30 to 65 and tilt -30 to 125, reflects the tilt about 95 exactly. */
  lemma ServoMapReflects(d: int)
    ensures ArduinoMap(d, TiltLimit, -TiltLimit, ServoLow, ServoHigh) == 95 - d
  {
    assert (d - 30) * 60 == 60 * d - 1800;
  }

  // ---------------------------------------------------------------------
  // The actuator command
  // ---------------------------------------------------------------------

  /** The tilt bound, for a whole-degree tilt. */
  function Saturate(d: int): (r: int)
    ensures -TiltLimit <= r <= TiltLimit
    ensures -TiltLimit <= d <= TiltLimit ==> r == d
    ensures d < -TiltLimit ==> r == -TiltLimit
    ensures d > TiltLimit ==> r == TiltLimit
  {
    if d < -TiltLimit then -TiltLimit else if d > TiltLimit then TiltLimit else d
  }

  /** The servo position for a requested tilt in degrees: truncated, saturated, then mapped. */
  function ServoPosition(fdeg: real): int
  {
    ArduinoMap(Saturate(Trunc(fdeg)), TiltLimit, -TiltLimit, ServoLow, ServoHigh)
  }

  /**
   * Whatever is requested, the servo position stays within 65..125; it is
   * 95 minus the truncated tilt inside the limits, and a larger tilt never
   * gives a larger position.
   */
  lemma ServoPositionBounded(fdeg: real, other: real)
    ensures ServoLow <= ServoPosition(fdeg) <= ServoHigh
    ensures ServoPosition(fdeg) == 95 - Saturate(Trunc(fdeg))
    ensures -31.0 < fdeg < 31.0 ==> ServoPosition(fdeg) == 95 - Trunc(fdeg)
    ensures fdeg <= other ==> ServoPosition(other) <= ServoPosition(fdeg)
  {
    ServoMapReflects(Saturate(Trunc(fdeg)));
    ServoMapReflects(Saturate(Trunc(other)));
    if fdeg <= other {
      TruncMonotone(fdeg, other);
    }
  }

  // ---------------------------------------------------------------------
  // Calibration
  // ---------------------------------------------------------------------

  /** The running minimum over readings xs, started from m: the value left after the calibration's first loop. */
  function FoldMin(m: real, xs: seq<Byte>): real
  {
    if |xs| == 0 then m
    else
      var prev := FoldMin(m, xs[..|xs| - 1]);
      if (xs[|xs| - 1] as real) < prev then xs[|xs| - 1] as real else prev
  }

  /** The running maximum over readings xs, started from m: the value left after the calibration's second loop. */
  function FoldMax(m: real, xs: seq<Byte>): real
  {
    if |xs| == 0 then m
    else
      var prev := FoldMax(m, xs[..|xs| - 1]);
      if (xs[|xs| - 1] as real) > prev then xs[|xs| - 1] as real else prev
  }

  /** The running minimum is at most the start and every reading, and is the start or one of the readings. */
  lemma {:induction false} FoldMinIsMinimum(m: real, xs: seq<Byte>)
    ensures FoldMin(m, xs) <= m
    ensures forall j :: 0 <= j < |xs| ==> FoldMin(m, xs) <= xs[j] as real
    ensures FoldMin(m, xs) == m || exists j :: 0 <= j < |xs| && FoldMin(m, xs) == xs[j] as real
  {
    if |xs| > 0 {
      var init := xs[..|xs| - 1];
      FoldMinIsMinimum(m, init);
      assert forall j :: 0 <= j < |init| ==> init[j] == xs[j];
    }
  }

  /** The running maximum is at least the start and every reading, and is the start or one of the readings. */
  lemma {:induction false} FoldMaxIsMaximum(m: real, xs: seq<Byte>)
    ensures FoldMax(m, xs) >= m
    ensures forall j :: 0 <= j < |xs| ==> FoldMax(m, xs) >= xs[j] as real
    ensures FoldMax(m, xs) == m || exists j :: 0 <= j < |xs| && FoldMax(m, xs) == xs[j] as real
  {
    if |xs| > 0 {
      var init := xs[..|xs| - 1];
      FoldMaxIsMaximum(m, init);
      assert forall j :: 0 <= j < |init| ==> init[j] == xs[j];
    }
  }

  /**
   * From the driver's initial bounds (500 above any byte reading, 10 below
   * most), the first calibration stores the least of its low readings, and
   * the greatest of its high readings unless all of them are at most 10.
   */
  lemma FirstCalibrationFindsExtremes(low: seq<Byte>, high: seq<Byte>)
    requires |low| > 0
    ensures exists j :: 0 <= j < |low| && FoldMin(500.0, low) == low[j] as real
    ensures forall j :: 0 <= j < |low| ==> FoldMin(500.0, low) <= low[j] as real
    ensures forall j :: 0 <= j < |high| ==> FoldMax(10.0, high) >= high[j] as real
    ensures (exists j :: 0 <= j < |high| && high[j] > 10) ==> exists j :: 0 <= j < |high| && FoldMax(10.0, high) == high[j] as real
  {
    FoldMinIsMinimum(500.0, low);
    FoldMaxIsMaximum(10.0, high);
    assert low[0] as real < 500.0;
  }

  // ---------------------------------------------------------------------
  // Unit conversions
  // ---------------------------------------------------------------------

  /** The driver's degree and radian conversions, with pi taken as 3.14. */
  function Deg2Rad(u: real): real { u * (3.14 / 180.0) }
  function Rad2Deg(u: real): real { u * (180.0 / 3.14) }

  lemma DegRadRoundTrip(u: real)
    ensures Rad2Deg(Deg2Rad(u)) == u && Deg2Rad(Rad2Deg(u)) == u
    ensures Deg2Rad(180.0) == 3.14
  {
  }

  // ---------------------------------------------------------------------
  // The driver object
  // ---------------------------------------------------------------------

  /** The driver's state: the global BOBShield object. */
  class Shield {
    /** The last tilt command after truncation and saturation, in degrees. */
    var deg: real
    /** The last servo position computed from it. */
    var degree: int
    /** Offset added to every servo position (public; the driver never changes it). */
    var zeroCompensation: real
    /** 1 once calibration has run, 0 before. */
    var calibrated: Byte
    var minCalibrated: real
    var maxCalibrated: real
    /** Last raw reading and last corrected ball position. */
    var pos: real
    var ballPos: real
    /** The positions written to the servo, oldest first. */
    var servo: seq<int>

    /** A statically allocated driver object: the declared initial values, everything else zero. */
    constructor ()
      ensures deg == 0.0 && degree == 0 && zeroCompensation == 0.0 && calibrated == 0
      ensures minCalibrated == 500.0 && maxCalibrated == 10.0
      ensures pos == 0.0 && ballPos == 0.0 && servo == []
    {
      deg, degree := 0.0, 0;
      zeroCompensation := 0.0;
      calibrated := 0;
      minCalibrated, maxCalibrated := 500.0, 10.0;
      pos, ballPos := 0.0, 0.0;
      servo := [];
    }

    /**
     * Tilt the beam: the request is truncated to whole degrees and
     * saturated to +-30, mapped to a servo position, and that position
     * plus the zero compensation (truncated again) is written to the servo.
     */
    method ActuatorWrite(fdeg: real)
      modifies this`deg, this`degree, this`servo
      ensures deg == Saturate(Trunc(fdeg)) as real
      ensures degree == ServoPosition(fdeg)
      ensures servo == old(servo) + [Trunc(degree as real + zeroCompensation)]
    {
      var d := Trunc(fdeg);
      if d < -TiltLimit {
        d := -TiltLimit;
      } else if d > TiltLimit {
        d := TiltLimit;
      }
      deg := d as real;
      degree := ArduinoMap(d, TiltLimit, -TiltLimit, ServoLow, ServoHigh);
      servo := servo + [Trunc(degree as real + zeroCompensation)];
    }

    /** The first calibration loop: the running minimum of the readings into minCalibrated. */
    method CalibrateMinimum(low: seq<Byte>)
      modifies this`minCalibrated
      ensures minCalibrated == FoldMin(old(minCalibrated), low)
    {
      var j := 0;
      while j < |low|
        invariant 0 <= j <= |low|
        invariant minCalibrated == FoldMin(old(minCalibrated), low[..j])
      {
        var calmeasure := low[j];
        assert low[..j + 1][..j] == low[..j];
        if (calmeasure as real) < minCalibrated {
          minCalibrated := calmeasure as real;
        }
        j := j + 1;
      }
      assert low[..|low|] == low;
    }

    /** The second calibration loop: the running maximum of the readings into maxCalibrated. */
    method CalibrateMaximum(high: seq<Byte>)
      modifies this`maxCalibrated
      ensures maxCalibrated == FoldMax(old(maxCalibrated), high)
    {
      var j := 0;
      while j < |high|
        invariant 0 <= j <= |high|
        invariant maxCalibrated == FoldMax(old(maxCalibrated), high[..j])
      {
        var calmeasure := high[j];
        assert high[..j + 1][..j] == high[..j];
        if (calmeasure as real) > maxCalibrated {
          maxCalibrated := calmeasure as real;
        }
        j := j + 1;
      }
      assert high[..|high|] == high;
    }

    /**
     * The calibration run: full tilt one way and the running minimum of the
     * readings low, full tilt the other way and the running maximum of the
     * readings high, then level; the driver is then calibrated.
     */
    method Calibration(low: seq<Byte>, high: seq<Byte>)
      requires |low| == CalibrationSamples && |high| == CalibrationSamples
      modifies this`deg, this`degree, this`servo, this`minCalibrated, this`maxCalibrated, this`calibrated
      ensures minCalibrated == FoldMin(old(minCalibrated), low)
      ensures maxCalibrated == FoldMax(old(maxCalibrated), high)
      ensures calibrated == 1
      ensures deg == 0.0 && degree == 95
      ensures servo == old(servo) + [Trunc(125.0 + zeroCompensation), Trunc(65.0 + zeroCompensation), Trunc(95.0 + zeroCompensation)]
    {
      ServoPositionBounded(-30.0, -30.0);
      ServoPositionBounded(30.0, 30.0);
      ServoPositionBounded(0.0, 0.0);
      ActuatorWrite(-30.0);
      CalibrateMinimum(low);
      ActuatorWrite(30.0);
      CalibrateMaximum(high);
      ActuatorWrite(0.0);
      calibrated := 1;
    }

    /**
     * Read the sensor (reading is what it returns) and correct it: minus
     * the calibrated minimum once calibrated, minus the default offset
     * before; with any other flag value nothing is read and the previous
     * position is returned.
     */
    method SensorRead(reading: Byte) returns (r: real)
      modifies this`pos, this`ballPos
      ensures calibrated == 1 ==> pos == reading as real && ballPos == reading as real - minCalibrated
      ensures calibrated == 0 ==> pos == reading as real && ballPos == (reading - MinCalibratedDefault) as real
      ensures calibrated != 0 && calibrated != 1 ==> pos == old(pos) && ballPos == old(ballPos)
      ensures r == ballPos
    {
      if calibrated == 1 {
        pos := reading as real;
        ballPos := pos - minCalibrated;
      } else if calibrated == 0 {
        pos := reading as real;
        ballPos := pos - MinCalibratedDefault as real;
      }
      r := ballPos;
    }
  }

  /**
   * After a calibration from the initial state, a reading corrects to its
   * distance above the least low reading: that reading minus one of the
   * low readings, and no more than the reading minus any of them. So it
   * is never negative when no low reading exceeds it, and zero when it
   * equals the least low reading.
   */
  method CalibratedReadingIsOffsetFromMinimum(low: seq<Byte>, high: seq<Byte>, reading: Byte) returns (r: real)
    requires |low| == CalibrationSamples && |high| == CalibrationSamples
    ensures exists j :: 0 <= j < |low| && low[j] as real + r == reading as real
    ensures forall j :: 0 <= j < |low| ==> r >= reading as real - low[j] as real
    ensures (forall j :: 0 <= j < |low| ==> low[j] <= reading) ==> r >= 0.0
    ensures (exists j :: 0 <= j < |low| && low[j] == reading) && (forall j :: 0 <= j < |low| ==> reading <= low[j]) ==> r == 0.0
  {
    var shield := new Shield();
    shield.Calibration(low, high);
    FirstCalibrationFindsExtremes(low, high);
    r := shield.SensorRead(reading);
  }
}
