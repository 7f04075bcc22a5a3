/**
 * Physical model of the reaction-wheel inverted pendulum (RWIP) demo:
 * the constants of the rig, the angle helpers the controller uses, the
 * pendulum's mechanical energy, and one semi-implicit Euler step of the
 * DC motor and of the pendulum. Everything is over exact reals; the
 * trigonometric functions are passed in, since only sin(0) = 0 is ever
 * needed about them.
 */
module RwipPhysics {

  // ---------------------------------------------------------------------
  // Constants of the rig (SI units)
  // ---------------------------------------------------------------------

  /** Python's math.pi, as the decimal it prints. */
  const Pi: real := 3.141592653589793
  const TwoPi: real := 2.0 * Pi

  const Gravity: real := 9.81
  const WheelRadius: real := 0.3
  const WheelHeight: real := 0.01
  const WheelDensity: real := 1250.0
  const MotorMass: real := 0.1
  /** Wheel mass: a PLA disc (with pi taken as 3.14) plus the motor. */
  const WheelMass: real := 3.14 * WheelRadius * WheelRadius * WheelHeight * WheelDensity + MotorMass

  /** DC motor: inertia, gear ratio, back-EMF and torque constants, armature resistance and inductance, damping. */
  const MotorInertia: real := 0.0027
  const GearRatio: real := 0.83
  const Ke: real := 0.0369
  const Kt: real := Ke * GearRatio
  const Resistance: real := 2.85
  const Inductance: real := 0.000373
  const MotorDamping: real := 0.00385

  /** Pendulum: length to the centre of mass, length to the wheel, mass, inertia, damping. */
  const PendulumLength: real := 0.5
  const WheelArm: real := PendulumLength
  const PendulumMass: real := WheelMass
  const PendulumInertia: real := WheelMass * PendulumLength * PendulumLength
  const PendulumDamping: real := 0.01

  /**
   * Effective inertia dividing the pendulum's torque balance, as the
   * simulator writes it: the wheel term is m2 * L2 (not m2 * L2^2).
   */
  const PendulumDivisor: real :=
    PendulumMass * PendulumLength * PendulumLength + WheelMass * WheelArm + PendulumInertia

  // ---------------------------------------------------------------------
  // Real-number helpers
  // ---------------------------------------------------------------------

  function Abs(x: real): (r: real)
    ensures r >= 0.0 && (r == x || r == -x)
  {
    if x < 0.0 then -x else x
  }

  /** Python's math.ceil, through Floor. */
  function Ceil(x: real): (n: int)
    ensures x <= n as real < x + 1.0
  {
    -((-x).Floor)
  }

  /** numpy's deg2rad and rad2deg. */
  function Deg2Rad(x: real): real { x * (Pi / 180.0) }
  function Rad2Deg(x: real): real { x * (180.0 / Pi) }

  /**
   * Python's `x % (2 * math.pi)`: the remainder that has the sign of the
   * divisor, x - 2pi * floor(x / 2pi).
   */
  function TurnRemainder(x: real): (r: real)
    ensures 0.0 <= r < TwoPi
    ensures IsWholeTurns(x - r)
  {
    var n := (x / TwoPi).Floor;
    assert IsWholeTurns(n as real * TwoPi) by { WholeTurnsOfInt(n); }
    x - TwoPi * n as real
  }

  /** x is an integer number of full turns. */
  predicate IsWholeTurns(x: real)
  {
    (x / TwoPi).Floor as real == x / TwoPi
  }

  lemma WholeTurnsOfInt(n: int)
    ensures IsWholeTurns(n as real * TwoPi)
  {
    assert (n as real * TwoPi) / TwoPi == n as real;
  }

  /**
   * The remainder of a non-negative angle that lies within half a turn
   * of a whole number of turns: the offset itself, or a full turn plus
   * the (negative) offset.
   */
  lemma TurnRemainderNear(m: int, d: real)
    requires -Pi <= d <= Pi
    requires m as real * TwoPi + d >= 0.0
    ensures TurnRemainder(m as real * TwoPi + d) == if d >= 0.0 then d else TwoPi + d
  {
    var x := m as real * TwoPi + d;
    assert x / TwoPi == m as real + d / TwoPi;
    if d >= 0.0 {
      assert (x / TwoPi).Floor == m;
    } else {
      assert (x / TwoPi).Floor == m - 1;
    }
  }

  // ---------------------------------------------------------------------
  // Pendulum
  // ---------------------------------------------------------------------

  /**
   * Mechanical energy of the pendulum-wheel assembly at angle q and
   * angular speed qpD: the kinetic terms plus (m1 + m2) g L2 cos q.
   */
  function PendulumEnergy(cos: real -> real, q: real, qpD: real): real
  {
    var kinetic := 0.5 * PendulumMass * (qpD * PendulumLength) * (qpD * PendulumLength)
                 + 0.5 * WheelMass * (qpD * WheelArm) * (qpD * WheelArm)
                 + 0.5 * MotorInertia * qpD * qpD
                 + 0.5 * PendulumInertia * qpD * qpD;
    kinetic + (PendulumMass + WheelMass) * Gravity * WheelArm * cos(q)
  }

  /** Energy needed to reach the upright position at rest (the swing-up target). */
  function RequiredEnergy(cos: real -> real): real
  {
    (PendulumMass + WheelMass) * Gravity * WheelArm * cos(0.0)
  }

  lemma EnergyAtRest(cos: real -> real, q: real)
    ensures PendulumEnergy(cos, q, 0.0) == (PendulumMass + WheelMass) * Gravity * WheelArm * cos(q)
    ensures PendulumEnergy(cos, 0.0, 0.0) == RequiredEnergy(cos)
  {
  }

  /** Half the total inertia about the pivot that the pendulum's speed sees. */
  const KineticCoefficient: real :=
    0.5 * (PendulumMass * PendulumLength * PendulumLength + WheelMass * WheelArm * WheelArm
           + MotorInertia + PendulumInertia)

  /**
   * Motion only adds energy: at a given angle the energy exceeds its
   * value at rest by a positive multiple of the squared speed, so it is
   * least at rest.
   */
  lemma EnergyLeastAtRest(cos: real -> real, q: real, qpD: real)
    ensures KineticCoefficient > 0.0
    ensures PendulumEnergy(cos, q, qpD) == PendulumEnergy(cos, q, 0.0) + KineticCoefficient * (qpD * qpD)
    ensures PendulumEnergy(cos, q, qpD) >= PendulumEnergy(cos, q, 0.0)
  {
  }

  /**
   * Angular acceleration of the pendulum under gravity on both masses,
   * the wheel's reaction torque tr, the disturbance tp and damping.
   */
  function RwipDynamics(sin: real -> real, q: real, tr: real, tp: real, qpD: real): real
  {
    (PendulumMass * Gravity * PendulumLength * sin(q) + WheelMass * Gravity * WheelArm * sin(q)
      - tr + tp - PendulumDamping * qpD) / PendulumDivisor
  }

  /**
   * The wheel's reaction torque decelerates the pendulum and the
   * disturbance accelerates it, each by its value over the (positive)
   * effective inertia.
   */
  lemma TorquesActThroughDivisor(sin: real -> real, q: real, tr: real, tp: real, qpD: real, delta: real)
    ensures PendulumDivisor > 0.0
    ensures RwipDynamics(sin, q, tr + delta, tp, qpD) == RwipDynamics(sin, q, tr, tp, qpD) - delta / PendulumDivisor
    ensures RwipDynamics(sin, q, tr, tp + delta, qpD) == RwipDynamics(sin, q, tr, tp, qpD) + delta / PendulumDivisor
  {
  }

  // ---------------------------------------------------------------------
  // Motor and plant integration
  // ---------------------------------------------------------------------

  /** Reaction-wheel state the motor step updates. */
  datatype Wheel = Wheel(qr: real, qrD: real, currPrev: real, currD: real)

  /** State of the whole plant. */
  datatype Plant = Plant(qp: real, qpD: real, wheel: Wheel)

  /** Armature current from terminal voltage, back-EMF and inductance drop. */
  function MotorCurrent(vin: real, qrD: real, currD: real): real
  {
    (vin - qrD * Ke - Inductance * currD) / Resistance
  }

  /**
   * One motor step: the new wheel state and the motor torque. The wheel
   * angle integrates the already-updated speed (semi-implicit Euler).
   */
  function MotorStep(w: Wheel, vin: real, dt: real): (res: (Wheel, real))
    requires dt > 0.0
    ensures var curr := MotorCurrent(vin, w.qrD, w.currD);
      && res.1 == Kt * curr
      && res.0.currPrev == curr
      && res.0.currD == (curr - w.currPrev) / dt
      && res.0.qrD == w.qrD + (res.1 - MotorDamping * w.qrD) / MotorInertia * dt
      && res.0.qr == w.qr + res.0.qrD * dt
  {
    var curr := MotorCurrent(vin, w.qrD, w.currD);
    var currD := (curr - w.currPrev) / dt;
    var tm := curr * Kt;
    var qrDD := (tm - MotorDamping * w.qrD) / MotorInertia;
    var qrD := w.qrD + qrDD * dt;
    var qr := w.qr + qrD * dt;
    (Wheel(qr, qrD, curr, currD), tm)
  }

  /** With no voltage, no wheel speed and no current change, the wheel does not move and no torque is produced. */
  lemma MotorIdle(w: Wheel, dt: real)
    requires dt > 0.0 && w.qrD == 0.0 && w.currD == 0.0
    ensures MotorStep(w, 0.0, dt).1 == 0.0
    ensures MotorStep(w, 0.0, dt).0.qrD == 0.0 && MotorStep(w, 0.0, dt).0.qr == w.qr
    ensures MotorStep(w, 0.0, dt).0.currPrev == 0.0
  {
    assert MotorCurrent(0.0, 0.0, 0.0) == 0.0;
  }

  /**
   * One plant step: the motor first, then the pendulum with the motor
   * torque as reaction torque; velocity is updated before the angle.
   */
  function PlantStep(sin: real -> real, p: Plant, vin: real, tp: real, dt: real): (res: (Plant, real))
    requires dt > 0.0
    ensures res.1 == MotorStep(p.wheel, vin, dt).1
    ensures res.0.wheel == MotorStep(p.wheel, vin, dt).0
    ensures res.0.qpD == p.qpD + RwipDynamics(sin, p.qp, res.1, tp, p.qpD) * dt
    ensures res.0.qp == p.qp + res.0.qpD * dt
  {
    var (wheel, tm) := MotorStep(p.wheel, vin, dt);
    var qpDD := RwipDynamics(sin, p.qp, tm, tp, p.qpD);
    var qpD := p.qpD + qpDD * dt;
    (Plant(p.qp + qpD * dt, qpD, wheel), tm)
  }

  /** The plant at rest, upright, with the wheel idle and no current. */
  predicate UprightAtRest(p: Plant)
  {
    p.qp == 0.0 && p.qpD == 0.0 && p.wheel.qrD == 0.0 && p.wheel.currPrev == 0.0 && p.wheel.currD == 0.0
  }

  /** Upright rest is a fixed point of the plant with no voltage and no disturbance. */
  lemma UprightRestIsFixedPoint(sin: real -> real, p: Plant, dt: real)
    requires sin(0.0) == 0.0 && dt > 0.0 && UprightAtRest(p)
    ensures PlantStep(sin, p, 0.0, 0.0, dt).0 == p
    ensures PlantStep(sin, p, 0.0, 0.0, dt).1 == 0.0
  {
    MotorIdle(p.wheel, dt);
    assert RwipDynamics(sin, 0.0, 0.0, 0.0, 0.0) == 0.0;
  }

  /** n plant steps with no voltage and no disturbance. */
  function Coast(sin: real -> real, p: Plant, dt: real, n: nat): Plant
    requires dt > 0.0
    decreases n
  {
    if n == 0 then p else Coast(sin, PlantStep(sin, p, 0.0, 0.0, dt).0, dt, n - 1)
  }

  lemma {:induction false} UprightRestPersists(sin: real -> real, p: Plant, dt: real, n: nat)
    requires sin(0.0) == 0.0 && dt > 0.0 && UprightAtRest(p)
    ensures Coast(sin, p, dt, n) == p
  {
    if n > 0 {
      UprightRestIsFixedPoint(sin, p, dt);
      UprightRestPersists(sin, p, dt, n - 1);
    }
  }
}
