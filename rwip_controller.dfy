/**
 * The discrete decisions of one controller pass of the RWIP simulator:
 * disturbance injection, folding the angle to a setpoint, the
 * flag-driven mode machine, each mode's voltage law, the actuator
 * clamp and the settle-time / energy accounting.
 */
module RwipController {
  import opened RwipPhysics

  /** Controller modes; Unset stands for the mode variable before anything was assigned to it. */
  datatype Mode = BangBang | Brake | LQR | PID | Unset

  /**
   * Configuration fixed at start-up: the stabilising law (LQR or PID),
   * the stabilisation bound in degrees, whether the voltage limit is
   * enforced, and the two LQR feedback gains K[0,0] and K[0,1].
   */
  datatype Config = Config(stabilizer: Mode, stabilizeBound: real, motorLimit: bool, k0: real, k1: real)

  predicate ValidConfig(cfg: Config)
  {
    (cfg.stabilizer == LQR || cfg.stabilizer == PID) && 0.0 <= cfg.stabilizeBound <= 180.0
  }

  /** Proportional gain of the reduced PID law. */
  const Kp: real := 2143.0
  /** |E| below which the brake releases. */
  const BrakeReleaseEnergy: real := 0.05
  /** Magnitude of the bang-bang and brake voltages. */
  const SwingVoltage: real := 12.0
  /** Actuator voltage limit. */
  const VoltageLimit: real := 24.0
  /** Angular error band (degrees) of the accounting. */
  const SettleBand: real := 0.1

  // ---------------------------------------------------------------------
  // Disturbance torque
  // ---------------------------------------------------------------------

  /**
   * Disturbance torque of one pass: the negated value typed in when an
   * injection was requested and it parsed, and zero otherwise.
   */
  function Disturbance(injectRequested: bool, parsed: Option<real>): (tp: real)
    ensures !injectRequested ==> tp == 0.0
    ensures injectRequested && parsed.None? ==> tp == 0.0
    ensures injectRequested && parsed.Some? ==> tp == -parsed.value
  {
    if injectRequested then
      match parsed
      case Some(v) => -v
      case None => 0.0
    else 0.0
  }

  /** Outcome of parsing the typed text as a number. */
  datatype Option<T> = None | Some(value: T)

  // ---------------------------------------------------------------------
  // Setpoint
  // ---------------------------------------------------------------------

  /**
   * The setpoint after one pass: the whole number of turns nearest to
   * qp, computed from (qp - pi) / 2pi; exactly at qp = pi neither branch
   * fires and the previous setpoint is kept.
   */
  function FoldSetpoint(qp: real, previous: real): (sp: real)
    ensures qp == Pi ==> sp == previous
    ensures qp != Pi ==> IsWholeTurns(sp) && Abs(sp - qp) <= Pi
  {
    var offset := (qp - Pi) / TwoPi;
    if offset < 0.0 then
      var n := offset.Floor + 1;
      WholeTurnsOfInt(n);
      n as real * TwoPi
    else if offset > 0.0 then
      var n := Ceil(offset);
      WholeTurnsOfInt(n);
      n as real * TwoPi
    else
      previous
  }

  /** A setpoint that was a whole number of turns stays one. */
  lemma FoldSetpointKeepsWholeTurns(qp: real, previous: real)
    requires IsWholeTurns(previous)
    ensures IsWholeTurns(FoldSetpoint(qp, previous))
  {
  }

  // ---------------------------------------------------------------------
  // Mode machine
  // ---------------------------------------------------------------------

  /** |qp| mod 2pi lies within the bound (degrees) of 0 or of a full turn. */
  predicate InStabilizeBound(qp: real, bound: real)
  {
    TurnRemainder(Abs(qp)) <= Deg2Rad(bound) || TurnRemainder(Abs(qp)) >= Deg2Rad(360.0 - bound)
  }

  /**
   * Every angle within the bound of a whole number of turns, on either
   * side and with either sign, is inside the stabilisation region.
   */
  lemma NearWholeTurnIsInBound(n: int, delta: real, bound: real)
    requires 0.0 <= bound <= 180.0
    requires Abs(delta) <= Deg2Rad(bound)
    ensures InStabilizeBound(n as real * TwoPi + delta, bound)
  {
    var x := n as real * TwoPi + delta;
    if x >= 0.0 {
      TurnRemainderNear(n, delta);
    } else {
      assert Abs(x) == (-n) as real * TwoPi + (-delta);
      TurnRemainderNear(-n, -delta);
    }
  }

  /** n full turns, in radians. */
  function Turns(n: int): real
  {
    n as real * TwoPi
  }

  /** A non-negative angle whose remainder passes the region test lies within the bound of some whole turn k. */
  lemma NearTurnOfRemainder(a: real, bound: real) returns (k: int)
    requires 0.0 <= bound <= 180.0 && a >= 0.0
    requires TurnRemainder(a) <= Deg2Rad(bound) || TurnRemainder(a) >= Deg2Rad(360.0 - bound)
    ensures Abs(a - Turns(k)) <= Deg2Rad(bound)
  {
    var m := (a / TwoPi).Floor;
    assert TurnRemainder(a) == a - TwoPi * m as real;
    assert Deg2Rad(360.0 - bound) == TwoPi - Deg2Rad(bound);
    k := if TurnRemainder(a) <= Deg2Rad(bound) then m else m + 1;
  }

  /**
   * The stabilisation-region test, read geometrically: qp passes it
   * exactly when some whole number of turns lies within the bound of qp.
   */
  lemma InBoundIffNearWholeTurn(qp: real, bound: real)
    requires 0.0 <= bound <= 180.0
    ensures InStabilizeBound(qp, bound) <==> exists n :: Abs(qp - Turns(n)) <= Deg2Rad(bound)
  {
    var d := Deg2Rad(bound);
    if InStabilizeBound(qp, bound) {
      var k := NearTurnOfRemainder(Abs(qp), bound);
      var n := if qp >= 0.0 then k else -k;
      assert qp - Turns(n) == if qp >= 0.0 then Abs(qp) - Turns(k) else -(Abs(qp) - Turns(k));
      assert Abs(qp - Turns(n)) <= d;
    }
    if exists n :: Abs(qp - Turns(n)) <= d {
      var n :| Abs(qp - Turns(n)) <= d;
      NearWholeTurnIsInBound(n, qp - Turns(n), bound);
      assert n as real * TwoPi + (qp - Turns(n)) == qp;
    }
  }

  /** The mode machine's state: the wait and settled flags and the controller mode. */
  datatype Supervisor = Supervisor(waitFlag: bool, settledFlag: bool, mode: Mode)

  /**
   * The invariant of the mode machine: never waiting and settled at once,
   * and settled only while the stabiliser is the mode.
   */
  predicate SupervisorInv(s: Supervisor, cfg: Config)
  {
    !(s.waitFlag && s.settledFlag) && (s.settledFlag ==> s.mode == cfg.stabilizer)
  }

  /**
   * The pass engages the stabiliser: not braking and inside the region.
   * This is when the stabiliser-active flag of the accounting is raised.
   */
  predicate Engages(s: Supervisor, qp: real, cfg: Config)
  {
    !s.waitFlag && InStabilizeBound(qp, cfg.stabilizeBound)
  }

  /** One pass of the mode machine, in the priority order wait, bound, settled, swing-up. */
  function Classify(s: Supervisor, qp: real, energy: real, cfg: Config): (r: Supervisor)
    ensures !(s.waitFlag && s.settledFlag) ==> !(r.waitFlag && r.settledFlag)
  {
    if s.waitFlag then
      s.(mode := Brake, waitFlag := !(Abs(energy) < BrakeReleaseEnergy))
    else if InStabilizeBound(qp, cfg.stabilizeBound) then
      s.(settledFlag := true, mode := cfg.stabilizer)
    else if s.settledFlag then
      s.(waitFlag := true, settledFlag := false)
    else
      s.(mode := BangBang)
  }

  /**
   * What one pass of the mode machine decides, from a state that keeps
   * its invariant: the brake runs exactly while waiting, the stabiliser
   * exactly when in bound or on the pass that leaves the bound from a
   * settled state, and swing-up otherwise; the mode is always defined
   * afterwards and the invariant is kept.
   */
  lemma ClassifyDecides(s: Supervisor, qp: real, energy: real, cfg: Config)
    requires ValidConfig(cfg) && SupervisorInv(s, cfg)
    ensures var r := Classify(s, qp, energy, cfg);
      var inBound := InStabilizeBound(qp, cfg.stabilizeBound);
      && SupervisorInv(r, cfg)
      && (r.mode == Brake <==> s.waitFlag)
      && (r.mode == cfg.stabilizer <==> !s.waitFlag && (inBound || s.settledFlag))
      && (r.mode == BangBang <==> !s.waitFlag && !inBound && !s.settledFlag)
      && r.mode != Unset
      && (r.waitFlag <==> (s.waitFlag && Abs(energy) >= BrakeReleaseEnergy) || (!s.waitFlag && !inBound && s.settledFlag))
      && (r.settledFlag <==> Engages(s, qp, cfg))
  {
  }

  /**
   * Leaving the stabilisation region from a settled state keeps the
   * stabiliser for that pass and brakes on the next one, wherever the
   * pendulum is then.
   */
  lemma LeavingBoundBrakesNext(s: Supervisor, qp1: real, e1: real, qp2: real, e2: real, cfg: Config)
    requires ValidConfig(cfg) && SupervisorInv(s, cfg)
    requires s.settledFlag && !InStabilizeBound(qp1, cfg.stabilizeBound)
    ensures Classify(s, qp1, e1, cfg).mode == cfg.stabilizer
    ensures Classify(s, qp1, e1, cfg).waitFlag
    ensures Classify(Classify(s, qp1, e1, cfg), qp2, e2, cfg).mode == Brake
  {
    ClassifyDecides(s, qp1, e1, cfg);
  }

  /** Near any whole number of turns and not waiting, the configured stabiliser runs. */
  lemma NearUprightSelectsStabilizer(s: Supervisor, n: int, delta: real, energy: real, cfg: Config)
    requires ValidConfig(cfg) && !s.waitFlag
    requires Abs(delta) <= Deg2Rad(cfg.stabilizeBound)
    ensures Classify(s, n as real * TwoPi + delta, energy, cfg).mode == cfg.stabilizer
    ensures Classify(s, n as real * TwoPi + delta, energy, cfg).settledFlag
  {
    NearWholeTurnIsInBound(n, delta, cfg.stabilizeBound);
  }

  // ---------------------------------------------------------------------
  // Voltage laws and the clamp
  // ---------------------------------------------------------------------

  /** Bang-bang swing-up law, with the source's three branches. */
  function BangBangVoltage(qpD: real, energy: real, reqE: real): real
  {
    if (qpD < 0.0 && energy < reqE) || (qpD >= 0.0 && energy >= reqE) then SwingVoltage
    else if (qpD >= 0.0 && energy < reqE) || (qpD < 0.0 && energy >= reqE) then -SwingVoltage
    else 0.0
  }

  /** Brake law: full voltage with the sign of the pendulum's speed. */
  function BrakeVoltage(qpD: real): real
  {
    if qpD < 0.0 then -SwingVoltage else SwingVoltage
  }

  /** Voltage demanded by the given mode, before the clamp. */
  function VoltageLaw(mode: Mode, setpoint: real, qp: real, qpD: real, energy: real, reqE: real, cfg: Config): (v: real)
    ensures mode == LQR ==> v == cfg.k0 * (setpoint - qp) - cfg.k1 * qpD
    ensures mode == PID ==> v == Kp * (qp - setpoint)
    ensures mode == Unset ==> v == 0.0
  {
    match mode
    case LQR => (setpoint - qp) * cfg.k0 + qpD * -cfg.k1
    case PID => -(setpoint - qp) * Kp
    case BangBang => BangBangVoltage(qpD, energy, reqE)
    case Brake => BrakeVoltage(qpD)
    case Unset => 0.0
  }

  /**
   * Swing-up and brake always demand exactly +-12 V, so the zero branch
   * of the swing-up law is dead: swing-up pushes with +12 V exactly when
   * "moving backwards" and "short of the required energy" agree, the
   * brake pushes with -12 V exactly when the pendulum moves backwards.
   */
  lemma SwingAndBrakeAreFullVoltage(setpoint: real, qp: real, qpD: real, energy: real, reqE: real, cfg: Config)
    ensures var v := VoltageLaw(BangBang, setpoint, qp, qpD, energy, reqE, cfg);
      (v == SwingVoltage || v == -SwingVoltage) && (v == SwingVoltage <==> ((qpD < 0.0) <==> (energy < reqE)))
    ensures var v := VoltageLaw(Brake, setpoint, qp, qpD, energy, reqE, cfg);
      (v == SwingVoltage || v == -SwingVoltage) && (v == -SwingVoltage <==> qpD < 0.0)
  {
  }

  /**
   * The brake takes the sign of the pendulum's speed, and through the
   * wheel's reaction torque it opposes that speed: from an idle wheel the
   * brake's motor torque has the speed's sign, so it lowers the pendulum's
   * acceleration when the speed is non-negative and raises it when negative.
   */
  lemma BrakeOpposesSpeed(sin: real -> real, w: Wheel, dt: real, q: real, tp: real, qpD: real)
    requires dt > 0.0 && w.qrD == 0.0 && w.currD == 0.0
    ensures var tm := MotorStep(w, BrakeVoltage(qpD), dt).1;
      && (qpD >= 0.0 ==> tm > 0.0 && RwipDynamics(sin, q, tm, tp, qpD) < RwipDynamics(sin, q, 0.0, tp, qpD))
      && (qpD < 0.0 ==> tm < 0.0 && RwipDynamics(sin, q, tm, tp, qpD) > RwipDynamics(sin, q, 0.0, tp, qpD))
  {
    var tm := MotorStep(w, BrakeVoltage(qpD), dt).1;
    assert tm == Kt * (BrakeVoltage(qpD) / Resistance);
    TorquesActThroughDivisor(sin, q, 0.0, tp, qpD, tm);
  }

  /** At rest on the setpoint, either stabilising law demands no voltage. */
  lemma StabilizerQuietOnSetpoint(mode: Mode, setpoint: real, energy: real, reqE: real, cfg: Config)
    requires mode == LQR || mode == PID
    ensures VoltageLaw(mode, setpoint, setpoint, 0.0, energy, reqE, cfg) == 0.0
  {
  }

  /**
   * The applied voltage: clamped to [-24, 24] when the limit is on,
   * passed through otherwise. A clamped value keeps its sign, and a value
   * already in range is unchanged.
   */
  function Clamp(v: real, motorLimit: bool): (r: real)
    ensures motorLimit ==> -VoltageLimit <= r <= VoltageLimit
    ensures !motorLimit || -VoltageLimit <= v <= VoltageLimit ==> r == v
    ensures (r > 0.0 <==> v > 0.0) && (r < 0.0 <==> v < 0.0)
    ensures Abs(r) <= Abs(v)
  {
    if motorLimit then
      if v > VoltageLimit then VoltageLimit
      else if v < -VoltageLimit then -VoltageLimit
      else v
    else v
  }

  /** With the limit on, a demand beyond it is applied as the limit with the demand's sign. */
  lemma ClampSaturates(v: real)
    requires Abs(v) > VoltageLimit
    ensures Clamp(v, true) == if v > 0.0 then VoltageLimit else -VoltageLimit
  {
  }

  /**
   * Upright (qp = 0) and not braking: the setpoint folds to 0, the
   * stabiliser runs without entering the brake, and with the pendulum
   * at rest it demands no voltage, clamped or not.
   */
  lemma UprightPassIsQuiet(s: Supervisor, previous: real, energy: real, reqE: real, cfg: Config)
    requires ValidConfig(cfg) && !s.waitFlag
    ensures FoldSetpoint(0.0, previous) == 0.0
    ensures Classify(s, 0.0, energy, cfg).mode == cfg.stabilizer
    ensures !Classify(s, 0.0, energy, cfg).waitFlag
    ensures Clamp(VoltageLaw(cfg.stabilizer, 0.0, 0.0, 0.0, energy, reqE, cfg), cfg.motorLimit) == 0.0
  {
    assert ((0.0 - Pi) / TwoPi).Floor == -1;
    assert TurnRemainder(Abs(0.0)) == 0.0 by {
      assert (0.0 / TwoPi).Floor == 0;
    }
    StabilizerQuietOnSetpoint(cfg.stabilizer, 0.0, energy, reqE, cfg);
  }

  // ---------------------------------------------------------------------
  // Accounting
  // ---------------------------------------------------------------------

  /** Settle time and actuation energy, with the stabiliser-active flag and its value on the previous pass. */
  datatype Accounts = Accounts(time: real, energy: real, statFlag: bool, statFlagLast: bool)

  /** The pendulum is within the settle band (in degrees) of the setpoint. */
  predicate InSettleBand(qp: real, setpoint: real)
  {
    Abs(Rad2Deg(qp) - Rad2Deg(setpoint)) < SettleBand
  }

  /**
   * End-of-pass accounting: in the band the active flag drops; otherwise,
   * while active, time and |qr_d * Tm| * dt accumulate; the counters are
   * zeroed when the mode is not the stabiliser (the re-entry condition
   * the source also tests can never hold, since the flag was just
   * dropped in the band).
   */
  function Account(a: Accounts, mode: Mode, stabilizer: Mode, qp: real, setpoint: real, qrD: real, tm: real, dt: real): (r: Accounts)
    requires dt > 0.0
    ensures r.statFlagLast == r.statFlag
    ensures r.statFlag <==> a.statFlag && !InSettleBand(qp, setpoint)
  {
    var inBand := InSettleBand(qp, setpoint);
    var stat := if inBand then false else a.statFlag;
    var time := if !inBand && a.statFlag then a.time + dt else a.time;
    var energy := if !inBand && a.statFlag then a.energy + Abs(qrD * tm) * dt else a.energy;
    var reset := mode != stabilizer || (!a.statFlagLast && stat && inBand);
    Accounts(if reset then 0.0 else time, if reset then 0.0 else energy, stat, stat)
  }

  /**
   * The counters are zeroed exactly when the mode is not the stabiliser;
   * under the stabiliser they never decrease, time grows by dt exactly
   * while active and out of band, and energy never goes negative.
   */
  lemma AccountResetsExactlyOffStabilizer(a: Accounts, mode: Mode, stabilizer: Mode, qp: real, setpoint: real, qrD: real, tm: real, dt: real)
    requires dt > 0.0 && a.time >= 0.0 && a.energy >= 0.0
    ensures var r := Account(a, mode, stabilizer, qp, setpoint, qrD, tm, dt);
      && (mode != stabilizer ==> r.time == 0.0 && r.energy == 0.0)
      && (mode == stabilizer ==> r.time >= a.time && r.energy >= a.energy)
      && (mode == stabilizer ==> (r.time == a.time + dt <==> a.statFlag && !InSettleBand(qp, setpoint)))
      && (mode == stabilizer ==> (r.time == a.time <==> !(a.statFlag && !InSettleBand(qp, setpoint))))
      && r.time >= 0.0 && r.energy >= 0.0
  {
    var e := Abs(qrD * tm);
    assert e * dt >= 0.0;
  }
}
