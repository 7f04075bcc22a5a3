/**
 * The RWIP simulator's main loop as an object: its fields are the loop's
 * globals, Step is one pass of the loop (disturbance, controller, plant,
 * logs, accounting) and the event handlers are the reset button and the
 * disturbance text field. Rendering, window handling and the frame clock
 * are not part of this model; the step size is an input.
 */
module RwipSimulation {
  import opened RwipPhysics
  import opened RwipController

  /** Initial pendulum angle, in degrees (hanging down). */
  const InitQp: real := 180.0

  /** The five series plotted on request: time, angle, setpoint, motor torque and wheel speed, one entry per pass. */
  datatype Logs = Logs(time: seq<real>, qp: seq<real>, setpoint: seq<real>, tm: seq<real>, qrD: seq<real>)
  {
    predicate Aligned()
    {
      |qp| == |time| && |setpoint| == |time| && |tm| == |time| && |qrD| == |time|
    }

    function Append(t: real, q: real, sp: real, torque: real, speed: real): (r: Logs)
      ensures Aligned() ==> r.Aligned() && |r.time| == |time| + 1
    {
      Logs(time + [t], qp + [q], setpoint + [sp], tm + [torque], qrD + [speed])
    }
  }

  const NoLogs: Logs := Logs([], [], [], [], [])

  /**
   * The simulator's loop state. The globals are grouped as the plant
   * (qp, qp_d and the wheel's qr, qr_d, curr_prev, curr_d), the mode
   * machine (wait_flag, settled_flag, controller_mode), the accounting
   * (controller_time, controller_energy, controller_stat_flag and its
   * previous value) and the logs; the others are fields of their own.
   */
  class Simulation {
    const cfg: Config
    /** The trigonometric functions and Python's float() on the typed text. */
    const sin: real -> real
    const cos: real -> real
    const parseFloat: string -> Option<real>

    var plant: Plant
    var tm: real
    var tp: real
    var vin: real
    var setpoint: real
    /** The setpoint as a number of full turns. */
    ghost var setpointTurns: int
    var sup: Supervisor
    var acc: Accounts
    var timedt: real
    var inputFlag: bool
    var inputString: string
    var logs: Logs

    /**
     * The loop's invariant: the mode machine never waits and is settled
     * at once, the setpoint is a whole number of turns, the counters are
     * non-negative and the five logs have one entry per pass.
     */
    ghost predicate Valid()
      reads this
    {
      && ValidConfig(cfg)
      && SupervisorInv(sup, cfg)
      && setpoint == setpointTurns as real * TwoPi
      && acc.time >= 0.0 && acc.energy >= 0.0
      && logs.Aligned()
    }

    /** The state before the loop's first pass. */
    constructor (cfg: Config, sin: real -> real, cos: real -> real, parseFloat: string -> Option<real>)
      requires ValidConfig(cfg)
      ensures Valid()
      ensures this.cfg == cfg && this.sin == sin && this.cos == cos && this.parseFloat == parseFloat
      ensures plant == Plant(Deg2Rad(InitQp), 0.0, Wheel(0.0, 0.0, 0.0, 0.0))
      ensures tm == 0.0 && tp == 0.0 && setpoint == 0.0
      ensures sup == Supervisor(false, false, Unset) && acc == Accounts(0.0, 0.0, false, false) && timedt == 0.0
      ensures !inputFlag && inputString == "" && logs == NoLogs
    {
      this.cfg := cfg;
      this.sin := sin;
      this.cos := cos;
      this.parseFloat := parseFloat;
      plant := Plant(Deg2Rad(InitQp), 0.0, Wheel(0.0, 0.0, 0.0, 0.0));
      tm, tp, vin := 0.0, 0.0, 0.0;
      setpoint, setpointTurns := 0.0, 0;
      sup := Supervisor(false, false, Unset);
      acc := Accounts(0.0, 0.0, false, false);
      timedt := 0.0;
      inputFlag, inputString := false, "";
      logs := NoLogs;
    }

    /** One motor step on the wheel; returns the motor torque. */
    method MotorDynamics(v: real, dt: real) returns (torque: real)
      requires dt > 0.0
      modifies this`plant
      ensures plant == old(plant).(wheel := MotorStep(old(plant).wheel, v, dt).0)
      ensures torque == MotorStep(old(plant).wheel, v, dt).1
    {
      var Wheel(qr, qrD, currPrev, currD) := plant.wheel;
      var curr := (v - (qrD * Ke) - (Inductance * currD)) / Resistance;
      currD := (curr - currPrev) / dt;
      torque := curr * Kt;
      var qrDD := (torque - MotorDamping * qrD) / MotorInertia;
      qrD := qrD + (qrDD * dt);
      qr := qr + (qrD * dt);
      currPrev := curr;
      plant := plant.(wheel := Wheel(qr, qrD, currPrev, currD));
    }

    /** The disturbance phase: a requested injection takes the typed value (negated), or clears an unparsable text. */
    method InjectDisturbance()
      requires Valid()
      modifies this`tp, this`inputFlag, this`inputString
      ensures Valid()
      ensures !inputFlag
      ensures tp == Disturbance(old(inputFlag), parseFloat(old(inputString)))
      ensures inputString == if old(inputFlag) && parseFloat(old(inputString)).None? then "" else old(inputString)
    {
      if inputFlag {
        match parseFloat(inputString) {
          case Some(value) =>
            tp := -value;
          case None =>
            tp := 0.0;
            inputString := "";
        }
        inputFlag := false;
      } else {
        tp := 0.0;
      }
    }

    /** The setpoint phase: the nearest whole number of turns, the old setpoint when exactly half a turn off. */
    method UpdateSetpoint()
      requires Valid()
      modifies this`setpoint, this`setpointTurns
      ensures Valid()
      ensures setpoint == FoldSetpoint(plant.qp, old(setpoint))
    {
      var offset := (plant.qp - Pi) / TwoPi;
      if offset < 0.0 {
        setpoint := (offset.Floor + 1) as real * TwoPi;
        setpointTurns := offset.Floor + 1;
      } else if offset > 0.0 {
        setpoint := Ceil(offset) as real * TwoPi;
        setpointTurns := Ceil(offset);
      }
    }

    /**
     * The mode-machine phase at pendulum energy e; returns the active
     * flag, which is raised whenever the stabilisation region is entered.
     */
    method Supervise(e: real) returns (statFlag: bool)
      requires Valid()
      modifies this`sup
      ensures Valid()
      ensures sup == Classify(old(sup), plant.qp, e, cfg)
      ensures sup.mode != Unset
      ensures statFlag == (acc.statFlag || Engages(old(sup), plant.qp, cfg))
    {
      var qp := plant.qp;
      var waitFlag, settledFlag, mode := sup.waitFlag, sup.settledFlag, sup.mode;
      statFlag := acc.statFlag;
      if waitFlag {
        mode := Brake;
        if Abs(e) < BrakeReleaseEnergy {
          waitFlag := false;
        }
      } else if TurnRemainder(Abs(qp)) <= Deg2Rad(cfg.stabilizeBound) || TurnRemainder(Abs(qp)) >= Deg2Rad(360.0 - cfg.stabilizeBound) {
        settledFlag := true;
        mode := cfg.stabilizer;
        statFlag := true;
      } else {
        if settledFlag {
          waitFlag := true;
          settledFlag := false;
        }
        if !waitFlag {
          mode := BangBang;
        }
      }
      ClassifyDecides(sup, qp, e, cfg);
      sup := Supervisor(waitFlag, settledFlag, mode);
    }

    /** The control phase: the current mode's voltage law, then the actuator limit. */
    method Command(e: real)
      requires Valid()
      modifies this`vin
      ensures Valid()
      ensures vin == Clamp(VoltageLaw(sup.mode, setpoint, plant.qp, plant.qpD, e, RequiredEnergy(cos), cfg), cfg.motorLimit)
    {
      var qp, qpD, mode := plant.qp, plant.qpD, sup.mode;
      var reqE := RequiredEnergy(cos);
      var v: real;
      if mode == LQR {
        var err := setpoint - qp;
        v := err * cfg.k0 + qpD * -cfg.k1;
      } else if mode == PID {
        var err := setpoint - qp;
        v := -err * Kp;
      } else if mode == BangBang {
        if (qpD < 0.0 && e < reqE) || (qpD >= 0.0 && e >= reqE) {
          v := SwingVoltage;
        } else if (qpD >= 0.0 && e < reqE) || (qpD < 0.0 && e >= reqE) {
          v := -SwingVoltage;
        } else {
          v := 0.0;
        }
      } else if mode == Brake {
        v := vin;
        if qpD < 0.0 {
          v := -SwingVoltage;
        } else if qpD >= 0.0 {
          v := SwingVoltage;
        }
      } else {
        v := 0.0;
      }
      if cfg.motorLimit {
        if v > VoltageLimit {
          v := VoltageLimit;
        } else if v < -VoltageLimit {
          v := -VoltageLimit;
        }
      }
      vin := v;
    }

    /** The plant phase: the motor, then the pendulum (velocity before angle). */
    method Integrate(dt: real)
      requires Valid() && dt > 0.0
      modifies this`plant, this`tm
      ensures Valid()
      ensures plant == PlantStep(sin, old(plant), vin, tp, dt).0
      ensures tm == PlantStep(sin, old(plant), vin, tp, dt).1
    {
      var qp, qpD := plant.qp, plant.qpD;
      tm := MotorDynamics(vin, dt);
      var qpDD := RwipDynamics(sin, qp, tm, tp, qpD);
      qpD := qpD + (qpDD * dt);
      qp := qp + (qpD * dt);
      plant := plant.(qp := qp, qpD := qpD);
    }

    /**
     * The bookkeeping phase: one entry per log, the clock advanced, and
     * the active-time and energy counters, given the active flag statFlag
     * the mode machine left.
     */
    method Record(statFlag: bool, dt: real)
      requires Valid() && dt > 0.0
      modifies this`logs, this`timedt, this`acc
      ensures Valid()
      ensures logs == old(logs).Append(old(timedt), plant.qp, setpoint, tm, plant.wheel.qrD)
      ensures timedt == old(timedt) + dt
      ensures acc == Account(old(acc).(statFlag := statFlag), sup.mode, cfg.stabilizer, plant.qp, setpoint, plant.wheel.qrD, tm, dt)
    {
      var qp, qrD := plant.qp, plant.wheel.qrD;
      logs := logs.Append(timedt, qp, setpoint, tm, qrD);
      timedt := timedt + dt;
      ghost var acc0 := acc.(statFlag := statFlag);
      var stat := statFlag;
      var time, energy, statFlagLast := acc.time, acc.energy, acc.statFlagLast;
      if Abs(Rad2Deg(qp) - Rad2Deg(setpoint)) < SettleBand {
        stat := false;
      } else if stat {
        time := time + dt;
        energy := energy + Abs(qrD * tm) * dt;
      }
      if sup.mode != cfg.stabilizer || (!statFlagLast && stat && Abs(Rad2Deg(qp) - Rad2Deg(setpoint)) < SettleBand) {
        time := 0.0;
        energy := 0.0;
      }
      statFlagLast := stat;
      acc := Accounts(time, energy, stat, statFlagLast);
      AccountResetsExactlyOffStabilizer(acc0, sup.mode, cfg.stabilizer, qp, setpoint, qrD, tm, dt);
    }

    /**
     * One pass of the main loop with step size dt: the disturbance, the
     * setpoint fold, the mode machine, the mode's voltage law and the
     * clamp, one plant step, the logs and the accounting.
     */
    method Step(dt: real)
      requires Valid() && dt > 0.0
      modifies this
      ensures Valid()
      ensures !inputFlag
      ensures tp == Disturbance(old(inputFlag), parseFloat(old(inputString)))
      ensures inputString == if old(inputFlag) && parseFloat(old(inputString)).None? then "" else old(inputString)
      ensures setpoint == FoldSetpoint(old(plant.qp), old(setpoint))
      ensures sup == Classify(old(sup), old(plant.qp), PendulumEnergy(cos, old(plant.qp), old(plant.qpD)), cfg)
      ensures sup.mode != Unset
      ensures vin == Clamp(VoltageLaw(sup.mode, setpoint, old(plant.qp), old(plant.qpD),
                                      PendulumEnergy(cos, old(plant.qp), old(plant.qpD)), RequiredEnergy(cos), cfg), cfg.motorLimit)
      ensures plant == PlantStep(sin, old(plant), vin, tp, dt).0
      ensures tm == PlantStep(sin, old(plant), vin, tp, dt).1
      ensures acc == Account(old(acc).(statFlag := old(acc.statFlag) || Engages(old(sup), old(plant.qp), cfg)),
                             sup.mode, cfg.stabilizer, plant.qp, setpoint, plant.wheel.qrD, tm, dt)
      ensures timedt == old(timedt) + dt
      ensures logs == old(logs).Append(old(timedt), plant.qp, setpoint, tm, plant.wheel.qrD)
    {
      InjectDisturbance();
      UpdateSetpoint();
      var e := PendulumEnergy(cos, plant.qp, plant.qpD);
      var statFlag := Supervise(e);
      Command(e);
      Integrate(dt);
      Record(statFlag, dt);
    }

    /**
     * The reset button: the pendulum and wheel back to their initial
     * angles and speeds, no torques, the flags, logs, time and counters
     * cleared. The motor current, setpoint, mode and active flag are
     * left as they were.
     */
    method Reset()
      requires Valid()
      modifies this
      ensures Valid()
      ensures plant == Plant(Deg2Rad(InitQp), 0.0, old(plant).wheel.(qr := 0.0, qrD := 0.0))
      ensures tm == 0.0 && tp == 0.0 && timedt == 0.0 && logs == NoLogs
      ensures sup == old(sup).(waitFlag := false, settledFlag := false)
      ensures acc == old(acc).(time := 0.0, energy := 0.0)
      ensures setpoint == old(setpoint) && vin == old(vin)
      ensures inputFlag == old(inputFlag) && inputString == old(inputString)
    {
      plant := Plant(Deg2Rad(InitQp), 0.0, plant.wheel.(qr := 0.0, qrD := 0.0));
      tm := 0.0;
      tp := 0.0;
      sup := sup.(settledFlag := false, waitFlag := false);
      timedt := 0.0;
      logs := NoLogs;
      acc := acc.(time := 0.0, energy := 0.0);
    }

    /** The inject button, or Return in the text field: inject on the next pass. */
    method RequestInjection()
      modifies this`inputFlag
      ensures inputFlag
    {
      inputFlag := true;
    }

    /** Text typed into the disturbance field is appended to it. */
    method TypeText(text: string)
      modifies this`inputString
      ensures inputString == old(inputString) + text
    {
      inputString := inputString + text;
    }

    /** Backspace drops the last character, if any (Python's s[:-1]). */
    method Backspace()
      modifies this`inputString
      ensures |old(inputString)| == 0 ==> inputString == ""
      ensures |old(inputString)| > 0 ==> inputString + [old(inputString)[|old(inputString)| - 1]] == old(inputString)
    {
      if |inputString| > 0 {
        inputString := inputString[..|inputString| - 1];
      }
    }
  }

  /**
   * The closed loop holds the pendulum upright: from upright rest, not
   * braking and with no injection pending, any number of passes leave
   * the pendulum and the wheel where they were.
   */
  method HoldUpright(sim: Simulation, dt: real, n: nat)
    requires sim.Valid() && dt > 0.0 && sim.sin(0.0) == 0.0
    requires UprightAtRest(sim.plant) && !sim.sup.waitFlag && !sim.inputFlag
    modifies sim
    ensures sim.Valid()
    ensures sim.plant == old(sim.plant)
  {
    var k := 0;
    while k < n
      invariant 0 <= k <= n
      invariant sim.Valid() && !sim.sup.waitFlag && !sim.inputFlag
      invariant sim.plant == old(sim.plant)
    {
      UprightPassIsQuiet(sim.sup, sim.setpoint, PendulumEnergy(sim.cos, 0.0, 0.0), RequiredEnergy(sim.cos), sim.cfg);
      UprightRestIsFixedPoint(sim.sin, sim.plant, dt);
      sim.Step(dt);
      k := k + 1;
    }
  }
}
