# Reaction-wheel pendulum, ball-on-beam and magnetic levitation control loops in Dafny

This project models three small control programs and proves properties about the models.

**The reaction-wheel inverted pendulum (RWIP) simulator** (`simulation.py`). Its main loop runs one pass per frame:

- It injects a disturbance torque typed by the user.
- It folds the pendulum angle to the nearest upright setpoint.
- It runs a mode machine that picks swing-up (bang-bang), brake, or the configured stabiliser (LQR or PID).
- It applies the mode's voltage law and the ±24 V actuator limit.
- It advances the DC motor and the pendulum by one semi-implicit Euler step.
- It appends to the plot logs.
- It keeps the settle-time and actuation-energy counters.

The model has three modules:

- `RwipPhysics`: the constants, the pendulum's energy, the pendulum's acceleration, and the motor and plant steps, all over exact reals.
- `RwipController`: the decisions of one pass, as pure functions. These are the disturbance, the setpoint, the mode machine, the voltage laws, the clamp and the accounting.
- `RwipSimulation`: the loop's globals as the fields of a class `Simulation`.
  - `Step` is one pass. It is split into phase methods, each specified by the functions above.
  - `Reset`, `RequestInjection`, `TypeText` and `Backspace` are the reset button, the inject button / Return key, and the text field.

**The BOBShield ball-on-beam driver** (`BOBShield.h`) is the class `BobShield.Shield`. It covers:

- the servo command, which truncates, saturates to ±30° and maps onto servo positions 65..125;
- the calibration, which keeps the running minimum and maximum of 100 readings at each end stop;
- the corrected sensor reading;
- the degree and radian conversions.

**The MagnetoShield PID example** (`code.py`) is the class `MagnetoShieldPid.Experiment`. It covers:

- the set-up, including the fallback for the 48 MHz board;
- the sampled step, which updates the reference section by section and sends one PID step to the magnet;
- the end of the experiment, which turns the magnet off, dumps the logs and idles.

`RunExperiment` drives a whole experiment and proves that it ends with the last reference after `len(R) * T` calls.

Floats are modelled as reals, and C and Python integer conversions are written out (`Trunc`, `CDiv`, `Ceil`, floor-based `%`). Several things are parameters rather than part of the model:

- `sin`, `cos`, Python's `float()` on the typed text, and the constrained PID algorithm are function-valued parameters.
- The frame period `dt`, the sensor readings and the CPU frequency are inputs.
- The servo and the magnet are the logs `servo` and `magnetWrites`.
- The serial port is the log `serial`.

Three observations about `simulation.py` that the model keeps as written:

- **The re-entry reset never fires.** The reset condition at line 594 has a second disjunct: the flag was off on the previous pass, is on now, and the pendulum is inside the settle band. It can never hold, because line 590 has just cleared the flag inside the band. `Account` keeps the condition as written. `AccountResetsExactlyOffStabilizer` proves that the counters are zeroed exactly when the mode is not the stabiliser.
- **The brake voltage has the speed's sign.** The brake applies -12 V for a negative pendulum speed and +12 V otherwise. The motor torque this produces enters the pendulum's equation as a reaction torque with a minus sign (line 203). So, from an idle wheel, the brake opposes the speed; `BrakeOpposesSpeed` proves this.
- **Leaving the brake takes one more pass.** On the pass where the brake releases, the mode stays `brake`. The next pass picks swing-up, or the stabiliser if the pendulum is back inside the bound. `Classify` does the same.

## Model

| member | source | states |
|---|---|---|
| RwipPhysics.TurnRemainder | source/project3/simulation.py:506 | Python's `abs(qp) % (2*pi)` lies in [0, 2pi) and differs from its argument by a whole number of turns |
| RwipPhysics.TurnRemainderNear | source/project3/simulation.py:506 | an angle within half a turn of n whole turns has remainder equal to its offset, or a full turn plus a negative offset |
| RwipPhysics.PendulumEnergy | source/project3/simulation.py:149-157 | the kinetic terms of both masses, the motor and the pendulum inertia plus (m1 + m2) g L2 cos q; `EnergyAtRest` and `EnergyLeastAtRest` state its properties |
| RwipPhysics.RequiredEnergy | source/project3/simulation.py:376 | the swing-up target (m1 + m2) g L2 cos 0; `EnergyAtRest` proves it is the energy upright at rest |
| RwipPhysics.EnergyAtRest | source/project3/simulation.py:149-157 | at rest the energy is the potential term alone, and upright at rest it equals the required swing-up energy `reqE` of line 376 |
| RwipPhysics.EnergyLeastAtRest | source/project3/simulation.py:149-157 | the energy exceeds its value at rest by a positive coefficient times the squared speed, so at a given angle it is least at rest |
| RwipPhysics.RwipDynamics | source/project3/simulation.py:201-205 | the pendulum's angular acceleration from gravity on both masses, the reaction torque, the disturbance and damping, over the effective inertia as written; `TorquesActThroughDivisor` states how the torques act |
| RwipPhysics.TorquesActThroughDivisor | source/project3/simulation.py:201-205 | the effective inertia is positive; the reaction torque slows the pendulum and the disturbance speeds it up, each by torque over inertia |
| RwipPhysics.MotorCurrent | source/project3/simulation.py:127 | the armature current from the terminal voltage less the back-EMF and the inductance drop, over R; its use in a motor step is stated by `MotorStep` |
| RwipPhysics.MotorStep | source/project3/simulation.py:125-134 | the torque is Kt times the current from the voltage equation; the current and its derivative are stored; the wheel speed grows by (torque - B qr_d) / J times dt; the wheel angle integrates the updated speed |
| RwipPhysics.MotorIdle | source/project3/simulation.py:125-134 | with no voltage, wheel speed or current change, the motor produces no torque and the wheel stays still |
| RwipPhysics.PlantStep | source/project3/simulation.py:544-548 | the motor steps first; its torque is the reaction torque of the pendulum, whose speed is updated before its angle |
| RwipPhysics.UprightRestIsFixedPoint | source/project3/simulation.py:544-548 | upright at rest with no voltage and no disturbance, one plant step changes nothing and produces no torque |
| RwipPhysics.UprightRestPersists | source/project3/simulation.py:544-548 | any number of such steps leaves the plant at upright rest |
| RwipController.Disturbance | source/project3/simulation.py:480-488 | the disturbance is the negated typed value when injection was requested and it parsed, and zero otherwise |
| RwipController.FoldSetpoint | source/project3/simulation.py:493-497 | the setpoint becomes a whole number of turns within half a turn of the angle; exactly at qp = pi the old setpoint is kept |
| RwipController.FoldSetpointKeepsWholeTurns | source/project3/simulation.py:493-497 | a setpoint that is a whole number of turns stays one |
| RwipController.InStabilizeBound | source/project3/simulation.py:506 | the region test on `abs(qp) % (2*pi)` against the bound and 360 minus the bound, in radians; `InBoundIffNearWholeTurn` reads it geometrically |
| RwipController.InBoundIffNearWholeTurn | source/project3/simulation.py:506 | for bounds in 0..180 degrees, an angle passes the region test exactly when some whole number of turns lies within the bound of it |
| RwipController.NearWholeTurnIsInBound | source/project3/simulation.py:506 | every angle within the bound of any whole number of turns, of either sign, passes the stabilisation-region test |
| RwipController.Classify | source/project3/simulation.py:502-515 | the mode machine never makes the pendulum both waiting and settled |
| RwipController.ClassifyDecides | source/project3/simulation.py:502-515 | brake exactly while waiting; the stabiliser exactly when in bound or just leaving it from settled; swing-up otherwise; the new wait and settled flags in both directions; the invariant is kept and the mode is always defined |
| RwipController.LeavingBoundBrakesNext | source/project3/simulation.py:502-515 | leaving the region from settled keeps the stabiliser for that pass and brakes on the next pass, wherever the pendulum is then |
| RwipController.NearUprightSelectsStabilizer | source/project3/simulation.py:506-509 | not braking and near any whole turn, the configured stabiliser runs and the settled flag is raised |
| RwipController.BangBangVoltage | source/project3/simulation.py:523-529 | the swing-up law with its three branches; `SwingAndBrakeAreFullVoltage` proves it is always ±12 V and when each sign is chosen |
| RwipController.BrakeVoltage | source/project3/simulation.py:530-534 | the brake law, -12 V for a negative speed and +12 V otherwise; `BrakeOpposesSpeed` proves its reaction torque opposes the speed |
| RwipController.BrakeOpposesSpeed | source/project3/simulation.py:530-548 | from an idle wheel, the brake's motor torque has the sign of the pendulum's speed, so it lowers the acceleration for a non-negative speed and raises it for a negative one |
| RwipController.VoltageLaw | source/project3/simulation.py:517-536 | LQR is K00*(setpoint-qp) - K01*qp_d, PID is Kp*(qp-setpoint), and an unset mode demands 0 |
| RwipController.SwingAndBrakeAreFullVoltage | source/project3/simulation.py:523-534 | swing-up and brake always demand exactly ±12 V (the zero branch is dead); swing-up is +12 iff "moving backwards" agrees with "short of energy"; brake is -12 iff the speed is negative |
| RwipController.StabilizerQuietOnSetpoint | source/project3/simulation.py:517-522 | at rest on the setpoint either stabilising law demands 0 V |
| RwipController.Clamp | source/project3/simulation.py:537-542 | with the limit on the voltage is within ±24; in range or with the limit off it is unchanged; the sign is kept and the magnitude never grows |
| RwipController.ClampSaturates | source/project3/simulation.py:537-542 | a demand beyond the limit is applied as ±24 with its sign |
| RwipController.UprightPassIsQuiet | source/project3/simulation.py:493-542 | upright and not braking: the setpoint folds to 0, the stabiliser runs without entering the brake, and at rest the clamped voltage is 0 |
| RwipController.InSettleBand | source/project3/simulation.py:589 | the angle is within 0.1 degree of the setpoint; `Account` and `AccountResetsExactlyOffStabilizer` state how it drives the counters |
| RwipController.Account | source/project3/simulation.py:589-597 | the active flag survives exactly when it was set and the pendulum is outside the settle band; the previous-pass flag records it |
| RwipController.AccountResetsExactlyOffStabilizer | source/project3/simulation.py:589-597 | the counters are zeroed exactly off the stabiliser; under it they never decrease, time grows by dt iff active and out of band, and both stay non-negative |
| RwipSimulation.Logs.Append | source/project3/simulation.py:562-566 | the five plot series stay the same length and grow by one entry per pass |
| RwipSimulation.Simulation.constructor | source/project3/simulation.py:357-444 | hanging down at rest, wheel idle, no torques, setpoint 0, no mode yet, counters and flags cleared, empty logs; the loop invariant holds |
| RwipSimulation.Simulation.MotorDynamics | source/project3/simulation.py:125-134 | the wheel's new state and the returned torque are those of one motor step; nothing else changes |
| RwipSimulation.Simulation.InjectDisturbance | source/project3/simulation.py:480-488 | the request is consumed; the torque is the parsed value negated (else 0); unparsable text is cleared |
| RwipSimulation.Simulation.UpdateSetpoint | source/project3/simulation.py:493-497 | the setpoint is the fold of the current angle, and stays a whole number of turns |
| RwipSimulation.Simulation.Supervise | source/project3/simulation.py:502-515 | the mode machine takes the classified state, the mode is defined, and the active flag is raised exactly when the region is entered (or was already set) |
| RwipSimulation.Simulation.Command | source/project3/simulation.py:517-542 | the applied voltage is the current mode's law, then clamped |
| RwipSimulation.Simulation.Integrate | source/project3/simulation.py:544-548 | the plant and motor torque are one plant step with the applied voltage and the disturbance |
| RwipSimulation.Simulation.Record | source/project3/simulation.py:562-597 | one log entry per series, the clock advanced by dt, and the counters as the accounting function gives them |
| RwipSimulation.Simulation.Step | source/project3/simulation.py:480-597 | one whole pass: disturbance, setpoint fold, mode machine on the pass's energy, clamped voltage law, plant step, logs, clock and accounting; the loop invariant is preserved |
| RwipSimulation.Simulation.Reset | source/project3/simulation.py:453-469 | pendulum hanging down at rest, wheel angle and speed zero, no torques, wait and settled flags cleared, empty logs, clock and counters zeroed; the current, setpoint, mode and active flag are kept |
| RwipSimulation.Simulation.RequestInjection | source/project3/simulation.py:475-476 | an injection is requested for the next pass |
| RwipSimulation.Simulation.TypeText | source/project3/simulation.py:477-478 | typed text is appended to the field |
| RwipSimulation.Simulation.Backspace | source/project3/simulation.py:473-474 | the last character is dropped, and an empty field stays empty |
| RwipSimulation.HoldUpright | source/project3/simulation.py:480-548 | from upright rest, not braking and with no injection pending, any number of passes leave the pendulum and the wheel exactly where they were |
| BobShield.Trunc | source/project1/cad/print3d/AutomationShield-master/AutomationShield-master/automationShield-MLSL/src/BOBShield.h:122 | the C cast to int truncates toward zero: floor for non-negative values, ceiling for negative ones |
| BobShield.ServoMapReflects | source/project1/cad/print3d/AutomationShield-master/AutomationShield-master/automationShield-MLSL/src/BOBShield.h:130 | Arduino's map from (30, -30) onto (65, 125) is exactly 95 minus the tilt |
| BobShield.CDiv | source/project1/cad/print3d/AutomationShield-master/AutomationShield-master/automationShield-MLSL/src/BOBShield.h:130 | C's integer division, truncating toward zero, as Arduino's `map` uses it; its effect is stated by `ServoMapReflects` |
| BobShield.ArduinoMap | source/project1/cad/print3d/AutomationShield-master/AutomationShield-master/automationShield-MLSL/src/BOBShield.h:130 | Arduino's `map` on long integers; `ServoMapReflects` proves the servo mapping is exactly 95 minus the tilt |
| BobShield.Saturate | source/project1/cad/print3d/AutomationShield-master/AutomationShield-master/automationShield-MLSL/src/BOBShield.h:123-128 | the tilt is within ±30, unchanged inside, and ±30 beyond |
| BobShield.ServoPosition | source/project1/cad/print3d/AutomationShield-master/AutomationShield-master/automationShield-MLSL/src/BOBShield.h:121-130 | the servo position for a requested tilt: truncated, saturated, then mapped; `ServoPositionBounded` states its range, value and monotonicity |
| BobShield.ServoPositionBounded | source/project1/cad/print3d/AutomationShield-master/AutomationShield-master/automationShield-MLSL/src/BOBShield.h:121-133 | any request gives a servo position in 65..125, equal to 95 minus the truncated and saturated tilt (95 minus the truncated tilt for requests between -31 and 31), and a larger tilt never gives a larger position |
| BobShield.FoldMin | source/project1/cad/print3d/AutomationShield-master/AutomationShield-master/automationShield-MLSL/src/BOBShield.h:79-86 | the running minimum the first calibration loop leaves; `FoldMinIsMinimum` proves it is the least of the start and the readings |
| BobShield.FoldMax | source/project1/cad/print3d/AutomationShield-master/AutomationShield-master/automationShield-MLSL/src/BOBShield.h:90-97 | the running maximum the second calibration loop leaves; `FoldMaxIsMaximum` proves it is the greatest of the start and the readings |
| BobShield.FoldMinIsMinimum | source/project1/cad/print3d/AutomationShield-master/AutomationShield-master/automationShield-MLSL/src/BOBShield.h:79-86 | the running minimum is at most the start and every reading, and is the start or one of the readings |
| BobShield.FoldMaxIsMaximum | source/project1/cad/print3d/AutomationShield-master/AutomationShield-master/automationShield-MLSL/src/BOBShield.h:90-97 | the running maximum is at least the start and every reading, and is the start or one of the readings |
| BobShield.FirstCalibrationFindsExtremes | source/project1/cad/print3d/AutomationShield-master/AutomationShield-master/automationShield-MLSL/src/BOBShield.h:79-97 | from the initial 500 and 10, the first calibration stores the least low reading, and the greatest high reading unless all are at most 10 |
| BobShield.Deg2Rad | source/project1/cad/print3d/AutomationShield-master/AutomationShield-master/automationShield-MLSL/src/BOBShield.h:164-167 | degrees to radians with pi taken as 3.14; `DegRadRoundTrip` relates it to `Rad2Deg` |
| BobShield.Rad2Deg | source/project1/cad/print3d/AutomationShield-master/AutomationShield-master/automationShield-MLSL/src/BOBShield.h:169-172 | radians to degrees with pi taken as 3.14; `DegRadRoundTrip` relates it to `Deg2Rad` |
| BobShield.DegRadRoundTrip | source/project1/cad/print3d/AutomationShield-master/AutomationShield-master/automationShield-MLSL/src/BOBShield.h:164-172 | the two conversions with pi as 3.14 are inverse to each other, and 180 degrees is 3.14 |
| BobShield.Shield.constructor | source/project1/cad/print3d/AutomationShield-master/AutomationShield-master/automationShield-MLSL/src/BOBShield.h:25-43 | not calibrated, bounds 500 and 10, zero compensation 0, no servo writes |
| BobShield.Shield.ActuatorWrite | source/project1/cad/print3d/AutomationShield-master/AutomationShield-master/automationShield-MLSL/src/BOBShield.h:121-133 | the stored tilt is truncated and saturated, the servo position is its mapping, and that position plus the compensation, truncated, is written to the servo |
| BobShield.Shield.CalibrateMinimum | source/project1/cad/print3d/AutomationShield-master/AutomationShield-master/automationShield-MLSL/src/BOBShield.h:79-86 | the stored minimum is the running minimum of the readings from the previous value |
| BobShield.Shield.CalibrateMaximum | source/project1/cad/print3d/AutomationShield-master/AutomationShield-master/automationShield-MLSL/src/BOBShield.h:90-97 | the stored maximum is the running maximum of the readings from the previous value |
| BobShield.Shield.Calibration | source/project1/cad/print3d/AutomationShield-master/AutomationShield-master/automationShield-MLSL/src/BOBShield.h:69-110 | servo written at 125, 65 and 95; minimum and maximum are the running extremes of the 100 readings at each end; the beam is left level; calibrated is 1 |
| BobShield.Shield.SensorRead | source/project1/cad/print3d/AutomationShield-master/AutomationShield-master/automationShield-MLSL/src/BOBShield.h:148-162 | calibrated: reading minus the calibrated minimum; not calibrated: reading minus 7; any other flag value: nothing read and the previous position returned |
| BobShield.CalibratedReadingIsOffsetFromMinimum | source/project1/cad/print3d/AutomationShield-master/AutomationShield-master/automationShield-MLSL/src/BOBShield.h:148-152 | after a first calibration, a corrected reading is the reading minus the least low reading: minus one of them, and at most the reading minus any of them; so it is never negative when no low reading exceeds it, and zero when the reading is the least low reading |
| MagnetoShieldPid.WithinSection | source/project1/cad/print3d/AutomationShield-master/AutomationShield-master/CircuitPython/examples/MagnetoShield/MagnetoShield_PID/code.py:117 | inside section i, `k % (T*i)` is zero only at the section's end, where k / T is i; before the end it is i - 1 |
| MagnetoShieldPid.NotLastSection | source/project1/cad/print3d/AutomationShield-master/AutomationShield-master/CircuitPython/examples/MagnetoShield/MagnetoShield_PID/code.py:106-118 | a section ending before sample len(R)*T is not the last, so `R[i]` exists |
| MagnetoShieldPid.SectionBoundary | source/project1/cad/print3d/AutomationShield-master/AutomationShield-master/CircuitPython/examples/MagnetoShield/MagnetoShield_PID/code.py:117-119 | on a running sample the section test fires exactly at the section's end, the next reference exists, and the next sample is scheduled in the right section |
| MagnetoShieldPid.Advance | source/project1/cad/print3d/AutomationShield-master/AutomationShield-master/CircuitPython/examples/MagnetoShield/MagnetoShield_PID/code.py:117-119 | the reference update leaves the counter and reference of the section the next sample falls in |
| MagnetoShieldPid.AdvanceClosedForm | source/project1/cad/print3d/AutomationShield-master/AutomationShield-master/CircuitPython/examples/MagnetoShield/MagnetoShield_PID/code.py:117-119 | after running sample k the reference is R[k / T] and the counter k / T + 1 |
| MagnetoShieldPid.Schedule | source/project1/cad/print3d/AutomationShield-master/AutomationShield-master/CircuitPython/examples/MagnetoShield/MagnetoShield_PID/code.py:84-119 | from k = i = 1 and r = R[0], the updates of samples 1..n keep the counter and reference in the section of sample n + 1 |
| MagnetoShieldPid.ScheduleClosedForm | source/project1/cad/print3d/AutomationShield-master/AutomationShield-master/CircuitPython/examples/MagnetoShield/MagnetoShield_PID/code.py:63-119 | after n running samples the reference is R[n / T]: each reference holds for T samples in trajectory order (the first for T - 1) |
| MagnetoShieldPid.Pairs | source/project1/cad/print3d/AutomationShield-master/AutomationShield-master/CircuitPython/examples/MagnetoShield/MagnetoShield_PID/code.py:111-112 | the dump has one line per logged output, pairing it with the input logged with it |
| MagnetoShieldPid.IsSlowBoard | source/project1/cad/print3d/AutomationShield-master/AutomationShield-master/CircuitPython/examples/MagnetoShield/MagnetoShield_PID/code.py:71 | the fallback test, the CPU frequency divided by 1000000 with true division equal to 48; `SlowBoardExactly` pins it to one frequency |
| MagnetoShieldPid.SlowBoardExactly | source/project1/cad/print3d/AutomationShield-master/AutomationShield-master/CircuitPython/examples/MagnetoShield/MagnetoShield_PID/code.py:71 | the fallback test by true division holds exactly for 48 000 000 Hz |
| MagnetoShieldPid.Experiment.constructor | source/project1/cad/print3d/AutomationShield-master/AutomationShield-master/CircuitPython/examples/MagnetoShield/MagnetoShield_PID/code.py:49-90 | default tuning and trajectory, or the fallback's on the 48 MHz board; r = 14, k = i = 1; empty logs; the schedule is valid |
| MagnetoShieldPid.Experiment.FallbackSettings | source/project1/cad/print3d/AutomationShield-master/AutomationShield-master/CircuitPython/examples/MagnetoShield/MagnetoShield_PID/code.py:68-78 | on the 48 MHz board: Ts 6000, gains 2.0/0.4/0.02, R = [14, 14], T = 2500, no data output; otherwise nothing changes; the schedule stays valid |
| MagnetoShieldPid.Experiment.DumpLogs | source/project1/cad/print3d/AutomationShield-master/AutomationShield-master/CircuitPython/examples/MagnetoShield/MagnetoShield_PID/code.py:111-112 | the serial port receives the logged pairs in order |
| MagnetoShieldPid.Experiment.Finish | source/project1/cad/print3d/AutomationShield-master/AutomationShield-master/CircuitPython/examples/MagnetoShield/MagnetoShield_PID/code.py:106-115 | no violation, 0 V written to the magnet, the dump only when data output and post-plotting are on, then idle |
| MagnetoShieldPid.Experiment.Control | source/project1/cad/print3d/AutomationShield-master/AutomationShield-master/CircuitPython/examples/MagnetoShield/MagnetoShield_PID/code.py:116-130 | the reference update, the PID's input for error y - r written to the magnet, logged or sent as (r, y, u) according to the flags, and the next sample index |
| MagnetoShieldPid.Experiment.Step | source/project1/cad/print3d/AutomationShield-master/AutomationShield-master/CircuitPython/examples/MagnetoShield/MagnetoShield_PID/code.py:101-130 | called only while the experiment runs; past sample len(R)*T - 1 the experiment ends with the magnet off and the schedule untouched; otherwise one running sample; the schedule stays valid |
| MagnetoShieldPid.RunningSamples | source/project1/cad/print3d/AutomationShield-master/AutomationShield-master/CircuitPython/examples/MagnetoShield/MagnetoShield_PID/code.py:133-137 | after n running samples the counter and reference follow the schedule, one voltage was written per sample, and the experiment is still running |
| MagnetoShieldPid.RunExperiment | source/project1/cad/print3d/AutomationShield-master/AutomationShield-master/CircuitPython/examples/MagnetoShield/MagnetoShield_PID/code.py:133-137 | len(R)*T calls end the experiment in a valid state with k = len(R)*T, the last section and reference in force, one magnet write per call, and 0 V written last |

## Left out

- Rendering, window handling, the plot window (`plot_graph`, `on_click`), sound and the quit event of `simulation.py` are outside the model. The same goes for the mouse and keyboard hit-testing: each button or key is its own method.
- The frame clock and `dt = 1 / fps` (lines 587, 598-599) are left out; the step size is a parameter of `Step`.
- `control.lqr`, the PID transfer function and the root-locus plot (lines 381-400) are left out; the two LQR gains are configuration parameters.
- `Forwardkinematics` and the `FREQUENCY` value (line 545) feed only the display and the sound, so they are not modelled.
- `sin`, `cos` and `float()` are parameters. Of the trigonometric functions, only sin(0) = 0 is assumed where needed.
- Floating-point rounding is not modelled: all arithmetic is over exact reals.
- `Vin` is never assigned before the first pass in `simulation.py`. The constructor gives it the value 0, which no later pass reads: every mode assigns it before it is used.
- BOBShield's `sensorReadPerc`, `referenceRead`, `begin`, `initialize`, the serial echo and the delays are left out. The sensor and servo hardware are an input value and an output log.
- `BobShield.Shield.ActuatorWrite`: a request whose truncation overflows `int` is undefined behaviour in C and is not modelled.
- The MagnetoShield example's `MANUAL` branch (line 104) is left out, since the flag is the constant `False` there. Also left out are the shield's begin and calibration, the `Sampling` module's timing, `time.sleep`, and the text format of the printed tuples.
- The constrained absolute-form PID (`PIDAbs.compute` with its limits) is a function parameter of each step; its internals are outside the model.
- The final `while True: pass` is modelled as the flag `halted`. `Step` requires it to be clear, since no call follows the end of the experiment.
- `MagnetoShieldPid.RunExperiment`: it states the number of magnet writes and the last one, not the value of every write. Each write's value is stated per call by `MagnetoShieldPid.Experiment.Step`.
