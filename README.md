# TinyG inverse kinematics and motor mapping, in Dafny

This project models `ik_kinematics` and `_cartesian_kinematics` from TinyG's
`firmware/kinematics.c`. They turn one motion segment's travel into per-motor
step counts:

- `_cartesian_kinematics` is the identity geometry. It copies the travel of each
  of the `AXES` axes into a joint vector and ignores the segment time
  (`microseconds`).
- `ik_kinematics` runs that geometry into a local joint array. Then, for each
  axis `i` in order, it zeroes `joint[i]` if the axis mode is `AXIS_INHIBITED`,
  and writes `joint[i] * steps_per_unit[j]` into `steps[j]` for every motor `j`
  whose `motor_map` is `i`. It always returns `TG_OK`.

Files:

- `config.dfy` (module `MachineConfig`) holds the read-only configuration: the
  axis modes, each motor's `motor_map` and its `steps_per_unit`.
  - The firmware keeps these in the global `cfg`. Here they are a `Config`
    value passed to the call.
  - `AXES` is the number of axis modes and `MOTORS` the number of motor records.
  - `uint8` is the firmware's byte type (`uint8_t`), and `TG_OK` is status 0.
- `kinematics.dfy` (module `Kinematics`) holds three methods over
  `array<real>`, each with its loop: `CartesianKinematics`, `IkKinematics`,
  and `MapAxis`, which is the inner motor loop of `ik_kinematics` separated
  out into its own method.
  - The specification function `MotorSteps` describes the resulting step vector:
    `Passes` applies one `AxisPass` per axis, in the firmware's order.
  - The lemmas about it state the per-motor properties.
- `scenarios.dfy` (module `KinematicsScenarios`) holds three concrete machines:
  plain XYZ, XYZ with Y inhibited, and Z ganged on two motors.

`double` is modelled as `real`, so the scaling is exact.

A defensive design of this layer would reject bad configurations and
mismatched vectors. The firmware does not, and the model follows the firmware:

- The code has no error path. A `motor_map` outside `[0, AXES)` is not
  reported. That motor is simply never written, so it keeps whatever the
  caller's `steps` array held before (`UnmappedMotorKeepsPrior`).
- Array lengths are not checked at run time either. `ik_kinematics` takes
  unsized `travel[]` and `steps[]` and touches only their first `AXES` and
  `MOTORS` entries. So the methods require at least that many entries, and they
  promise that anything past them is left unchanged.
- The code zeroes the local `joint[i]` itself, not a separate "effective" copy.
  This makes no difference outside the call, because `joint` is local. The
  caller's `travel` is never written.

## Model

| member | source | states |
|---|---|---|
| Kinematics.CartesianKinematics | firmware/kinematics.c:84-92 | Returns `TG_OK`. Afterwards `joint[i]` is the old `travel[i]` for every `i < AXES`, whatever `microseconds` is. The rest of `joint` is unchanged. `travel` is unchanged (when it is the same array as `joint`, this follows from the copy). |
| Kinematics.MapAxis | firmware/kinematics.c:69-73 | The inner loop for axis `i`. Among the first `MOTORS` entries, every motor with `motor_map == i` becomes `v * steps_per_unit[j]` and every other motor keeps its value (`AxisPass`). Entries past `MOTORS` are unchanged. |
| Kinematics.IkKinematics | firmware/kinematics.c:54-76 | Returns `TG_OK`. The first `MOTORS` entries of `steps` become `MotorSteps` of the old first `AXES` travel values and the old step values. Entries past `MOTORS` are unchanged. `travel` is unchanged unless it is the same array as `steps`. |
| Kinematics.EffectiveJoint | firmware/kinematics.c:66-67 | A definition with no contract of its own: the joint value the motors of axis `i` see, `0` when the axis is inhibited and `joint[i]` otherwise. This mirrors the zeroing of the local `joint[i]` at lines 66-67. |
| Kinematics.Contribution | firmware/kinematics.c:66-71 | A definition with no contract of its own: the effective joint value of motor `j`'s axis times motor `j`'s own `steps_per_unit`, which is the value line 71 writes into `steps[j]`. |
| Kinematics.AxisPass | firmware/kinematics.c:69-73 | A definition with no contract of its own: one inner-loop pass for axis `i` with joint value `v`, in which motors mapped to `i` get `v * steps_per_unit[j]` and all others keep their value, as lines 69-73 write. `MapAxis` is proved equal to it. |
| Kinematics.Passes | firmware/kinematics.c:65-74 | The step vector after the first `n` outer passes. The length is preserved. A motor mapped to an axis `>= n` still holds its prior value. |
| Kinematics.MotorSteps | firmware/kinematics.c:65-74 | The step vector has exactly `MOTORS` entries. |
| Kinematics.PassesAt | firmware/kinematics.c:65-74 | After the first `n` outer passes, motor `j` holds its axis' effective joint value times its own factor if `motor_map[j] < n`, and its prior value otherwise. A later pass never overwrites a motor, so its value depends on its one axis alone. |
| Kinematics.MotorStepsAt | firmware/kinematics.c:65-74 | The final value per motor: its axis' contribution if `motor_map[j] < AXES`, and its prior value otherwise. |
| Kinematics.MappedMotorScaled | firmware/kinematics.c:60-73 | A motor mapped to a non-inhibited axis `i` gets exactly `joint[i] * steps_per_unit[j]`, where `joint[i]` is what `IkKinematics` makes the old `travel[i]`. |
| Kinematics.InhibitedMotorZero | firmware/kinematics.c:66-71 | A motor mapped to an inhibited axis gets `0`, whatever the travel. |
| Kinematics.UnmappedMotorKeepsPrior | firmware/kinematics.c:65-72 | A motor whose `motor_map` is not below `AXES` keeps its previous step value. |
| Kinematics.GangedMotors | firmware/kinematics.c:69-73 | Two motors on the same axis each get the same effective joint value times their own factor. For a non-inhibited axis with non-zero factors, `steps[j1]/spu[j1] == joint[i] == steps[j2]/spu[j2]`. |
| Kinematics.StepDependsOnlyOnItsAxis | firmware/kinematics.c:69-72 | Two calls that agree on the joint value of motor `j`'s axis give `j` the same step value. For an unmapped motor, agreeing on its prior value is enough. |
| Kinematics.NoCarryOver | firmware/kinematics.c:65-74 | When every motor is mapped, the result does not depend on the previous step vector. |
| Kinematics.ZeroTravelZeroSteps | firmware/kinematics.c:60-73 | A zero joint value on every axis gives zero steps on every mapped motor. `IkKinematics` makes `joint` the old `travel`, so zero travel gives zero steps. |
| KinematicsScenarios.StandardScenario | firmware/kinematics.c:54-76 | XYZ with factors 100/100/400 and travel (1, -2, 0.5) gives steps (100, -200, 200). |
| KinematicsScenarios.InhibitedScenario | firmware/kinematics.c:66-67 | The same machine with Y inhibited gives steps (100, 0, 200). |
| KinematicsScenarios.GangedScenario | firmware/kinematics.c:69-73 | Z ganged on motors 2 and 3 (factor 400 each) with travel (0, 0, 1) gives steps (0, 0, 400, 400). |

## Left out

- Floating point: `double` is modelled as exact `real`, so IEEE rounding of the product is not captured.
- The configuration subsystem (`config.h`) is not part of this model. It loads and validates `cfg`; here `cfg` is a given, read-only value.
  - The numeric codes of the axis modes other than `AXIS_INHIBITED` come from there. The type of `motor_map` is also declared there; it is taken as a byte. The code only tests for `AXIS_INHIBITED`, so those modes are one constructor, `Other(code)`. `Other` never carries the code of `AXIS_INHIBITED`: an inhibited axis is always `Inhibited`.
- `tinyg.h` is not part of this model. It fixes `AXES`, `MOTORS` and `TG_OK`.
  - `AXES` and `MOTORS` are the lengths of the configuration sequences, kept below 256 because the loop counters are `uint8_t`.
  - `TG_OK` is taken as 0.
- The status that `_cartesian_kinematics` returns is discarded by `ik_kinematics`, as in the code.
- Downstream fixed-point step conversion (`motor_queue.c`, `steppers.c`) is foreign code consumed after the call, and is not part of this model.
- Non-cartesian geometries do not exist in the code, so they are not modelled. Neither are the error kinds of a defensive design (unreachable pose, invalid motor mapping, dimension mismatch); the code raises none of them.
- `firmware/report.h` only declares status-report functions (reporting I/O). The unit-test block at the end of `kinematics.c` is compiled out and empty.
- PassesAt: states each motor's final value and that later passes leave a motor alone. It does not count the writes to `steps[j]` during a call.
