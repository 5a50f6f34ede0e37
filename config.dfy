/** The machine configuration that the kinematics reads: the per-axis modes
    (cfg.a[i].axis_mode) and the per-motor records (cfg.m[j].motor_map and
    cfg.m[j].steps_per_unit). It is loaded elsewhere and only read here, so it is
    a value, passed explicitly instead of living in a global. */
module MachineConfig {

  /** The firmware's unsigned byte (uint8_t), the type of its loop counters and
      its status codes. motor_map is taken as a byte too (it is declared in
      config.h). */
  newtype uint8 = x: int | 0 <= x < 256

  /** Status code returned by every kinematics routine. */
  const TG_OK: uint8 := 0

  /** The kinematics only asks whether an axis is inhibited; every other mode
      (their codes are defined with the configuration) behaves the same.
      `Other` never carries the code of AXIS_INHIBITED: an inhibited axis is
      always `Inhibited`. */
  datatype AxisMode = Inhibited | Other(code: uint8)

  /** AXES is the number of axis modes, MOTORS the number of motor records.
      steps_per_unit is stored beside motor_map, one per motor. */
  datatype Config = Config(axisMode: seq<AxisMode>, motorMap: seq<uint8>, stepsPerUnit: seq<real>)
  {
    function Axes(): nat { |axisMode| }

    function Motors(): nat { |motorMap| }

    /** Every motor has both fields, and both counts fit the byte-wide loop
        counters of the firmware (a loop `i < 256` over a uint8_t never ends). */
    predicate Valid()
    {
      |stepsPerUnit| == |motorMap| && Axes() < 256 && Motors() < 256
    }

    /** Motor j is driven by an existing axis (its motor_map is below AXES). */
    predicate Mapped(j: nat)
      requires j < Motors()
    {
      motorMap[j] as int < Axes()
    }
  }
}
