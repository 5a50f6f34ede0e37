/** Worked configurations: a three-axis machine with one motor per axis, the
    same machine with Y inhibited, and a four-motor machine whose last two
    motors are ganged on Z. Each lemma holds whatever the caller's previous
    step vector was, since every motor is mapped. */
module KinematicsScenarios {
  import opened MachineConfig
  import opened Kinematics

  /** Any mode other than inhibited; the kinematics treats them all alike. */
  const Standard: AxisMode := Other(1)

  const XYZ: Config := Config([Standard, Standard, Standard], [0, 1, 2], [100.0, 100.0, 400.0])

  const XYZInhibitedY: Config := Config([Standard, Inhibited, Standard], [0, 1, 2], [100.0, 100.0, 400.0])

  const XYZGangedZ: Config := Config([Standard, Standard, Standard], [0, 1, 2, 2], [100.0, 100.0, 400.0, 400.0])

  lemma StandardScenario(prior: seq<real>)
    requires |prior| == 3
    ensures MotorSteps(XYZ, [1.0, -2.0, 0.5], prior) == [100.0, -200.0, 200.0]
  {
    var r := MotorSteps(XYZ, [1.0, -2.0, 0.5], prior);
    MotorStepsAt(XYZ, [1.0, -2.0, 0.5], prior, 0);
    MotorStepsAt(XYZ, [1.0, -2.0, 0.5], prior, 1);
    MotorStepsAt(XYZ, [1.0, -2.0, 0.5], prior, 2);
    assert r == [r[0], r[1], r[2]];
  }

  lemma InhibitedScenario(prior: seq<real>)
    requires |prior| == 3
    ensures MotorSteps(XYZInhibitedY, [1.0, -2.0, 0.5], prior) == [100.0, 0.0, 200.0]
  {
    var r := MotorSteps(XYZInhibitedY, [1.0, -2.0, 0.5], prior);
    MotorStepsAt(XYZInhibitedY, [1.0, -2.0, 0.5], prior, 0);
    MotorStepsAt(XYZInhibitedY, [1.0, -2.0, 0.5], prior, 1);
    MotorStepsAt(XYZInhibitedY, [1.0, -2.0, 0.5], prior, 2);
    assert r == [r[0], r[1], r[2]];
  }

  lemma GangedScenario(prior: seq<real>)
    requires |prior| == 4
    ensures MotorSteps(XYZGangedZ, [0.0, 0.0, 1.0], prior) == [0.0, 0.0, 400.0, 400.0]
  {
    var r := MotorSteps(XYZGangedZ, [0.0, 0.0, 1.0], prior);
    MotorStepsAt(XYZGangedZ, [0.0, 0.0, 1.0], prior, 0);
    MotorStepsAt(XYZGangedZ, [0.0, 0.0, 1.0], prior, 1);
    MotorStepsAt(XYZGangedZ, [0.0, 0.0, 1.0], prior, 2);
    MotorStepsAt(XYZGangedZ, [0.0, 0.0, 1.0], prior, 3);
    assert r == [r[0], r[1], r[2], r[3]];
  }
}
