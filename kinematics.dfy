/** Inverse kinematics and motor mapping: a travel vector (one value per axis)
    becomes a joint vector through the machine geometry (the identity for a
    cartesian machine), and each motor then receives its axis' joint value,
    zero for an inhibited axis, scaled by its own steps_per_unit. */
module Kinematics {
  import opened MachineConfig

  /** The shapes a call works on: a joint vector with one value per axis and a
      step vector with one value per motor. */
  predicate Fits(cfg: Config, joint: seq<real>, steps: seq<real>)
  {
    cfg.Valid() && |joint| == cfg.Axes() && |steps| == cfg.Motors()
  }

  /** The joint value of axis i as the motors see it: zero when the axis is
      inhibited. */
  function EffectiveJoint(cfg: Config, joint: seq<real>, i: nat): (r: real)
    requires |joint| == cfg.Axes() && i < cfg.Axes()
  {
    if cfg.axisMode[i] == Inhibited then 0.0 else joint[i]
  }

  /** The step count motor j receives from the axis it is mapped to. */
  function Contribution(cfg: Config, joint: seq<real>, j: nat): (r: real)
    requires cfg.Valid() && |joint| == cfg.Axes() && j < cfg.Motors() && cfg.Mapped(j)
  {
    EffectiveJoint(cfg, joint, cfg.motorMap[j] as int) * cfg.stepsPerUnit[j]
  }

  /** One pass of the outer loop, for axis i whose effective joint value is v:
      every motor whose motor_map is i is overwritten with v times its own
      steps_per_unit, every other motor keeps its value. */
  function AxisPass(cfg: Config, i: nat, v: real, steps: seq<real>): (r: seq<real>)
    requires cfg.Valid() && |steps| == cfg.Motors()
  {
    seq(|steps|, j requires 0 <= j < |steps| =>
      if cfg.motorMap[j] as int == i then v * cfg.stepsPerUnit[j] else steps[j])
  }

  /** The step vector after the first n passes of the outer loop, starting from
      the caller's prior step vector. */
  function Passes(cfg: Config, joint: seq<real>, prior: seq<real>, n: nat): (r: seq<real>)
    requires Fits(cfg, joint, prior) && n <= cfg.Axes()
    ensures |r| == |prior|
    ensures forall j :: 0 <= j < |prior| && n <= cfg.motorMap[j] as int ==> r[j] == prior[j]
    decreases n
  {
    if n == 0 then prior
    else AxisPass(cfg, n - 1, EffectiveJoint(cfg, joint, n - 1), Passes(cfg, joint, prior, n - 1))
  }

  /** The step vector ik_kinematics leaves behind: all AXES passes. */
  function MotorSteps(cfg: Config, joint: seq<real>, prior: seq<real>): (r: seq<real>)
    requires Fits(cfg, joint, prior)
    ensures |r| == cfg.Motors()
  {
    Passes(cfg, joint, prior, cfg.Axes())
  }

  /** _cartesian_kinematics: the identity geometry. Copies the first `axes`
      travel values into joint and ignores the segment time. `travel` and
      `joint` may be the same array. */
  method CartesianKinematics(axes: nat, travel: array<real>, joint: array<real>, microseconds: real)
    returns (status: uint8)
    requires axes < 256
    requires axes <= travel.Length && axes <= joint.Length
    modifies joint
    ensures status == TG_OK
    ensures joint[..axes] == old(travel[..axes])
    ensures joint[axes..] == old(joint[axes..])
    ensures travel != joint ==> travel[..] == old(travel[..])
  {
    var i := 0;
    while i < axes
      invariant 0 <= i <= axes
      invariant forall k :: 0 <= k < i ==> joint[k] == old(travel[k])
      invariant forall k :: i <= k < joint.Length ==> joint[k] == old(joint[k])
      invariant travel != joint ==> travel[..] == old(travel[..])
      invariant travel == joint ==> forall k :: 0 <= k < travel.Length ==> travel[k] == old(travel[k])
    {
      joint[i] := travel[i];
      i := i + 1;
    }
    status := TG_OK;
  }

  /** The inner loop of ik_kinematics for axis i: writes v * steps_per_unit
      into every motor mapped to axis i and leaves the other motors alone. */
  method MapAxis(cfg: Config, i: nat, v: real, steps: array<real>)
    requires cfg.Valid() && cfg.Motors() <= steps.Length
    modifies steps
    ensures steps[..cfg.Motors()] == AxisPass(cfg, i, v, old(steps[..cfg.Motors()]))
    ensures steps[cfg.Motors()..] == old(steps[cfg.Motors()..])
  {
    var j := 0;
    while j < cfg.Motors()
      invariant 0 <= j <= cfg.Motors()
      invariant forall m :: 0 <= m < j ==> steps[m] == AxisPass(cfg, i, v, old(steps[..cfg.Motors()]))[m]
      invariant forall m :: j <= m < steps.Length ==> steps[m] == old(steps[m])
    {
      if cfg.motorMap[j] as int == i {
        steps[j] := v * cfg.stepsPerUnit[j];
      }
      j := j + 1;
    }
  }

  /** ik_kinematics: runs the geometry into a local joint vector, then for each
      axis in turn zeroes its joint value when the axis is inhibited and writes
      joint * steps_per_unit into every motor mapped to it. Motors mapped to no
      axis keep their previous step value. Only the first AXES travel values and
      the first MOTORS step values take part; entries past them are untouched. */
  method IkKinematics(cfg: Config, travel: array<real>, steps: array<real>, microseconds: real)
    returns (status: uint8)
    requires cfg.Valid()
    requires cfg.Axes() <= travel.Length && cfg.Motors() <= steps.Length
    modifies steps
    ensures status == TG_OK
    ensures steps[..cfg.Motors()] == MotorSteps(cfg, old(travel[..cfg.Axes()]), old(steps[..cfg.Motors()]))
    ensures steps[cfg.Motors()..] == old(steps[cfg.Motors()..])
    ensures travel != steps ==> travel[..] == old(travel[..])
  {
    var joint := new real[cfg.Axes()];
    var _ := CartesianKinematics(cfg.Axes(), travel, joint, microseconds);
    assert joint[..] == joint[..cfg.Axes()];
    ghost var joint0 := joint[..];
    ghost var prior := steps[..cfg.Motors()];
    var i := 0;
    while i < cfg.Axes()
      invariant 0 <= i <= cfg.Axes()
      invariant steps[..cfg.Motors()] == Passes(cfg, joint0, prior, i)
      invariant steps[cfg.Motors()..] == old(steps[cfg.Motors()..])
      invariant forall k :: 0 <= k < i ==> joint[k] == EffectiveJoint(cfg, joint0, k)
      invariant forall k :: i <= k < joint.Length ==> joint[k] == joint0[k]
      invariant travel != steps ==> travel[..] == old(travel[..])
    {
      if cfg.axisMode[i] == Inhibited {
        joint[i] := 0.0;
      }
      MapAxis(cfg, i, joint[i], steps);
      i := i + 1;
    }
    status := TG_OK;
  }

  // ---------------------------------------------------------------------------
  // Properties of the step vector

  /** After n passes, each motor holds the contribution of its axis when that
      axis has had its pass, and its prior value otherwise: no later pass
      overwrites a motor, because a motor names a single axis. */
  lemma {:induction false} PassesAt(cfg: Config, joint: seq<real>, prior: seq<real>, n: nat, j: nat)
    requires Fits(cfg, joint, prior) && n <= cfg.Axes() && j < cfg.Motors()
    ensures Passes(cfg, joint, prior, n)[j]
         == if cfg.motorMap[j] as int < n then Contribution(cfg, joint, j) else prior[j]
  {
    if n > 0 {
      PassesAt(cfg, joint, prior, n - 1, j);
    }
  }

  /** Each motor's final step value, stated per motor. */
  lemma MotorStepsAt(cfg: Config, joint: seq<real>, prior: seq<real>, j: nat)
    requires Fits(cfg, joint, prior) && j < cfg.Motors()
    ensures MotorSteps(cfg, joint, prior)[j]
         == if cfg.Mapped(j) then Contribution(cfg, joint, j) else prior[j]
  {
    PassesAt(cfg, joint, prior, cfg.Axes(), j);
  }

  /** A motor mapped to a non-inhibited axis receives that axis' joint value
      times its own steps_per_unit, exactly. */
  lemma MappedMotorScaled(cfg: Config, joint: seq<real>, prior: seq<real>, j: nat)
    requires Fits(cfg, joint, prior) && j < cfg.Motors() && cfg.Mapped(j)
    requires cfg.axisMode[cfg.motorMap[j]] != Inhibited
    ensures MotorSteps(cfg, joint, prior)[j] == joint[cfg.motorMap[j]] * cfg.stepsPerUnit[j]
  {
    MotorStepsAt(cfg, joint, prior, j);
  }

  /** A motor mapped to an inhibited axis receives zero, whatever the travel. */
  lemma InhibitedMotorZero(cfg: Config, joint: seq<real>, prior: seq<real>, j: nat)
    requires Fits(cfg, joint, prior) && j < cfg.Motors() && cfg.Mapped(j)
    requires cfg.axisMode[cfg.motorMap[j]] == Inhibited
    ensures MotorSteps(cfg, joint, prior)[j] == 0.0
  {
    MotorStepsAt(cfg, joint, prior, j);
  }

  /** A motor whose motor_map names no axis is never written: it keeps the value
      the caller's step vector held. */
  lemma UnmappedMotorKeepsPrior(cfg: Config, joint: seq<real>, prior: seq<real>, j: nat)
    requires Fits(cfg, joint, prior) && j < cfg.Motors() && !cfg.Mapped(j)
    ensures MotorSteps(cfg, joint, prior)[j] == prior[j]
  {
    MotorStepsAt(cfg, joint, prior, j);
  }

  /** Ganged motors (two motors on one axis) are scaled from the same joint
      value, each by its own factor; for a non-inhibited axis, dividing each step
      count by its factor gives back the joint value. */
  lemma GangedMotors(cfg: Config, joint: seq<real>, prior: seq<real>, j1: nat, j2: nat)
    requires Fits(cfg, joint, prior) && j1 < cfg.Motors() && j2 < cfg.Motors()
    requires cfg.Mapped(j1) && cfg.motorMap[j1] == cfg.motorMap[j2]
    ensures var i := cfg.motorMap[j1] as int;
            var r := MotorSteps(cfg, joint, prior);
            r[j1] == EffectiveJoint(cfg, joint, i) * cfg.stepsPerUnit[j1] &&
            r[j2] == EffectiveJoint(cfg, joint, i) * cfg.stepsPerUnit[j2] &&
            ((cfg.axisMode[i] != Inhibited && cfg.stepsPerUnit[j1] != 0.0 && cfg.stepsPerUnit[j2] != 0.0)
               ==> r[j1] / cfg.stepsPerUnit[j1] == joint[i] == r[j2] / cfg.stepsPerUnit[j2])
  {
    MotorStepsAt(cfg, joint, prior, j1);
    MotorStepsAt(cfg, joint, prior, j2);
  }

  /** A motor's step value depends only on the joint value of its own axis (or,
      for an unmapped motor, only on its own prior value): two calls that agree
      there give that motor the same step value. */
  lemma StepDependsOnlyOnItsAxis(cfg: Config, joint1: seq<real>, joint2: seq<real>,
                                 prior1: seq<real>, prior2: seq<real>, j: nat)
    requires Fits(cfg, joint1, prior1) && Fits(cfg, joint2, prior2) && j < cfg.Motors()
    requires cfg.Mapped(j) ==> joint1[cfg.motorMap[j]] == joint2[cfg.motorMap[j]]
    requires !cfg.Mapped(j) ==> prior1[j] == prior2[j]
    ensures MotorSteps(cfg, joint1, prior1)[j] == MotorSteps(cfg, joint2, prior2)[j]
  {
    MotorStepsAt(cfg, joint1, prior1, j);
    MotorStepsAt(cfg, joint2, prior2, j);
  }

  /** When every motor is mapped to an axis, the previous step vector has no
      influence: nothing is carried over from one call to the next. */
  lemma NoCarryOver(cfg: Config, joint: seq<real>, prior1: seq<real>, prior2: seq<real>)
    requires Fits(cfg, joint, prior1) && Fits(cfg, joint, prior2)
    requires forall j :: 0 <= j < cfg.Motors() ==> cfg.Mapped(j)
    ensures MotorSteps(cfg, joint, prior1) == MotorSteps(cfg, joint, prior2)
  {
    forall j | 0 <= j < cfg.Motors()
      ensures MotorSteps(cfg, joint, prior1)[j] == MotorSteps(cfg, joint, prior2)[j]
    {
      StepDependsOnlyOnItsAxis(cfg, joint, joint, prior1, prior2, j);
    }
  }

  /** Zero travel on every axis gives zero steps on every mapped motor. */
  lemma ZeroTravelZeroSteps(cfg: Config, joint: seq<real>, prior: seq<real>, j: nat)
    requires Fits(cfg, joint, prior) && j < cfg.Motors() && cfg.Mapped(j)
    requires forall i :: 0 <= i < |joint| ==> joint[i] == 0.0
    ensures MotorSteps(cfg, joint, prior)[j] == 0.0
  {
    MotorStepsAt(cfg, joint, prior, j);
  }
}
