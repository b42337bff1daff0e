/**
  `ndJointRoller`: a joint that lets the child slide along the parent's up axis
  and spin about the parent's front axis. Every step it submits four hard rows
  for the locked degrees of freedom, then, per free axis (the spin angle and the
  slide position), a limit row when the predicted value leaves its range, and a
  spring-damper row unless the limit row reported a hard hit.
*/
module JointRoller {
  import opened ConstraintDescriptor

  /** `D_MAX_SLIDER_RECOVERY_SPEED`, `D_MAX_SLIDER_PENETRATION`,
      `D_MAX_HINGE_RECOVERY_SPEED`, `D_MAX_HINGE_PENETRATION`. */
  const MaxSliderRecoverySpeed: real := 0.5
  const MaxSliderPenetration: real := 0.05
  const MaxHingeRecoverySpeed: real := 0.25
  const MaxHingePenetration: real := 4.0 * DegreeToRad

  /** The row count the joint declares to its base class at construction. */
  const RollerMaxRows: nat := 8

  /** The recovery angular speed for a limit overshoot of `penetration` radians:
      zero when there is no overshoot, growing linearly up to the maximum
      recovery speed, which it never exceeds. */
  function PenetrationOmega(penetration: real): (omega: real)
    ensures 0.0 <= omega <= MaxHingeRecoverySpeed
    ensures penetration <= 0.0 ==> omega == 0.0
    ensures penetration >= MaxHingePenetration ==> omega == MaxHingeRecoverySpeed
  {
    MaxHingeRecoverySpeed * (Clamp(penetration, 0.0, MaxHingePenetration) / MaxHingePenetration)
  }

  lemma PenetrationOmegaMonotone(p: real, q: real)
    requires p <= q
    ensures PenetrationOmega(p) <= PenetrationOmega(q)
  {
    var cp, cq := Clamp(p, 0.0, MaxHingePenetration), Clamp(q, 0.0, MaxHingePenetration);
    assert cp <= cq;
    assert cp / MaxHingePenetration <= cq / MaxHingePenetration;
  }

  /** The recovery linear speed for a limit overshoot of `penetration` metres. */
  function PenetrationSpeed(penetration: real): (speed: real)
    ensures 0.0 <= speed <= MaxSliderRecoverySpeed
    ensures penetration <= 0.0 ==> speed == 0.0
    ensures penetration >= MaxSliderPenetration ==> speed == MaxSliderRecoverySpeed
  {
    MaxSliderRecoverySpeed * (Clamp(penetration, 0.0, MaxSliderPenetration) / MaxSliderPenetration)
  }

  lemma PenetrationSpeedMonotone(p: real, q: real)
    requires p <= q
    ensures PenetrationSpeed(p) <= PenetrationSpeed(q)
  {
    var cp, cq := Clamp(p, 0.0, MaxSliderPenetration), Clamp(q, 0.0, MaxSliderPenetration);
    assert cp <= cq;
    assert cp / MaxSliderPenetration <= cq / MaxSliderPenetration;
  }

  /** What a limit submission leaves behind: the rows it appended and the
      "limit hit" flag it returns. */
  datatype LimitOutcome = LimitOutcome(rows: seq<Row>, hit: bool)

  /** Both angle limits strictly inside one degree: the joint is locked. */
  predicate NarrowAngleRange(minLimit: real, maxLimit: real)
  {
    minLimit > -DegreeToRad && maxLimit < DegreeToRad
  }

  /** `recoveringAccel` of `SubmitLimitsAngle`: below the minimum the
      negated scaled recovery speed for the overshoot under the minimum,
      otherwise the scaled recovery speed for the overshoot above the
      maximum. */
  function AngleRecovery(predicted: real, minLimit: real, maxLimit: real, invTimestep: real): (a: real)
    ensures invTimestep >= 0.0 && predicted < minLimit ==> a <= 0.0
    ensures invTimestep >= 0.0 && predicted >= minLimit ==> a >= 0.0
    ensures minLimit <= predicted <= maxLimit ==> a == 0.0
  {
    if predicted < minLimit then -Scaled(invTimestep, PenetrationOmega(-(predicted - minLimit)))
    else Scaled(invTimestep, PenetrationOmega(predicted - maxLimit))
  }

  /** `recoveringAccel` of `SubmitLimitsPosit`. */
  function PositRecovery(predicted: real, minLimit: real, maxLimit: real, invTimestep: real): (a: real)
    ensures invTimestep >= 0.0 && predicted < minLimit ==> a <= 0.0
    ensures invTimestep >= 0.0 && predicted >= minLimit ==> a >= 0.0
    ensures minLimit <= predicted <= maxLimit ==> a == 0.0
  {
    if predicted < minLimit then -Scaled(invTimestep, PenetrationSpeed(-(predicted - minLimit)))
    else Scaled(invTimestep, PenetrationSpeed(predicted - maxLimit))
  }

  /** The recovery term pushes back inside the range and its magnitude is at
      most one step's worth of the maximum recovery speed. */
  lemma AngleRecoveryBound(predicted: real, minLimit: real, maxLimit: real, invTimestep: real)
    requires invTimestep >= 0.0
    ensures predicted < minLimit ==>
              -Scaled(invTimestep, MaxHingeRecoverySpeed) <= AngleRecovery(predicted, minLimit, maxLimit, invTimestep) <= 0.0
    ensures predicted >= minLimit ==>
              0.0 <= AngleRecovery(predicted, minLimit, maxLimit, invTimestep) <= Scaled(invTimestep, MaxHingeRecoverySpeed)
  {
    if predicted < minLimit {
      ScaledMono(invTimestep, PenetrationOmega(-(predicted - minLimit)), MaxHingeRecoverySpeed);
    } else {
      ScaledMono(invTimestep, PenetrationOmega(predicted - maxLimit), MaxHingeRecoverySpeed);
    }
  }

  lemma PositRecoveryBound(predicted: real, minLimit: real, maxLimit: real, invTimestep: real)
    requires invTimestep >= 0.0
    ensures predicted < minLimit ==>
              -Scaled(invTimestep, MaxSliderRecoverySpeed) <= PositRecovery(predicted, minLimit, maxLimit, invTimestep) <= 0.0
    ensures predicted >= minLimit ==>
              0.0 <= PositRecovery(predicted, minLimit, maxLimit, invTimestep) <= Scaled(invTimestep, MaxSliderRecoverySpeed)
  {
    if predicted < minLimit {
      ScaledMono(invTimestep, PenetrationSpeed(-(predicted - minLimit)), MaxSliderRecoverySpeed);
    } else {
      ScaledMono(invTimestep, PenetrationSpeed(predicted - maxLimit), MaxSliderRecoverySpeed);
    }
  }

  /** The angular limit row of `SubmitLimitsAngle`, as a function of the joint
      state (angle, omega after `ApplyBaseRows`) and the step. */
  function AngleLimit(limitOn: bool, minLimit: real, maxLimit: real, angle: real, omega: real,
                      timestep: real, invTimestep: real, stopAccel: real, maxStopAccel: real): (o: LimitOutcome)
    ensures o.rows == [] || (|o.rows| == 1 && !IsSpringDamper(o.rows[0]))
  {
    if !limitOn then LimitOutcome([], false)
    else if NarrowAngleRange(minLimit, maxLimit) then LimitOutcome([NewAngularRow(Front1, -angle)], true)
    else
      var predicted := angle + omega * timestep;
      var recovering := AngleRecovery(predicted, minLimit, maxLimit, invTimestep);
      if predicted < minLimit then
        var row := NewAngularRow(Front0, 0.0).(accel := Motor(stopAccel - recovering), lowerFriction := 0.0);
        LimitOutcome([row], Abs(stopAccel) > maxStopAccel)
      else if predicted > maxLimit then
        var row := NewAngularRow(Front0, 0.0).(accel := Motor(stopAccel - recovering), upperFriction := 0.0);
        LimitOutcome([row], Abs(stopAccel) > maxStopAccel)
      else
        LimitOutcome([], false)
  }

  /** With the limit off nothing is submitted; with both limits within a
      degree one hard row locks the angle and reports a hit. Otherwise a row
      appears exactly when the predicted angle leaves the range: below it with
      the lower bound closed at 0, above it with the upper bound closed at 0,
      carrying the stop acceleration minus the recovery term, and reporting a
      hit when the stop acceleration is beyond `maxStopAccel`. */
  lemma AngleLimitCases(limitOn: bool, minLimit: real, maxLimit: real, angle: real, omega: real,
                        timestep: real, invTimestep: real, stopAccel: real, maxStopAccel: real)
    ensures var o := AngleLimit(limitOn, minLimit, maxLimit, angle, omega, timestep, invTimestep, stopAccel, maxStopAccel);
      && (o.rows == [] ==> !o.hit)
      && (!limitOn ==> o == LimitOutcome([], false))
      && (limitOn && NarrowAngleRange(minLimit, maxLimit) ==>
            o == LimitOutcome([NewAngularRow(Front1, -angle)], true))
      && (limitOn && !NarrowAngleRange(minLimit, maxLimit) ==>
            var predicted := angle + omega * timestep;
            && (o.rows == [] <==> minLimit <= predicted <= maxLimit)
            && (o.rows != [] ==>
                  && o.rows[0].jacobian == AngularRow(Front0, 0.0)
                  && o.rows[0].accel == Motor(stopAccel - AngleRecovery(predicted, minLimit, maxLimit, invTimestep))
                  && o.hit == (Abs(stopAccel) > maxStopAccel))
            && (predicted < minLimit ==>
                  o.rows[0].lowerFriction == 0.0 && o.rows[0].upperFriction == LcpMaxValue)
            && (minLimit <= predicted && predicted > maxLimit ==>
                  o.rows[0].lowerFriction == -LcpMaxValue && o.rows[0].upperFriction == 0.0))
  {
  }

  /** The linear limit row of `SubmitLimitsPosit`. Below the minimum the row is
      anchored at the minimum-limit point on the parent's front axis; above the
      maximum the source anchors both ends of the row at the child pivot. */
  function PositLimit(limitOn: bool, minLimit: real, maxLimit: real, posit: real, speed: real,
                      timestep: real, invTimestep: real, stopAccel: real, maxStopAccel: real): (o: LimitOutcome)
    ensures o.rows == [] || (|o.rows| == 1 && !IsSpringDamper(o.rows[0]))
  {
    if !limitOn then LimitOutcome([], false)
    else if minLimit == 0.0 && maxLimit == 0.0 then LimitOutcome([NewLinearRow(Front1, Pivot0, Pivot1)], true)
    else
      var predicted := posit + speed * timestep;
      var recovering := PositRecovery(predicted, minLimit, maxLimit, invTimestep);
      if predicted < minLimit then
        var row := NewLinearRow(Front1, Pivot0, Pivot1Offset(Front1, minLimit))
                     .(accel := Motor(stopAccel - recovering), lowerFriction := 0.0);
        LimitOutcome([row], Abs(stopAccel) > maxStopAccel)
      else if predicted > maxLimit then
        var row := NewLinearRow(Front1, Pivot0, Pivot0)
                     .(accel := Motor(stopAccel - recovering), upperFriction := 0.0);
        LimitOutcome([row], Abs(stopAccel) > maxStopAccel)
      else
        LimitOutcome([], false)
  }

  /** The same pattern for the slide position; both limits exactly 0 lock it
      with one hard linear row. */
  lemma PositLimitCases(limitOn: bool, minLimit: real, maxLimit: real, posit: real, speed: real,
                        timestep: real, invTimestep: real, stopAccel: real, maxStopAccel: real)
    ensures var o := PositLimit(limitOn, minLimit, maxLimit, posit, speed, timestep, invTimestep, stopAccel, maxStopAccel);
      && (o.rows == [] ==> !o.hit)
      && (!limitOn ==> o == LimitOutcome([], false))
      && (limitOn && minLimit == 0.0 && maxLimit == 0.0 ==>
            o == LimitOutcome([NewLinearRow(Front1, Pivot0, Pivot1)], true))
      && (limitOn && !(minLimit == 0.0 && maxLimit == 0.0) ==>
            var predicted := posit + speed * timestep;
            && (o.rows == [] <==> minLimit <= predicted <= maxLimit)
            && (o.rows != [] ==>
                  && IsLinear(o.rows[0]) && o.rows[0].jacobian.axis == Front1
                  && o.rows[0].accel == Motor(stopAccel - PositRecovery(predicted, minLimit, maxLimit, invTimestep))
                  && o.hit == (Abs(stopAccel) > maxStopAccel))
            && (predicted < minLimit ==>
                  o.rows[0].jacobian.p1 == Pivot1Offset(Front1, minLimit)
                  && o.rows[0].lowerFriction == 0.0 && o.rows[0].upperFriction == LcpMaxValue)
            && (minLimit <= predicted && predicted > maxLimit ==>
                  o.rows[0].jacobian.p1 == Pivot0
                  && o.rows[0].lowerFriction == -LcpMaxValue && o.rows[0].upperFriction == 0.0))
  {
  }

  /** The limit row's motor acceleration departs from the stop acceleration by
      at most one step's worth of the maximum hinge recovery speed, pushing the
      joint back inside its range: upwards below the minimum, downwards above
      the maximum. */
  lemma AngleLimitRecoveryBound(limitOn: bool, minLimit: real, maxLimit: real, angle: real, omega: real,
                                timestep: real, invTimestep: real, stopAccel: real, maxStopAccel: real)
    requires invTimestep >= 0.0
    ensures var o := AngleLimit(limitOn, minLimit, maxLimit, angle, omega, timestep, invTimestep, stopAccel, maxStopAccel);
            var predicted := angle + omega * timestep;
            limitOn && !NarrowAngleRange(minLimit, maxLimit) && o.rows != [] ==>
              && (predicted < minLimit ==>
                    stopAccel <= o.rows[0].accel.accel <= stopAccel + invTimestep * MaxHingeRecoverySpeed)
              && (predicted >= minLimit ==>
                    stopAccel - invTimestep * MaxHingeRecoverySpeed <= o.rows[0].accel.accel <= stopAccel)
  {
    AngleLimitCases(limitOn, minLimit, maxLimit, angle, omega, timestep, invTimestep, stopAccel, maxStopAccel);
    AngleRecoveryBound(angle + omega * timestep, minLimit, maxLimit, invTimestep);
  }

  /** The same bound for the slide limit, with the slider recovery speed. */
  lemma PositLimitRecoveryBound(limitOn: bool, minLimit: real, maxLimit: real, posit: real, speed: real,
                                timestep: real, invTimestep: real, stopAccel: real, maxStopAccel: real)
    requires invTimestep >= 0.0
    ensures var o := PositLimit(limitOn, minLimit, maxLimit, posit, speed, timestep, invTimestep, stopAccel, maxStopAccel);
            var predicted := posit + speed * timestep;
            limitOn && !(minLimit == 0.0 && maxLimit == 0.0) && o.rows != [] ==>
              && (predicted < minLimit ==>
                    stopAccel <= o.rows[0].accel.accel <= stopAccel + invTimestep * MaxSliderRecoverySpeed)
              && (predicted >= minLimit ==>
                    stopAccel - invTimestep * MaxSliderRecoverySpeed <= o.rows[0].accel.accel <= stopAccel)
  {
    PositLimitCases(limitOn, minLimit, maxLimit, posit, speed, timestep, invTimestep, stopAccel, maxStopAccel);
    PositRecoveryBound(posit + speed * timestep, minLimit, maxLimit, invTimestep);
  }

  /** The four rows `ApplyBaseRows` always submits, in this order: two linear
      rows across the slide axis, two angular rows across the spin axis. */
  function BaseRows(angleAboutUp: real, angleAboutRight: real): (r: seq<Row>)
    ensures |r| == 4
    ensures IsLinear(r[0]) && IsLinear(r[1]) && IsAngular(r[2]) && IsAngular(r[3])
    ensures forall i :: 0 <= i < 4 ==> r[i].accel == FromError
  {
    [ NewLinearRow(Front1, Pivot0, ProjectedPivot),
      NewLinearRow(Right1, Pivot0, ProjectedPivot),
      NewAngularRow(Up1, angleAboutUp),
      NewAngularRow(Right1, angleAboutRight) ]
  }

  /** Spring, damper, regularizer, limits, offset and limit switch of one free axis. */
  datatype AxisConfig = AxisConfig(spring: real, damper: real, regularizer: real,
                                   minLimit: real, maxLimit: real, offset: real, limitOn: bool)

  /** The spring-damper row of the spin axis (`SubmitSpringDamperAngle`). */
  function AngleSpringRow(c: AxisConfig, angle: real): (r: Row)
    ensures r.jacobian == AngularRow(Front0, c.offset - angle)
    ensures r.accel == SpringDamper(c.regularizer, c.spring, c.damper)
  {
    NewAngularRow(Front0, c.offset - angle).(accel := SpringDamper(c.regularizer, c.spring, c.damper))
  }

  /** The spring-damper row of the slide axis (`SubmitSpringDamperPosit`): along
      the parent's up axis, towards the point `offset` along it. */
  function PositSpringRow(c: AxisConfig): (r: Row)
    ensures IsLinear(r) && r.jacobian == LinearRow(Up1, Pivot0, Pivot1Offset(Up1, c.offset))
    ensures r.accel == SpringDamper(c.regularizer, c.spring, c.damper)
  {
    NewLinearRow(Up1, Pivot0, Pivot1Offset(Up1, c.offset)).(accel := SpringDamper(c.regularizer, c.spring, c.damper))
  }

  /** As written, every slide-limit row acts along the parent's front axis, the
      direction the first base row already holds, while the slide position is
      measured along the parent's up axis and the slide spring acts along it. */
  lemma PositLimitAlongBaseAxis(limitOn: bool, minLimit: real, maxLimit: real, posit: real, speed: real,
                                timestep: real, invTimestep: real, stopAccel: real, maxStopAccel: real,
                                angleAboutUp: real, angleAboutRight: real, c: AxisConfig)
    ensures var o := PositLimit(limitOn, minLimit, maxLimit, posit, speed, timestep, invTimestep, stopAccel, maxStopAccel);
            o.rows != [] ==>
              && o.rows[0].jacobian.axis == BaseRows(angleAboutUp, angleAboutRight)[0].jacobian.axis
              && o.rows[0].jacobian.axis != PositSpringRow(c).jacobian.axis
  {
    PositLimitCases(limitOn, minLimit, maxLimit, posit, speed, timestep, invTimestep, stopAccel, maxStopAccel);
  }

  /** Number of spring-damper rows in `rows`. */
  function SpringDamperCount(rows: seq<Row>): (n: nat)
    ensures n <= |rows|
  {
    if rows == [] then 0 else (if IsSpringDamper(rows[0]) then 1 else 0) + SpringDamperCount(rows[1..])
  }

  lemma {:induction false} SpringDamperCountNone(rows: seq<Row>)
    requires forall i :: 0 <= i < |rows| ==> !IsSpringDamper(rows[i])
    ensures SpringDamperCount(rows) == 0
  {
    if rows != [] {
      SpringDamperCountNone(rows[1..]);
    }
  }

  lemma {:induction false} SpringDamperCountAppend(a: seq<Row>, b: seq<Row>)
    ensures SpringDamperCount(a + b) == SpringDamperCount(a) + SpringDamperCount(b)
  {
    if a == [] {
      assert a + b == b;
    } else {
      assert (a + b)[1..] == a[1..] + b;
      SpringDamperCountAppend(a[1..], b);
    }
  }

  /** A spring row follows a limit submission only when that submission did not
      report a hit and the axis has a spring or a damper. */
  predicate SpringGate(c: AxisConfig, limit: LimitOutcome)
  {
    !limit.hit && (c.spring > 0.0 || c.damper > 0.0)
  }

  /** The measured quantities `JacobianDerivative` takes from the two body frames
      and the solver. */
  datatype RollerGeometry = RollerGeometry(
    positAlongUp: real,     // (p0 - p1) . matrix1.m_up
    speedAlongUp: real,     // (v0 - v1) . matrix1.m_up at the pivots
    angleAboutUp: real,     // CalculateAngle(front0, front1, up1)
    angleAboutRight: real,  // CalculateAngle(front0, front1, right1)
    spinAngle: real,        // CalculateAngle(up0, up1, front1)
    omegaAboutFront: real,  // front1 . (omega0 - omega1)
    angleStopAccel: real,   // GetMotorZeroAcceleration for the angle limit row
    positStopAccel: real)   // GetMotorZeroAcceleration for the position limit row

  /** The rows one `JacobianDerivative` call appends, given the axis settings and
      the joint state after `ApplyBaseRows` has updated it. */
  function RollerRows(ca: AxisConfig, cp: AxisConfig, angle: real, omega: real, posit: real, speed: real,
                      g: RollerGeometry, timestep: real, invTimestep: real, maxStopAccel: real): (r: seq<Row>)
    ensures 4 <= |r| <= RollerMaxRows
    ensures r[..4] == BaseRows(g.angleAboutUp, g.angleAboutRight)
  {
    var la := AngleLimit(ca.limitOn, ca.minLimit, ca.maxLimit, angle, omega, timestep, invTimestep, g.angleStopAccel, maxStopAccel);
    var lp := PositLimit(cp.limitOn, cp.minLimit, cp.maxLimit, posit, speed, timestep, invTimestep, g.positStopAccel, maxStopAccel);
    var sa := if SpringGate(ca, la) then [AngleSpringRow(ca, angle)] else [];
    var sp := if SpringGate(cp, lp) then [PositSpringRow(cp)] else [];
    var base := BaseRows(g.angleAboutUp, g.angleAboutRight);
    assert (base + la.rows + sa + lp.rows + sp)[..4] == base;
    base + la.rows + sa + lp.rows + sp
  }

  /** The spring-damper rows of a step are exactly the gated ones: one per axis
      whose limit did not report a hit and that has a spring or a damper. */
  lemma RollerRowsGating(ca: AxisConfig, cp: AxisConfig, angle: real, omega: real, posit: real, speed: real,
                         g: RollerGeometry, timestep: real, invTimestep: real, maxStopAccel: real)
    ensures
      var r := RollerRows(ca, cp, angle, omega, posit, speed, g, timestep, invTimestep, maxStopAccel);
      var la := AngleLimit(ca.limitOn, ca.minLimit, ca.maxLimit, angle, omega, timestep, invTimestep, g.angleStopAccel, maxStopAccel);
      var lp := PositLimit(cp.limitOn, cp.minLimit, cp.maxLimit, posit, speed, timestep, invTimestep, g.positStopAccel, maxStopAccel);
      && SpringDamperCount(r) == (if SpringGate(ca, la) then 1 else 0) + (if SpringGate(cp, lp) then 1 else 0)
      && |r| == 4 + |la.rows| + (if SpringGate(ca, la) then 1 else 0) + |lp.rows| + (if SpringGate(cp, lp) then 1 else 0)
      && (SpringGate(ca, la) ==> AngleSpringRow(ca, angle) in r)
      && (SpringGate(cp, lp) ==> PositSpringRow(cp) in r)
  {
    var r := RollerRows(ca, cp, angle, omega, posit, speed, g, timestep, invTimestep, maxStopAccel);
    var la := AngleLimit(ca.limitOn, ca.minLimit, ca.maxLimit, angle, omega, timestep, invTimestep, g.angleStopAccel, maxStopAccel);
    var lp := PositLimit(cp.limitOn, cp.minLimit, cp.maxLimit, posit, speed, timestep, invTimestep, g.positStopAccel, maxStopAccel);
    var sa := if SpringGate(ca, la) then [AngleSpringRow(ca, angle)] else [];
    var sp := if SpringGate(cp, lp) then [PositSpringRow(cp)] else [];
    var base := BaseRows(g.angleAboutUp, g.angleAboutRight);
    assert r == base + la.rows + sa + lp.rows + sp;
    SpringDamperCountAppend(base + la.rows + sa + lp.rows, sp);
    SpringDamperCountAppend(base + la.rows + sa, lp.rows);
    SpringDamperCountAppend(base + la.rows, sa);
    SpringDamperCountAppend(base, la.rows);
    SpringDamperCountNone(base);
    SpringDamperCountNone(la.rows);
    SpringDamperCountNone(lp.rows);
  }

  /** Appending five pieces one after another appends their concatenation. */
  lemma AppendRegroup(r: seq<Row>, a: seq<Row>, b: seq<Row>, c: seq<Row>, d: seq<Row>, e: seq<Row>)
    ensures r + a + b + c + d + e == r + (a + b + c + d + e)
  {
  }

  /** The spin angle after `SetLimitsAngle`: outside the new range it is re-expressed
      through `anglesAdd` relative to the bound it crossed. */
  function LimitedAngle(angle: real, minLimit: real, maxLimit: real, anglesAdd: (real, real) -> real): (a: real)
    ensures minLimit <= angle <= maxLimit ==> a == angle
    ensures anglesAdd(angle, -maxLimit) == angle - maxLimit && anglesAdd(angle, -minLimit) == angle - minLimit ==> a == angle
  {
    if angle > maxLimit then maxLimit + anglesAdd(angle, -maxLimit)
    else if angle < minLimit then minLimit + anglesAdd(angle, -minLimit)
    else angle
  }

  class Roller {
    var angle: real
    var omega: real
    var springKAngle: real
    var damperCAngle: real
    var minLimitAngle: real
    var maxLimitAngle: real
    var offsetAngle: real
    var springDamperRegularizerAngle: real
    var posit: real
    var speed: real
    var springKPosit: real
    var damperCPosit: real
    var minLimitPosit: real
    var maxLimitPosit: real
    var offsetPosit: real
    var springDamperRegularizerPosit: real
    var limitStatePosit: bool
    var limitStateAngle: bool

    /** What the setters keep: non-negative springs and dampers, regularizers in
        [0.01, 0.99] after a spring-damper setter (or the default 0.1), and every
        limit range straddling zero. */
    ghost predicate Valid()
      reads this
    {
      && springKAngle >= 0.0 && damperCAngle >= 0.0 && 0.01 <= springDamperRegularizerAngle <= 0.99
      && springKPosit >= 0.0 && damperCPosit >= 0.0 && 0.01 <= springDamperRegularizerPosit <= 0.99
      && minLimitAngle <= 0.0 <= maxLimitAngle
      && minLimitPosit <= 0.0 <= maxLimitPosit
    }

    function AngleConfig(): (c: AxisConfig)
      reads this
      ensures c.spring == springKAngle && c.damper == damperCAngle && c.limitOn == limitStateAngle
    {
      AxisConfig(springKAngle, damperCAngle, springDamperRegularizerAngle,
                 minLimitAngle, maxLimitAngle, offsetAngle, limitStateAngle)
    }

    function PositConfig(): (c: AxisConfig)
      reads this
      ensures c.spring == springKPosit && c.damper == damperCPosit && c.limitOn == limitStatePosit
    {
      AxisConfig(springKPosit, damperCPosit, springDamperRegularizerPosit,
                 minLimitPosit, maxLimitPosit, offsetPosit, limitStatePosit)
    }

    /** Both constructors: everything zero, limits at -/+1e10, regularizers 0.1,
        both limit switches off. */
    constructor ()
      ensures Valid()
      ensures angle == 0.0 && omega == 0.0 && posit == 0.0 && speed == 0.0
      ensures springKAngle == 0.0 && damperCAngle == 0.0 && springKPosit == 0.0 && damperCPosit == 0.0
      ensures minLimitAngle == -1.0e10 && maxLimitAngle == 1.0e10
      ensures minLimitPosit == -1.0e10 && maxLimitPosit == 1.0e10
      ensures offsetAngle == 0.0 && offsetPosit == 0.0
      ensures springDamperRegularizerAngle == 0.1 && springDamperRegularizerPosit == 0.1
      ensures !limitStateAngle && !limitStatePosit
    {
      angle, omega := 0.0, 0.0;
      springKAngle, damperCAngle := 0.0, 0.0;
      minLimitAngle, maxLimitAngle := -1.0e10, 1.0e10;
      offsetAngle := 0.0;
      springDamperRegularizerAngle := 0.1;
      posit, speed := 0.0, 0.0;
      springKPosit, damperCPosit := 0.0, 0.0;
      minLimitPosit, maxLimitPosit := -1.0e10, 1.0e10;
      offsetPosit := 0.0;
      springDamperRegularizerPosit := 0.1;
      limitStatePosit, limitStateAngle := false, false;
    }

    /** The spin angle `m_angle` that `JacobianDerivative` last measured. */
    function GetAngle(): (a: real)
      reads this
      ensures a == angle
    {
      angle
    }

    /** The spin rate `m_omega` that `JacobianDerivative` last measured. */
    function GetOmega(): (w: real)
      reads this
      ensures w == omega
    {
      omega
    }

    /** The slide position `m_posit` that `JacobianDerivative` last measured. */
    function GetPosit(): (x: real)
      reads this
      ensures x == posit
    {
      posit
    }

    function GetLimitStateAngle(): (on: bool)
      reads this
      ensures on == AngleConfig().limitOn
    {
      limitStateAngle
    }

    function GetLimitStatePosit(): (on: bool)
      reads this
      ensures on == PositConfig().limitOn
    {
      limitStatePosit
    }

    /** Both spin limits; in a valid roller the range straddles zero. */
    function GetLimitsAngle(): (limits: (real, real))
      reads this
      ensures limits == (AngleConfig().minLimit, AngleConfig().maxLimit)
      ensures Valid() ==> limits.0 <= 0.0 <= limits.1
    {
      (minLimitAngle, maxLimitAngle)
    }

    function GetOffsetAngle(): (offset: real)
      reads this
      ensures offset == AngleConfig().offset
    {
      offsetAngle
    }

    /** Regularizer, spring and damper of the spin axis; in a valid roller the
        gains are non-negative and the regularizer lies in [0.01, 0.99]. */
    function GetSpringDamperAngle(): (g: (real, real, real))
      reads this
      ensures g == (AngleConfig().regularizer, AngleConfig().spring, AngleConfig().damper)
      ensures Valid() ==> 0.01 <= g.0 <= 0.99 && g.1 >= 0.0 && g.2 >= 0.0
    {
      (springDamperRegularizerAngle, springKAngle, damperCAngle)
    }

    function GetOffsetPosit(): (offset: real)
      reads this
      ensures offset == PositConfig().offset
    {
      offsetPosit
    }

    /** Both slide limits; in a valid roller the range straddles zero. */
    function GetLimitsPosit(): (limits: (real, real))
      reads this
      ensures limits == (PositConfig().minLimit, PositConfig().maxLimit)
      ensures Valid() ==> limits.0 <= 0.0 <= limits.1
    {
      (minLimitPosit, maxLimitPosit)
    }

    /** Regularizer, spring and damper of the slide axis; in a valid roller the
        gains are non-negative and the regularizer lies in [0.01, 0.99]. */
    function GetSpringDamperPosit(): (g: (real, real, real))
      reads this
      ensures g == (PositConfig().regularizer, PositConfig().spring, PositConfig().damper)
      ensures Valid() ==> 0.01 <= g.0 <= 0.99 && g.1 >= 0.0 && g.2 >= 0.0
    {
      (springDamperRegularizerPosit, springKPosit, damperCPosit)
    }

    method SetLimitsAngle(minLimit: real, maxLimit: real, anglesAdd: (real, real) -> real)
      requires Valid()
      requires minLimit <= 0.0 && maxLimit >= 0.0
      modifies this
      ensures Valid()
      ensures minLimitAngle == minLimit && maxLimitAngle == maxLimit
      ensures angle == LimitedAngle(old(angle), minLimit, maxLimit, anglesAdd)
      ensures old(minLimit <= angle <= maxLimit) ==> angle == old(angle)
      ensures limitStateAngle == old(limitStateAngle) && AngleConfig() == old(AngleConfig()).(minLimit := minLimit, maxLimit := maxLimit)
      ensures PositConfig() == old(PositConfig()) && omega == old(omega) && posit == old(posit) && speed == old(speed)
    {
      minLimitAngle := minLimit;
      maxLimitAngle := maxLimit;
      if angle > maxLimitAngle {
        var deltaAngle := anglesAdd(angle, -maxLimitAngle);
        angle := maxLimitAngle + deltaAngle;
      } else if angle < minLimitAngle {
        var deltaAngle := anglesAdd(angle, -minLimitAngle);
        angle := minLimitAngle + deltaAngle;
      }
    }

    /** Switching the angle limit on re-applies the stored limits. */
    method SetLimitStateAngle(state: bool, anglesAdd: (real, real) -> real)
      requires Valid()
      modifies this
      ensures Valid()
      ensures limitStateAngle == state
      ensures minLimitAngle == old(minLimitAngle) && maxLimitAngle == old(maxLimitAngle)
      ensures angle == if state then LimitedAngle(old(angle), minLimitAngle, maxLimitAngle, anglesAdd) else old(angle)
      ensures PositConfig() == old(PositConfig()) && omega == old(omega) && posit == old(posit) && speed == old(speed)
    {
      limitStateAngle := state;
      if limitStateAngle {
        SetLimitsAngle(minLimitAngle, maxLimitAngle, anglesAdd);
      }
    }

    method SetLimitStatePosit(state: bool)
      requires Valid()
      modifies this`limitStatePosit
      ensures Valid()
      ensures limitStatePosit == state
    {
      limitStatePosit := state;
    }

    method SetLimitsPosit(minLimit: real, maxLimit: real)
      requires Valid()
      requires minLimit <= 0.0 && maxLimit >= 0.0
      modifies this`minLimitPosit, this`maxLimitPosit
      ensures Valid()
      ensures minLimitPosit == minLimit && maxLimitPosit == maxLimit
    {
      minLimitPosit := minLimit;
      maxLimitPosit := maxLimit;
    }

    method SetOffsetAngle(a: real)
      requires Valid()
      modifies this`offsetAngle
      ensures Valid()
      ensures offsetAngle == a
    {
      offsetAngle := a;
    }

    method SetOffsetPosit(offset: real)
      requires Valid()
      modifies this`offsetPosit
      ensures Valid()
      ensures offsetPosit == offset
    {
      offsetPosit := offset;
    }

    method SetAsSpringDamperAngle(regularizer: real, spring: real, damper: real)
      requires Valid()
      modifies this`springKAngle, this`damperCAngle, this`springDamperRegularizerAngle
      ensures Valid()
      ensures springKAngle == Abs(spring) && damperCAngle == Abs(damper)
      ensures springDamperRegularizerAngle == Clamp(regularizer, 0.01, 0.99)
    {
      springKAngle := Abs(spring);
      damperCAngle := Abs(damper);
      springDamperRegularizerAngle := Clamp(regularizer, 0.01, 0.99);
    }

    method SetAsSpringDamperPosit(regularizer: real, spring: real, damper: real)
      requires Valid()
      modifies this`springKPosit, this`damperCPosit, this`springDamperRegularizerPosit
      ensures Valid()
      ensures springKPosit == Abs(spring) && damperCPosit == Abs(damper)
      ensures springDamperRegularizerPosit == Clamp(regularizer, 0.01, 0.99)
    {
      springKPosit := Abs(spring);
      damperCPosit := Abs(damper);
      springDamperRegularizerPosit := Clamp(regularizer, 0.01, 0.99);
    }

    method SubmitSpringDamperAngle(desc: Descriptor)
      modifies desc
      ensures desc.rows == old(desc.rows) + [AngleSpringRow(AngleConfig(), angle)]
    {
      desc.AddAngularRow(Front0, offsetAngle - angle);
      desc.SetMassSpringDamperAcceleration(springDamperRegularizerAngle, springKAngle, damperCAngle);
    }

    method SubmitSpringDamperPosit(desc: Descriptor)
      modifies desc
      ensures desc.rows == old(desc.rows) + [PositSpringRow(PositConfig())]
    {
      desc.AddLinearRow(Up1, Pivot0, Pivot1Offset(Up1, offsetPosit));
      desc.SetMassSpringDamperAcceleration(springDamperRegularizerPosit, springKPosit, damperCPosit);
    }

    /** The four locked rows, then the spin angle is advanced by the wrapped
        difference to the measured angle and the slide state is measured. */
    method ApplyBaseRows(desc: Descriptor, g: RollerGeometry, anglesAdd: (real, real) -> real)
      modifies this`angle, this`omega, this`posit, this`speed, desc
      ensures desc.rows == old(desc.rows) + BaseRows(g.angleAboutUp, g.angleAboutRight)
      ensures speed == g.speedAlongUp && posit == g.positAlongUp && omega == g.omegaAboutFront
      ensures angle == old(angle) + anglesAdd(-g.spinAngle, -old(angle))
    {
      speed := g.speedAlongUp;
      posit := g.positAlongUp;
      desc.AddLinearRow(Front1, Pivot0, ProjectedPivot);
      desc.AddLinearRow(Right1, Pivot0, ProjectedPivot);
      desc.AddAngularRow(Up1, g.angleAboutUp);
      desc.AddAngularRow(Right1, g.angleAboutRight);
      var deltaAngle := anglesAdd(-g.spinAngle, -angle);
      angle := angle + deltaAngle;
      omega := g.omegaAboutFront;
    }

    method SubmitLimitsAngle(desc: Descriptor, stopAccel: real, maxStopAccel: real) returns (hit: bool)
      modifies desc
      ensures var o := AngleLimit(limitStateAngle, minLimitAngle, maxLimitAngle, angle, omega,
                                  desc.timestep, desc.invTimestep, stopAccel, maxStopAccel);
              desc.rows == old(desc.rows) + o.rows && hit == o.hit
    {
      ghost var r0 := desc.rows;
      ghost var o := AngleLimit(limitStateAngle, minLimitAngle, maxLimitAngle, angle, omega,
                             desc.timestep, desc.invTimestep, stopAccel, maxStopAccel);
      hit := false;
      if limitStateAngle {
        if NarrowAngleRange(minLimitAngle, maxLimitAngle) {
          desc.AddAngularRow(Front1, -angle);
          hit := true;
        } else {
          var predicted := angle + omega * desc.timestep;
          if predicted < minLimitAngle {
            desc.AddAngularRow(Front0, 0.0);
            var penetration := predicted - minLimitAngle;
            var recoveringAccel := -desc.invTimestep * PenetrationOmega(-penetration);
            assert recoveringAccel == AngleRecovery(predicted, minLimitAngle, maxLimitAngle, desc.invTimestep);
            desc.SetMotorAcceleration(stopAccel - recoveringAccel);
            desc.SetLowerFriction(0.0);
            assert desc.rows == r0 + [NewAngularRow(Front0, 0.0).(accel := Motor(stopAccel - recoveringAccel), lowerFriction := 0.0)];
            hit := Abs(stopAccel) > maxStopAccel;
          } else if predicted > maxLimitAngle {
            desc.AddAngularRow(Front0, 0.0);
            var penetration := predicted - maxLimitAngle;
            var recoveringAccel := desc.invTimestep * PenetrationOmega(penetration);
            assert recoveringAccel == AngleRecovery(predicted, minLimitAngle, maxLimitAngle, desc.invTimestep);
            desc.SetMotorAcceleration(stopAccel - recoveringAccel);
            desc.SetHighFriction(0.0);
            assert desc.rows == r0 + [NewAngularRow(Front0, 0.0).(accel := Motor(stopAccel - recoveringAccel), upperFriction := 0.0)];
            hit := Abs(stopAccel) > maxStopAccel;
          }
        }
      }
    }

    method SubmitLimitsPosit(desc: Descriptor, stopAccel: real, maxStopAccel: real) returns (hit: bool)
      modifies desc
      ensures var o := PositLimit(limitStatePosit, minLimitPosit, maxLimitPosit, posit, speed,
                                  desc.timestep, desc.invTimestep, stopAccel, maxStopAccel);
              desc.rows == old(desc.rows) + o.rows && hit == o.hit
    {
      ghost var r0 := desc.rows;
      ghost var o := PositLimit(limitStatePosit, minLimitPosit, maxLimitPosit, posit, speed,
                             desc.timestep, desc.invTimestep, stopAccel, maxStopAccel);
      hit := false;
      if limitStatePosit {
        if minLimitPosit == 0.0 && maxLimitPosit == 0.0 {
          desc.AddLinearRow(Front1, Pivot0, Pivot1);
          hit := true;
        } else {
          var x := posit + speed * desc.timestep;
          if x < minLimitPosit {
            desc.AddLinearRow(Front1, Pivot0, Pivot1Offset(Front1, minLimitPosit));
            var penetration := x - minLimitPosit;
            var recoveringAccel := -desc.invTimestep * PenetrationSpeed(-penetration);
            assert recoveringAccel == PositRecovery(x, minLimitPosit, maxLimitPosit, desc.invTimestep);
            desc.SetMotorAcceleration(stopAccel - recoveringAccel);
            desc.SetLowerFriction(0.0);
            assert desc.rows == r0 + [NewLinearRow(Front1, Pivot0, Pivot1Offset(Front1, minLimitPosit)).(accel := Motor(stopAccel - recoveringAccel), lowerFriction := 0.0)];
            hit := Abs(stopAccel) > maxStopAccel;
          } else if x > maxLimitPosit {
            desc.AddLinearRow(Front1, Pivot0, Pivot0);
            var penetration := x - maxLimitPosit;
            var recoveringAccel := desc.invTimestep * PenetrationSpeed(penetration);
            assert recoveringAccel == PositRecovery(x, minLimitPosit, maxLimitPosit, desc.invTimestep);
            desc.SetMotorAcceleration(stopAccel - recoveringAccel);
            desc.SetHighFriction(0.0);
            assert desc.rows == r0 + [NewLinearRow(Front1, Pivot0, Pivot0).(accel := Motor(stopAccel - recoveringAccel), upperFriction := 0.0)];
            hit := Abs(stopAccel) > maxStopAccel;
          }
        }
      }
    }

    /** One step's rows: the base rows, then per axis the limit row and, unless
        the limit reported a hit, the spring-damper row. */
    method JacobianDerivative(desc: Descriptor, g: RollerGeometry, anglesAdd: (real, real) -> real, maxStopAccel: real)
      modifies this`angle, this`omega, this`posit, this`speed, desc
      ensures speed == g.speedAlongUp && posit == g.positAlongUp && omega == g.omegaAboutFront
      ensures angle == old(angle) + anglesAdd(-g.spinAngle, -old(angle))
      ensures desc.rows == old(desc.rows) + RollerRows(AngleConfig(), PositConfig(), angle, omega, posit, speed,
                                                       g, desc.timestep, desc.invTimestep, maxStopAccel)
    {
      ghost var r0 := desc.rows;
      ApplyBaseRows(desc, g, anglesAdd);
      ghost var r1 := desc.rows;
      ghost var la := AngleLimit(limitStateAngle, minLimitAngle, maxLimitAngle, angle, omega,
                                 desc.timestep, desc.invTimestep, g.angleStopAccel, maxStopAccel);
      var hitLimitAngle := SubmitLimitsAngle(desc, g.angleStopAccel, maxStopAccel);
      ghost var r2 := desc.rows;
      if !hitLimitAngle {
        if springKAngle > 0.0 || damperCAngle > 0.0 {
          SubmitSpringDamperAngle(desc);
        }
      }
      ghost var sa := if SpringGate(AngleConfig(), la) then [AngleSpringRow(AngleConfig(), angle)] else [];
      assert desc.rows == r2 + sa;
      ghost var r3 := desc.rows;
      ghost var lp := PositLimit(limitStatePosit, minLimitPosit, maxLimitPosit, posit, speed,
                                 desc.timestep, desc.invTimestep, g.positStopAccel, maxStopAccel);
      var hitLimitPosit := SubmitLimitsPosit(desc, g.positStopAccel, maxStopAccel);
      ghost var r4 := desc.rows;
      if !hitLimitPosit {
        if springKPosit > 0.0 || damperCPosit > 0.0 {
          SubmitSpringDamperPosit(desc);
        }
      }
      ghost var sp := if SpringGate(PositConfig(), lp) then [PositSpringRow(PositConfig())] else [];
      assert desc.rows == r4 + sp;
      assert r4 == r3 + lp.rows;
      assert r2 == r1 + la.rows;
      assert r1 == r0 + BaseRows(g.angleAboutUp, g.angleAboutRight);
      assert desc.rows == r0 + BaseRows(g.angleAboutUp, g.angleAboutRight) + la.rows + sa + lp.rows + sp;
      AppendRegroup(r0, BaseRows(g.angleAboutUp, g.angleAboutRight), la.rows, sa, lp.rows, sp);
      assert desc.rows == r0 + (BaseRows(g.angleAboutUp, g.angleAboutRight) + la.rows + sa + lp.rows + sp);
    }
  }
}
