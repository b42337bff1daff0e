/**
  `ndJointPdActuator`: a ball-and-socket style joint driven towards a target
  frame by proportional-derivative (spring-damper) rows. Every step it submits
  three linear rows for the pivot, then, unless the twist regularizer is zero,
  the angular rows of one of two paths chosen by how closely the two front axes
  line up: a Cartesian approximation when they are nearly parallel, the exact
  swing path otherwise. Both paths close with the twist limit row.
*/
module JointPdActuator {
  import opened ConstraintDescriptor

  /** `D_PD_MAX_ANGLE`, `D_PD_PENETRATION_RECOVERY_ANGULAR_SPEED`,
      `D_PD_PENETRATION_ANGULAR_LIMIT` and `D_PD_SMALL_DISTANCE_ERROR2`. */
  const PdMaxAngle: real := 120.0 * DegreeToRad
  const PdRecoveryAngularSpeed: real := 0.1
  const PdPenetrationAngularLimit: real := 10.0 * DegreeToRad
  const PdSmallDistanceError2: real := 0.01 * 0.01

  /** The cosine between the front axes above which the Cartesian
      approximation is used, and the squared length of the rotation pin
      below which the PD rotation falls back to three frame angles. */
  const CartesianFrontCos: real := 0.998
  const PinMag2Epsilon: real := 1.0e-7

  /** The row count the joint declares to its base class at construction. */
  const PdMaxRows: nat := 8

  /** Spring, damper and regularizer of one group of rows. */
  datatype Gains = Gains(spring: real, damper: real, regularizer: real)

  /** `dMax(x, 0)` on each of the three gains, as every gain setter stores them. */
  function ClampGains(spring: real, damper: real, regularizer: real): (g: Gains)
    ensures g.spring >= 0.0 && g.damper >= 0.0 && g.regularizer >= 0.0
    ensures spring >= 0.0 ==> g.spring == spring
    ensures damper >= 0.0 ==> g.damper == damper
    ensures regularizer >= 0.0 ==> g.regularizer == regularizer
    ensures spring < 0.0 ==> g.spring == 0.0
    ensures damper < 0.0 ==> g.damper == 0.0
    ensures regularizer < 0.0 ==> g.regularizer == 0.0
  {
    Gains(Max(spring, 0.0), Max(damper, 0.0), Max(regularizer, 0.0))
  }

  /** The cone limit `SetConeLimit` stores: the magnitude of the request,
      capped just below the largest cone angle. */
  function ConeLimit(maxConeAngle: real): (c: real)
    ensures 0.0 <= c < PdMaxAngle
    ensures c <= Abs(maxConeAngle)
    ensures Abs(maxConeAngle) <= PdMaxAngle * 0.999 ==> c == Abs(maxConeAngle)
    ensures Abs(maxConeAngle) > PdMaxAngle * 0.999 ==> c == PdMaxAngle * 0.999
  {
    Min(Abs(maxConeAngle), PdMaxAngle * 0.999)
  }

  /** The speed at which a limit overshoot of `penetration` radians is
      recovered: proportional to the overshoot up to ten degrees, then
      saturated at the recovery speed. */
  function PdRecoverySpeed(penetration: real): (speed: real)
    ensures 0.0 <= speed <= PdRecoveryAngularSpeed
    ensures penetration == 0.0 ==> speed == 0.0
    ensures Abs(penetration) >= PdPenetrationAngularLimit ==> speed == PdRecoveryAngularSpeed
  {
    PdRecoveryAngularSpeed * Min(Abs(penetration / PdPenetrationAngularLimit), 1.0)
  }

  /** The recovery term grows with the overshoot on either side. */
  lemma PdRecoverySpeedMonotone(p: real, q: real)
    requires 0.0 <= p <= q || q <= p <= 0.0
    ensures PdRecoverySpeed(p) <= PdRecoverySpeed(q)
  {
    assert Abs(p / PdPenetrationAngularLimit) <= Abs(q / PdPenetrationAngularLimit);
  }

  /** The source's product `invTimestep * speed * ratio`, with either sign of
      the inverse time step, is the scaled recovery speed. */
  lemma RecoveryProduct(invTimestep: real, penetration: real)
    ensures invTimestep * PdRecoveryAngularSpeed * Min(Abs(penetration / PdPenetrationAngularLimit), 1.0)
            == Scaled(invTimestep, PdRecoverySpeed(penetration))
    ensures -invTimestep * PdRecoveryAngularSpeed * Min(Abs(penetration / PdPenetrationAngularLimit), 1.0)
            == -Scaled(invTimestep, PdRecoverySpeed(penetration))
  {
  }

  /** `recoveringAceel` of the twist limit: below the minimum the negated scaled
      speed for the overshoot under it, at or above the maximum the scaled
      speed for the overshoot over it. */
  function TwistRecovery(angle: real, minTwist: real, maxTwist: real, invTimestep: real): (a: real)
    ensures invTimestep >= 0.0 && angle < minTwist ==> a <= 0.0
    ensures invTimestep >= 0.0 && angle >= minTwist ==> a >= 0.0
    ensures angle == maxTwist && maxTwist >= minTwist ==> a == 0.0
  {
    if angle < minTwist then -Scaled(invTimestep, PdRecoverySpeed(angle - minTwist))
    else Scaled(invTimestep, PdRecoverySpeed(angle - maxTwist))
  }

  /** `recoveringAceel` of the cone limit. */
  function ConeRecovery(coneAngle: real, maxCone: real, invTimestep: real): (a: real)
    ensures invTimestep >= 0.0 ==> a >= 0.0
    ensures coneAngle == maxCone ==> a == 0.0
  {
    Scaled(invTimestep, PdRecoverySpeed(coneAngle - maxCone))
  }

  /** The recovery term's sign pushes back inside the limit and its magnitude
      is at most one step's worth of the recovery speed. */
  lemma TwistRecoveryBound(angle: real, minTwist: real, maxTwist: real, invTimestep: real)
    requires invTimestep >= 0.0
    ensures angle < minTwist ==>
              -Scaled(invTimestep, PdRecoveryAngularSpeed) <= TwistRecovery(angle, minTwist, maxTwist, invTimestep) <= 0.0
    ensures angle >= minTwist ==>
              0.0 <= TwistRecovery(angle, minTwist, maxTwist, invTimestep) <= Scaled(invTimestep, PdRecoveryAngularSpeed)
  {
    if angle < minTwist {
      ScaledMono(invTimestep, PdRecoverySpeed(angle - minTwist), PdRecoveryAngularSpeed);
    } else {
      ScaledMono(invTimestep, PdRecoverySpeed(angle - maxTwist), PdRecoveryAngularSpeed);
    }
  }

  lemma ConeRecoveryBound(coneAngle: real, maxCone: real, invTimestep: real)
    requires invTimestep >= 0.0
    ensures 0.0 <= ConeRecovery(coneAngle, maxCone, invTimestep) <= Scaled(invTimestep, PdRecoveryAngularSpeed)
  {
    ScaledMono(invTimestep, PdRecoverySpeed(coneAngle - maxCone), PdRecoveryAngularSpeed);
  }

  /** A twist range narrower than two degrees locks the twist. */
  predicate NarrowTwistRange(minTwist: real, maxTwist: real)
  {
    maxTwist - minTwist < 2.0 * DegreeToRad
  }

  /** The rows `SubmitTwistLimits` appends for the twist `angle` about `pin`. */
  function TwistLimitRows(minTwist: real, maxTwist: real, pin: Axis, angle: real,
                          invTimestep: real, stopAccel: real): (r: seq<Row>)
    ensures |r| <= 1
  {
    if NarrowTwistRange(minTwist, maxTwist) then
      [NewAngularRow(pin, -angle).(lowerFriction := LcpMaxValue * 0.1)]
    else if angle < minTwist then
      [NewAngularRow(pin, 0.0).(accel := Motor(stopAccel - TwistRecovery(angle, minTwist, maxTwist, invTimestep)),
                                lowerFriction := 0.0)]
    else if angle >= maxTwist then
      [NewAngularRow(pin, 0.0).(accel := Motor(stopAccel - TwistRecovery(angle, minTwist, maxTwist, invTimestep)),
                                upperFriction := 0.0)]
    else
      []
  }

  /** A narrow range gives one row whose lower bound is forced up to a tenth of
      the open bound. Otherwise a row appears exactly when the angle is below
      the minimum (strictly) or at or above the maximum: its lower bound is 0 in
      the first case, its upper bound 0 in the second, and its acceleration is
      the stop acceleration minus the recovery term. */
  lemma TwistLimitCases(minTwist: real, maxTwist: real, pin: Axis, angle: real,
                        invTimestep: real, stopAccel: real)
    ensures var r := TwistLimitRows(minTwist, maxTwist, pin, angle, invTimestep, stopAccel);
      && (NarrowTwistRange(minTwist, maxTwist) ==>
            |r| == 1 && r[0].jacobian == AngularRow(pin, -angle) && r[0].accel == FromError
            && r[0].lowerFriction == LcpMaxValue * 0.1 && r[0].upperFriction == LcpMaxValue)
      && (!NarrowTwistRange(minTwist, maxTwist) ==>
            && (r == [] <==> minTwist <= angle < maxTwist)
            && (r != [] ==>
                  && r[0].jacobian == AngularRow(pin, 0.0)
                  && r[0].accel == Motor(stopAccel - TwistRecovery(angle, minTwist, maxTwist, invTimestep)))
            && (angle < minTwist ==> r[0].lowerFriction == 0.0 && r[0].upperFriction == LcpMaxValue)
            && (minTwist <= angle && angle >= maxTwist ==>
                  r[0].lowerFriction == -LcpMaxValue && r[0].upperFriction == 0.0))
  {
  }

  /** The twist limit row's acceleration departs from the stop acceleration by
      at most one step's worth of the recovery speed, upwards below the minimum
      and downwards at or above the maximum. */
  lemma TwistLimitRecoveryBound(minTwist: real, maxTwist: real, pin: Axis, angle: real,
                                invTimestep: real, stopAccel: real)
    requires invTimestep >= 0.0
    ensures var r := TwistLimitRows(minTwist, maxTwist, pin, angle, invTimestep, stopAccel);
            !NarrowTwistRange(minTwist, maxTwist) && r != [] ==>
              && (angle < minTwist ==>
                    stopAccel <= r[0].accel.accel <= stopAccel + Scaled(invTimestep, PdRecoveryAngularSpeed))
              && (angle >= minTwist ==>
                    stopAccel - Scaled(invTimestep, PdRecoveryAngularSpeed) <= r[0].accel.accel <= stopAccel)
  {
    TwistLimitCases(minTwist, maxTwist, pin, angle, invTimestep, stopAccel);
    TwistRecoveryBound(angle, minTwist, maxTwist, invTimestep);
  }

  /** The cone limit row of `SubmitAngularAxis`: present exactly when the cone
      angle is strictly beyond the limit, along the lateral direction, with its
      upper bound closed and an acceleration at most one step's worth of the
      recovery speed below the stop acceleration. */
  function ConeLimitRows(maxCone: real, coneAngle: real, invTimestep: real, stopAccel: real): (r: seq<Row>)
    ensures |r| <= 1
    ensures r == [] <==> coneAngle <= maxCone
    ensures r != [] ==>
              && r[0].jacobian == AngularRow(LateralDir, 0.0)
              && r[0].accel == Motor(stopAccel - ConeRecovery(coneAngle, maxCone, invTimestep))
              && r[0].lowerFriction == -LcpMaxValue && r[0].upperFriction == 0.0
  {
    if coneAngle > maxCone then
      [NewAngularRow(LateralDir, 0.0).(accel := Motor(stopAccel - ConeRecovery(coneAngle, maxCone, invTimestep)),
                                       upperFriction := 0.0)]
    else []
  }

  lemma ConeLimitRecoveryBound(maxCone: real, coneAngle: real, invTimestep: real, stopAccel: real)
    requires invTimestep >= 0.0
    ensures var r := ConeLimitRows(maxCone, coneAngle, invTimestep, stopAccel);
            r != [] ==> stopAccel - Scaled(invTimestep, PdRecoveryAngularSpeed) <= r[0].accel.accel <= stopAccel
  {
    ConeRecoveryBound(coneAngle, maxCone, invTimestep);
  }

  /** The measured quantities the angular and linear submissions take from the
      two body frames and the solver. */
  datatype PdGeometry = PdGeometry(
    frontCos: real,        // matrix1.m_front . matrix0.m_front
    coneAngle: real,       // acos of frontCos clamped to [-1, 1]
    pitchAngle: real,      // CalculateAngle(matrix0[1], matrix1[1], matrix1[0])
    yawAngle: real,        // CalculateAngle(matrix0[0], matrix1[0], matrix1[1])
    rollAngle: real,       // CalculateAngle(matrix0[0], matrix1[0], matrix1[2])
    pinMag2: real,         // squared length of the vector part of q1^-1 * q0
    pinAngle: real,        // 2 atan2(|pin|, w) of the same quaternion
    swingTwistAngle: real, // atan2 of the twist left after undoing the swing
    stepMag2: real,        // |matrix0.m_posit - matrix1.m_posit|^2
    twistStopAccel: real,  // GetMotorZeroAcceleration for the twist limit row
    coneStopAccel: real)   // GetMotorZeroAcceleration for the cone limit row

  /** A row driven by the spring-damper gains `c`. */
  function Sprung(r: Row, c: Gains): (s: Row)
    ensures s.jacobian == r.jacobian && IsSpringDamper(s)
  {
    r.(accel := SpringDamper(c.regularizer, c.spring, c.damper))
  }

  /** `SubmitPdRotation`: three angular rows, each driven by the cone gains;
      about the basis of the rotation pin when the relative rotation is not
      negligible, otherwise about the parent frame axes by the frame angles. */
  function PdRotationRows(cone: Gains, g: PdGeometry): (r: seq<Row>)
    ensures |r| == 3
    ensures forall i :: 0 <= i < 3 ==> IsAngular(r[i]) && r[i].accel == SpringDamper(cone.regularizer, cone.spring, cone.damper)
    ensures g.pinMag2 > PinMag2Epsilon ==>
              r[0].jacobian == AngularRow(PinBasis(0), -g.pinAngle)
              && r[1].jacobian == AngularRow(PinBasis(1), 0.0) && r[2].jacobian == AngularRow(PinBasis(2), 0.0)
    ensures g.pinMag2 <= PinMag2Epsilon ==>
              r[0].jacobian == AngularRow(Front1, g.pitchAngle)
              && r[1].jacobian == AngularRow(Up1, g.yawAngle) && r[2].jacobian == AngularRow(Right1, g.rollAngle)
  {
    if g.pinMag2 > PinMag2Epsilon then
      [ Sprung(NewAngularRow(PinBasis(0), -g.pinAngle), cone),
        Sprung(NewAngularRow(PinBasis(1), 0.0), cone),
        Sprung(NewAngularRow(PinBasis(2), 0.0), cone) ]
    else
      [ Sprung(NewAngularRow(Front1, g.pitchAngle), cone),
        Sprung(NewAngularRow(Up1, g.yawAngle), cone),
        Sprung(NewAngularRow(Right1, g.rollAngle), cone) ]
  }

  /** `SubmitLinearLimits`. */
  function LinearLimitRows(linear: Gains, stepMag2: real): (r: seq<Row>)
    ensures |r| == 3
    ensures forall i :: 0 <= i < 3 ==> IsLinear(r[i])
  {
    if linear.regularizer == 0.0 then
      [ NewLinearRow(Front1, Pivot0, Pivot1),
        NewLinearRow(Up1, Pivot0, Pivot1),
        NewLinearRow(Right1, Pivot0, Pivot1) ]
    else if stepMag2 <= PdSmallDistanceError2 then
      [ Sprung(NewLinearRow(Front1, Pivot0, Pivot1), linear),
        Sprung(NewLinearRow(Up1, Pivot0, Pivot1), linear),
        Sprung(NewLinearRow(Right1, Pivot0, Pivot1), linear) ]
    else
      [ NewLinearRow(StepBasis(2), Pivot1, Pivot1),
        NewLinearRow(StepBasis(1), Pivot1, Pivot1),
        Sprung(NewLinearRow(StepBasis(0), Pivot0, Pivot1), linear) ]
  }

  /** A zero regularizer gives three hard rows along the parent axes; a pivot
      error within a centimetre gives the same three rows, all spring-damped;
      a larger error gives two hard rows across the error direction and one
      spring-damped row along it, last. */
  lemma LinearLimitCases(linear: Gains, stepMag2: real)
    ensures var r := LinearLimitRows(linear, stepMag2);
      && (linear.regularizer == 0.0 ==> forall i :: 0 <= i < 3 ==> !IsSpringDamper(r[i]))
      && (linear.regularizer != 0.0 && stepMag2 <= PdSmallDistanceError2 ==>
            forall i :: 0 <= i < 3 ==> r[i].accel == SpringDamper(linear.regularizer, linear.spring, linear.damper))
      && (linear.regularizer != 0.0 && stepMag2 > PdSmallDistanceError2 ==>
            && !IsSpringDamper(r[0]) && !IsSpringDamper(r[1])
            && r[2].accel == SpringDamper(linear.regularizer, linear.spring, linear.damper)
            && r[2].jacobian == LinearRow(StepBasis(0), Pivot0, Pivot1))
      && (linear.regularizer == 0.0 || stepMag2 <= PdSmallDistanceError2 ==>
            r[0].jacobian.axis == Front1 && r[1].jacobian.axis == Up1 && r[2].jacobian.axis == Right1)
  {
  }

  /** The joint's limits and gains as one value. */
  datatype PdConfig = PdConfig(minTwist: real, maxTwist: real, maxCone: real,
                               twist: Gains, cone: Gains, linear: Gains)

  /** The rotation rows of `SubmitAngularAxisCartesianApproximation`: at or
      beyond the cone limit a hinge (one cone-sprung row about the child's
      front axis, two hard rows about the parent's up and right axes),
      otherwise the PD rotation rows. */
  function CartesianRotationRows(c: PdConfig, g: PdGeometry): (r: seq<Row>)
    ensures |r| == 3
  {
    if g.coneAngle >= c.maxCone then
      [ Sprung(NewAngularRow(Front0, -(-g.pitchAngle)), c.cone),
        NewAngularRow(Up1, g.yawAngle),
        NewAngularRow(Right1, g.rollAngle) ]
    else PdRotationRows(c.cone, g)
  }

  /** `SubmitAngularAxisCartesianApproximation`: the rotation rows, then the
      twist limit on minus the pitch angle. */
  function CartesianRows(c: PdConfig, g: PdGeometry, invTimestep: real): (r: seq<Row>)
    ensures 3 <= |r| <= 4
  {
    CartesianRotationRows(c, g) + TwistLimitRows(c.minTwist, c.maxTwist, Front0, -g.pitchAngle, invTimestep, g.twistStopAccel)
  }

  lemma AppendAssoc(a: seq<Row>, b: seq<Row>, c: seq<Row>)
    ensures (a + b) + c == a + (b + c)
  {
  }

  /** `SubmitAngularAxis`: the PD rotation rows, the cone limit row, then the
      twist limit on the twist left after undoing the swing. */
  function SwingRows(c: PdConfig, g: PdGeometry, invTimestep: real): (r: seq<Row>)
    ensures 3 <= |r| <= 5
  {
    PdRotationRows(c.cone, g)
      + ConeLimitRows(c.maxCone, g.coneAngle, invTimestep, g.coneStopAccel)
      + TwistLimitRows(c.minTwist, c.maxTwist, Front0, -g.swingTwistAngle, invTimestep, g.twistStopAccel)
  }

  /** The rows one `JacobianDerivative` call appends. */
  function PdRows(c: PdConfig, g: PdGeometry, invTimestep: real): (r: seq<Row>)
    ensures 3 <= |r| <= PdMaxRows
    ensures r[..3] == LinearLimitRows(c.linear, g.stepMag2)
    ensures c.twist.regularizer == 0.0 ==> |r| == 3
  {
    LinearLimitRows(c.linear, g.stepMag2)
      + (if c.twist.regularizer == 0.0 then []
         else if g.frontCos >= CartesianFrontCos then CartesianRows(c, g, invTimestep)
         else SwingRows(c, g, invTimestep))
  }

  /** The linear rows always come first. A zero twist regularizer adds no
      angular row at all; otherwise the front-axis cosine picks the path, the
      three rotation rows follow the linear rows, and the twist limit row, when
      present, comes last. No step exceeds the declared row count. */
  lemma PdRowsCases(c: PdConfig, g: PdGeometry, invTimestep: real)
    ensures var r := PdRows(c, g, invTimestep);
      && 3 <= |r| <= PdMaxRows
      && r[..3] == LinearLimitRows(c.linear, g.stepMag2)
      && (c.twist.regularizer == 0.0 ==> |r| == 3)
      && (c.twist.regularizer != 0.0 && g.frontCos >= CartesianFrontCos ==>
            r[3..] == CartesianRows(c, g, invTimestep) && 6 <= |r| <= 7)
      && (c.twist.regularizer != 0.0 && g.frontCos < CartesianFrontCos ==>
            r[3..] == SwingRows(c, g, invTimestep) && r[3..6] == PdRotationRows(c.cone, g) && 6 <= |r| <= 8)
  {
    var r := PdRows(c, g, invTimestep);
    var lin := LinearLimitRows(c.linear, g.stepMag2);
    if c.twist.regularizer == 0.0 {
      assert r == lin + [];
    } else if g.frontCos >= CartesianFrontCos {
      assert r == lin + CartesianRows(c, g, invTimestep);
    } else {
      var s := SwingRows(c, g, invTimestep);
      assert r == lin + s;
      assert s[..3] == PdRotationRows(c.cone, g);
    }
  }

  /** The relative orientation the Cartesian path treats as a hinge: the cone
      rows lock the parent's up and right axes and only the front axis is
      sprung. */
  lemma CartesianHinge(c: PdConfig, g: PdGeometry, invTimestep: real)
    requires g.coneAngle >= c.maxCone
    ensures var r := CartesianRows(c, g, invTimestep);
      && r[0] == Sprung(NewAngularRow(Front0, g.pitchAngle), c.cone)
      && r[1] == NewAngularRow(Up1, g.yawAngle) && r[2] == NewAngularRow(Right1, g.rollAngle)
      && r[3..] == TwistLimitRows(c.minTwist, c.maxTwist, Front0, -g.pitchAngle, invTimestep, g.twistStopAccel)
  {
    var r := CartesianRows(c, g, invTimestep);
    assert r[3..] == TwistLimitRows(c.minTwist, c.maxTwist, Front0, -g.pitchAngle, invTimestep, g.twistStopAccel);
  }

  class PdActuator {
    var minTwistAngle: real
    var maxTwistAngle: real
    var maxConeAngle: real
    var twistAngleSpring: real
    var twistAngleDamper: real
    var twistAngleRegularizer: real
    var coneAngleSpring: real
    var coneAngleDamper: real
    var coneAngleRegularizer: real
    var linearSpring: real
    var linearDamper: real
    var linearRegularizer: real

    /** What the constructor establishes and every setter keeps: non-negative
        gains, a twist range straddling zero and a non-negative cone limit. */
    ghost predicate Valid()
      reads this
    {
      && twistAngleSpring >= 0.0 && twistAngleDamper >= 0.0 && twistAngleRegularizer >= 0.0
      && coneAngleSpring >= 0.0 && coneAngleDamper >= 0.0 && coneAngleRegularizer >= 0.0
      && linearSpring >= 0.0 && linearDamper >= 0.0 && linearRegularizer >= 0.0
      && minTwistAngle <= 0.0 <= maxTwistAngle
      && maxConeAngle >= 0.0
    }

    /** In a valid actuator the rest pose needs no limit row: a zero cone angle
        is within the cone limit, and a zero twist angle is within a wide twist
        range whose maximum is positive. */
    lemma RestPoseWithinLimits(pin: Axis, invTimestep: real, stopAccel: real)
      requires Valid()
      ensures ConeLimitRows(maxConeAngle, 0.0, invTimestep, stopAccel) == []
      ensures !NarrowTwistRange(minTwistAngle, maxTwistAngle) && maxTwistAngle > 0.0 ==>
                TwistLimitRows(minTwistAngle, maxTwistAngle, pin, 0.0, invTimestep, stopAccel) == []
    {
    }

    function Config(): (c: PdConfig)
      reads this
      ensures c.minTwist == minTwistAngle && c.maxTwist == maxTwistAngle && c.maxCone == maxConeAngle
      ensures c.twist == Gains(twistAngleSpring, twistAngleDamper, twistAngleRegularizer)
      ensures c.cone == Gains(coneAngleSpring, coneAngleDamper, coneAngleRegularizer)
      ensures c.linear == Gains(linearSpring, linearDamper, linearRegularizer)
    {
      PdConfig(minTwistAngle, maxTwistAngle, maxConeAngle,
               Gains(twistAngleSpring, twistAngleDamper, twistAngleRegularizer),
               Gains(coneAngleSpring, coneAngleDamper, coneAngleRegularizer),
               Gains(linearSpring, linearDamper, linearRegularizer))
    }

    /** The frame constructor: limits wide open, angular gains 1000 / 50 /
        0.005, linear gains zero. */
    constructor ()
      ensures Valid()
      ensures minTwistAngle == -1.0e10 && maxTwistAngle == 1.0e10 && maxConeAngle == 1.0e10
      ensures twistAngleSpring == 1000.0 && twistAngleDamper == 50.0 && twistAngleRegularizer == 5.0e-3
      ensures coneAngleSpring == 1000.0 && coneAngleDamper == 50.0 && coneAngleRegularizer == 5.0e-3
      ensures linearSpring == 0.0 && linearDamper == 0.0 && linearRegularizer == 0.0
    {
      minTwistAngle, maxTwistAngle, maxConeAngle := -1.0e10, 1.0e10, 1.0e10;
      twistAngleSpring, twistAngleDamper, twistAngleRegularizer := 1000.0, 50.0, 5.0e-3;
      coneAngleSpring, coneAngleDamper, coneAngleRegularizer := 1000.0, 50.0, 5.0e-3;
      linearSpring, linearDamper, linearRegularizer := 0.0, 0.0, 0.0;
    }

    function GetConeAngleSpringDamperRegularizer(): (g: Gains)
      reads this
      ensures g == Config().cone
    {
      Gains(coneAngleSpring, coneAngleDamper, coneAngleRegularizer)
    }

    function GetTwistAngleSpringDamperRegularizer(): (g: Gains)
      reads this
      ensures g == Config().twist
    {
      Gains(twistAngleSpring, twistAngleDamper, twistAngleRegularizer)
    }

    function GetLinearSpringDamperRegularizer(): (g: Gains)
      reads this
      ensures g == Config().linear
    {
      Gains(linearSpring, linearDamper, linearRegularizer)
    }

    function GetTwistLimits(): (limits: (real, real))
      reads this
      ensures limits == (Config().minTwist, Config().maxTwist)
    {
      (minTwistAngle, maxTwistAngle)
    }

    function GetMaxConeAngle(): (a: real)
      reads this
      ensures a == Config().maxCone
    {
      maxConeAngle
    }

    method SetConeAngleSpringDamperRegularizer(spring: real, damper: real, regularizer: real)
      requires Valid()
      modifies this`coneAngleSpring, this`coneAngleDamper, this`coneAngleRegularizer
      ensures Valid()
      ensures Config() == old(Config()).(cone := ClampGains(spring, damper, regularizer))
    {
      coneAngleSpring := Max(spring, 0.0);
      coneAngleDamper := Max(damper, 0.0);
      coneAngleRegularizer := Max(regularizer, 0.0);
    }

    method SetTwistAngleSpringDamperRegularizer(spring: real, damper: real, regularizer: real)
      requires Valid()
      modifies this`twistAngleSpring, this`twistAngleDamper, this`twistAngleRegularizer
      ensures Valid()
      ensures Config() == old(Config()).(twist := ClampGains(spring, damper, regularizer))
    {
      twistAngleSpring := Max(spring, 0.0);
      twistAngleDamper := Max(damper, 0.0);
      twistAngleRegularizer := Max(regularizer, 0.0);
    }

    method SetLinearSpringDamperRegularizer(spring: real, damper: real, regularizer: real)
      requires Valid()
      modifies this`linearSpring, this`linearDamper, this`linearRegularizer
      ensures Valid()
      ensures Config() == old(Config()).(linear := ClampGains(spring, damper, regularizer))
    {
      linearSpring := Max(spring, 0.0);
      linearDamper := Max(damper, 0.0);
      linearRegularizer := Max(regularizer, 0.0);
    }

    /** Stores the magnitudes of the two bounds on their own sides of zero. */
    method SetTwistLimits(minAngle: real, maxAngle: real)
      requires Valid()
      modifies this`minTwistAngle, this`maxTwistAngle
      ensures Valid()
      ensures minTwistAngle == -Abs(minAngle) && maxTwistAngle == Abs(maxAngle)
      ensures Config() == old(Config()).(minTwist := -Abs(minAngle), maxTwist := Abs(maxAngle))
    {
      minTwistAngle := -Abs(minAngle);
      maxTwistAngle := Abs(maxAngle);
    }

    method SetConeLimit(maxCone: real)
      requires Valid()
      modifies this`maxConeAngle
      ensures Valid()
      ensures maxConeAngle == ConeLimit(maxCone)
      ensures Config() == old(Config()).(maxCone := ConeLimit(maxCone))
    {
      maxConeAngle := Min(Abs(maxCone), PdMaxAngle * 0.999);
    }

    method SubmitTwistLimits(desc: Descriptor, pin: Axis, angle: real, stopAccel: real)
      modifies desc
      ensures desc.rows == old(desc.rows)
                + TwistLimitRows(minTwistAngle, maxTwistAngle, pin, angle, desc.invTimestep, stopAccel)
    {
      ghost var r0 := desc.rows;
      if maxTwistAngle - minTwistAngle < 2.0 * DegreeToRad {
        desc.AddAngularRow(pin, -angle);
        desc.SetLowerFriction(LcpMaxValue * 0.1);
      } else if angle < minTwistAngle {
        desc.AddAngularRow(pin, 0.0);
        var penetration := angle - minTwistAngle;
        var recoveringAccel := -Scaled(desc.invTimestep, PdRecoverySpeed(penetration));
        desc.SetMotorAcceleration(stopAccel - recoveringAccel);
        desc.SetLowerFriction(0.0);
      } else if angle >= maxTwistAngle {
        desc.AddAngularRow(pin, 0.0);
        var penetration := angle - maxTwistAngle;
        var recoveringAccel := Scaled(desc.invTimestep, PdRecoverySpeed(penetration));
        desc.SetMotorAcceleration(stopAccel - recoveringAccel);
        desc.SetHighFriction(0.0);
      }
    }

    method SubmitPdRotation(desc: Descriptor, g: PdGeometry)
      modifies desc
      ensures desc.rows == old(desc.rows) + PdRotationRows(Config().cone, g)
    {
      if g.pinMag2 > PinMag2Epsilon {
        desc.AddAngularRow(PinBasis(0), -g.pinAngle);
        desc.SetMassSpringDamperAcceleration(coneAngleRegularizer, coneAngleSpring, coneAngleDamper);
        desc.AddAngularRow(PinBasis(1), 0.0);
        desc.SetMassSpringDamperAcceleration(coneAngleRegularizer, coneAngleSpring, coneAngleDamper);
        desc.AddAngularRow(PinBasis(2), 0.0);
        desc.SetMassSpringDamperAcceleration(coneAngleRegularizer, coneAngleSpring, coneAngleDamper);
      } else {
        desc.AddAngularRow(Front1, g.pitchAngle);
        desc.SetMassSpringDamperAcceleration(coneAngleRegularizer, coneAngleSpring, coneAngleDamper);
        desc.AddAngularRow(Up1, g.yawAngle);
        desc.SetMassSpringDamperAcceleration(coneAngleRegularizer, coneAngleSpring, coneAngleDamper);
        desc.AddAngularRow(Right1, g.rollAngle);
        desc.SetMassSpringDamperAcceleration(coneAngleRegularizer, coneAngleSpring, coneAngleDamper);
      }
    }

    method SubmitLinearLimits(desc: Descriptor, g: PdGeometry)
      modifies desc
      ensures desc.rows == old(desc.rows) + LinearLimitRows(Config().linear, g.stepMag2)
    {
      if linearRegularizer == 0.0 {
        desc.AddLinearRow(Front1, Pivot0, Pivot1);
        desc.AddLinearRow(Up1, Pivot0, Pivot1);
        desc.AddLinearRow(Right1, Pivot0, Pivot1);
      } else if g.stepMag2 <= PdSmallDistanceError2 {
        desc.AddLinearRow(Front1, Pivot0, Pivot1);
        desc.SetMassSpringDamperAcceleration(linearRegularizer, linearSpring, linearDamper);
        desc.AddLinearRow(Up1, Pivot0, Pivot1);
        desc.SetMassSpringDamperAcceleration(linearRegularizer, linearSpring, linearDamper);
        desc.AddLinearRow(Right1, Pivot0, Pivot1);
        desc.SetMassSpringDamperAcceleration(linearRegularizer, linearSpring, linearDamper);
      } else {
        desc.AddLinearRow(StepBasis(2), Pivot1, Pivot1);
        desc.AddLinearRow(StepBasis(1), Pivot1, Pivot1);
        desc.AddLinearRow(StepBasis(0), Pivot0, Pivot1);
        desc.SetMassSpringDamperAcceleration(linearRegularizer, linearSpring, linearDamper);
      }
    }

    method SubmitAngularAxisCartesianApproximation(desc: Descriptor, g: PdGeometry)
      modifies desc
      ensures desc.rows == old(desc.rows) + CartesianRows(Config(), g, desc.invTimestep)
    {
      ghost var r0 := desc.rows;
      var pitchAngle := -g.pitchAngle;
      if g.coneAngle >= maxConeAngle {
        desc.AddAngularRow(Front0, -pitchAngle);
        desc.SetMassSpringDamperAcceleration(coneAngleRegularizer, coneAngleSpring, coneAngleDamper);
        desc.AddAngularRow(Up1, g.yawAngle);
        desc.AddAngularRow(Right1, g.rollAngle);
      } else {
        SubmitPdRotation(desc, g);
      }
      assert desc.rows == r0 + CartesianRotationRows(Config(), g);
      SubmitTwistLimits(desc, Front0, pitchAngle, g.twistStopAccel);
      AppendAssoc(r0, CartesianRotationRows(Config(), g),
                  TwistLimitRows(minTwistAngle, maxTwistAngle, Front0, pitchAngle, desc.invTimestep, g.twistStopAccel));
    }

    method SubmitAngularAxis(desc: Descriptor, g: PdGeometry)
      modifies desc
      ensures desc.rows == old(desc.rows) + SwingRows(Config(), g, desc.invTimestep)
    {
      ghost var r0 := desc.rows;
      SubmitPdRotation(desc, g);
      ghost var rotation := PdRotationRows(Config().cone, g);
      ghost var cone := ConeLimitRows(maxConeAngle, g.coneAngle, desc.invTimestep, g.coneStopAccel);
      if g.coneAngle > maxConeAngle {
        desc.AddAngularRow(LateralDir, 0.0);
        var penetration := g.coneAngle - maxConeAngle;
        var recoveringAccel := Scaled(desc.invTimestep, PdRecoverySpeed(penetration));
        desc.SetMotorAcceleration(g.coneStopAccel - recoveringAccel);
        desc.SetHighFriction(0.0);
      }
      assert desc.rows == r0 + rotation + cone;
      var pitchAngle := -g.swingTwistAngle;
      SubmitTwistLimits(desc, Front0, pitchAngle, g.twistStopAccel);
      ghost var twist := TwistLimitRows(minTwistAngle, maxTwistAngle, Front0, pitchAngle, desc.invTimestep, g.twistStopAccel);
      AppendAssoc(r0 + rotation, cone, twist);
      AppendAssoc(r0, rotation, cone + twist);
      AppendAssoc(rotation, cone, twist);
    }

    method JacobianDerivative(desc: Descriptor, g: PdGeometry)
      modifies desc
      ensures desc.rows == old(desc.rows) + PdRows(Config(), g, desc.invTimestep)
    {
      ghost var r0 := desc.rows;
      SubmitLinearLimits(desc, g);
      ghost var r1 := desc.rows;
      if twistAngleRegularizer != 0.0 {
        var cosAngleCos := g.frontCos;
        if cosAngleCos >= CartesianFrontCos {
          SubmitAngularAxisCartesianApproximation(desc, g);
        } else {
          SubmitAngularAxis(desc, g);
        }
      }
      assert desc.rows == r0 + (r1[|r0|..] + desc.rows[|r1|..]);
    }
  }
}
