/**
  `ndMultiBodyVehicleGearBox`: the gear joint between a vehicle's differential
  (body 0) and its motor (body 1). With a gear engaged it submits one angular
  row coupling the two front axes by the gear ratio, whose motor acceleration
  removes half the summed relative spin each step. The motor side's spin is
  raised by nine tenths of the idle speed and clipped at zero, so it can only
  pull the sum down.
*/
module VehicleGearBox {
  import opened ConstraintDescriptor

  /** Ratios of at most this magnitude count as neutral. */
  const NeutralRatio: real := 0.1
  /** The share of the motor's idle speed added to the motor side's spin. */
  const IdleOmegaFactor: real := 0.9
  /** The friction bound on either side of the gear row. */
  const GearFriction: real := 1000.0

  /** The measured quantities `JacobianDerivative` reads from the bodies. */
  datatype GearGeometry = GearGeometry(
    omega0Front: real,  // omega0 . matrix0.m_front, the differential's spin
    omega1Front: real,  // omega1 . matrix1.m_front, the motor's spin
    idleOmega: real)    // the motor's m_idleOmega

  /** `w1`: the motor side's spin plus the idle share, clipped so it is never
      positive. */
  function MotorSideOmega(omega1Front: real, idleOmega: real): (w1: real)
    ensures w1 <= 0.0
    ensures w1 <= omega1Front + idleOmega * IdleOmegaFactor
    ensures w1 == 0.0 || w1 == omega1Front + idleOmega * IdleOmegaFactor
  {
    Min(omega1Front + idleOmega * IdleOmegaFactor, 0.0)
  }

  /** The gear row's motor acceleration: minus the mean of the two coupled
      spins, over one step. The body-0 spin is taken along the ratio-scaled
      front axis, so it is the ratio times the spin along the front axis.
      Since the motor side never contributes a positive spin, the acceleration
      is never negative while the differential side does not turn forwards. */
  function GearAccel(ratio: real, g: GearGeometry, invTimestep: real): (a: real)
    ensures invTimestep >= 0.0 && g.omega0Front * ratio <= 0.0 ==> a >= 0.0
  {
    var w0 := g.omega0Front * ratio;
    var w1 := MotorSideOmega(g.omega1Front, g.idleOmega);
    var w := (w0 + w1) * 0.5;
    -w * invTimestep
  }

  /** With a positive inverse step the acceleration opposes the mean coupled
      spin: it is positive exactly when that sum is negative, and zero exactly
      when it is zero. */
  lemma GearAccelOpposes(ratio: real, g: GearGeometry, invTimestep: real)
    requires invTimestep > 0.0
    ensures var s := g.omega0Front * ratio + MotorSideOmega(g.omega1Front, g.idleOmega);
            && (GearAccel(ratio, g, invTimestep) > 0.0 <==> s < 0.0)
            && (GearAccel(ratio, g, invTimestep) == 0.0 <==> s == 0.0)
  {
    var s := g.omega0Front * ratio + MotorSideOmega(g.omega1Front, g.idleOmega);
    var w := s * 0.5;
    assert GearAccel(ratio, g, invTimestep) == -w * invTimestep;
    if w > 0.0 {
      assert w * invTimestep > 0.0;
    } else if w < 0.0 {
      assert (-w) * invTimestep > 0.0;
    }
  }

  /** The rows one `JacobianDerivative` call appends. */
  function GearRows(ratio: real, g: GearGeometry, invTimestep: real): (r: seq<Row>)
    ensures |r| <= 1
    ensures r == [] <==> Abs(ratio) <= NeutralRatio
    ensures r != [] ==>
              && r[0].jacobian == GearRow(Front0, ratio, Front1)
              && r[0].accel == Motor(GearAccel(ratio, g, invTimestep))
              && r[0].lowerFriction == -GearFriction && r[0].upperFriction == GearFriction
  {
    if Abs(ratio) > NeutralRatio then
      [Row(GearRow(Front0, ratio, Front1), Motor(GearAccel(ratio, g, invTimestep)), -GearFriction, GearFriction)]
    else []
  }

  class GearBox {
    /** `m_gearRatio`. */
    var gearRatio: real

    /** The base gear joint starts at ratio 1; the gear box then puts it in
        neutral. */
    constructor ()
      ensures gearRatio == 0.0
      ensures forall g, invTimestep :: GearRows(gearRatio, g, invTimestep) == []
    {
      gearRatio := 1.0;
      new;
      SetRatio(0.0);
    }

    /** `SetRatio` of the base gear joint. */
    method SetRatio(ratio: real)
      modifies this
      ensures gearRatio == ratio
    {
      gearRatio := ratio;
    }

    function GetRatio(): (ratio: real)
      reads this
      ensures ratio == gearRatio
    {
      gearRatio
    }

    method JacobianDerivative(desc: Descriptor, g: GearGeometry)
      modifies desc
      ensures desc.rows == old(desc.rows) + GearRows(gearRatio, g, desc.invTimestep)
    {
      ghost var r0 := desc.rows;
      if Abs(gearRatio) > NeutralRatio {
        desc.AddAngularRow(Front0, 0.0);
        desc.SetLastJacobian(GearRow(Front0, gearRatio, Front1));
        var idleOmega := g.idleOmega * IdleOmegaFactor;
        var w0 := g.omega0Front * gearRatio;
        var w1 := Min(g.omega1Front + idleOmega, 0.0);
        var w := (w0 + w1) * 0.5;
        desc.SetMotorAcceleration(-w * desc.invTimestep);
        desc.SetHighFriction(GearFriction);
        desc.SetLowerFriction(-GearFriction);
        assert -w * desc.invTimestep == GearAccel(gearRatio, g, desc.invTimestep);
        assert desc.rows == r0 + [Row(GearRow(Front0, gearRatio, Front1), Motor(-w * desc.invTimestep), -GearFriction, GearFriction)];
      }
    }
  }
}
