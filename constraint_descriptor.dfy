/**
  The per-step constraint descriptor that every joint writes its rows into
  (`ndConstraintDescritor` together with the row helpers of the bilateral
  joint base class).

  A row records what the joint passed to the base-class helper that created it:
  the axis it acts along (a label for one of the frame axes, since all geometry
  is abstract here), the angle error of an angular row or the two points of a
  linear row, how its target acceleration is produced, and its friction (force)
  bounds. `AddAngularRow` and `AddLinearRow` append a row; the `Set*` methods
  change the last row only, as the base-class helpers do with
  `desc.m_rowsCount - 1`.
*/
module ConstraintDescriptor {

  /** `ndPi` as the library spells the float literal, and `ndDegreeToRad`. */
  const Pi: real := 3.141592
  const DegreeToRad: real := Pi / 180.0

  /** `D_LCP_MAX_VALUE`: the open friction bound a fresh row gets. */
  const LcpMaxValue: real := 1.0e10

  function Abs(x: real): (r: real)
    ensures r >= 0.0 && (r == x || r == -x)
  {
    if x < 0.0 then -x else x
  }

  function Min(a: real, b: real): (r: real)
    ensures r <= a && r <= b && (r == a || r == b)
  {
    if a < b then a else b
  }

  function Max(a: real, b: real): (r: real)
    ensures r >= a && r >= b && (r == a || r == b)
  {
    if a > b then a else b
  }

  /** `ndClamp(v, lo, hi)`, written as the library does: `max(lo, min(hi, v))`. */
  function Clamp(v: real, lo: real, hi: real): (r: real)
    requires lo <= hi
    ensures lo <= r <= hi
    ensures lo <= v <= hi ==> r == v
    ensures v < lo ==> r == lo
    ensures v > hi ==> r == hi
  {
    Max(lo, Min(hi, v))
  }

  /** A recovery speed turned into an acceleration over one step. */
  function Scaled(invTimestep: real, rate: real): real
  {
    invTimestep * rate
  }

  /** Scaling by a non-negative inverse time step keeps the order of speeds. */
  lemma ScaledMono(invTimestep: real, rate: real, m: real)
    requires invTimestep >= 0.0 && 0.0 <= rate <= m
    ensures 0.0 <= Scaled(invTimestep, rate) <= Scaled(invTimestep, m)
  {
  }

  /** The direction a row acts along. `...0` axes belong to the child frame
      (matrix0), `...1` axes to the parent frame (matrix1). */
  datatype Axis =
    | Front0 | Up0 | Right0
    | Front1 | Up1 | Right1
    | PinBasis(k: nat)     // row k of the basis built around a rotation pin
    | StepBasis(k: nat)    // row k of the basis built around a position error
    | LateralDir           // the normalised cross product of the two front axes

  /** The points handed to `AddLinearRowJacobian`. */
  datatype Point =
    | Pivot0                              // matrix0.m_posit
    | Pivot1                              // matrix1.m_posit
    | ProjectedPivot                      // matrix1 pivot moved along the pin to the child pivot
    | Pivot1Offset(along: Axis, dist: real)  // matrix1.m_posit + along * dist

  datatype Jacobian =
    | AngularRow(axis: Axis, angleError: real)
    | LinearRow(axis: Axis, p0: Point, p1: Point)
      /** a row whose body-0 angular part is `axis0 * ratio` and body-1 part `axis1` */
    | GearRow(axis0: Axis, ratio: real, axis1: Axis)

  datatype Acceleration =
    | FromError                                        // derived by the base class from the row error
    | Motor(accel: real)                               // `SetMotorAcceleration`
    | SpringDamper(regularizer: real, spring: real, damper: real)  // `SetMassSpringDamperAcceleration`

  datatype Row = Row(jacobian: Jacobian, accel: Acceleration, lowerFriction: real, upperFriction: real)

  /** A row as `AddAngularRowJacobian` leaves it: bounds wide open. */
  function NewAngularRow(axis: Axis, angleError: real): (r: Row)
    ensures r.jacobian == AngularRow(axis, angleError) && r.accel == FromError
    ensures r.lowerFriction == -LcpMaxValue && r.upperFriction == LcpMaxValue
  {
    Row(AngularRow(axis, angleError), FromError, -LcpMaxValue, LcpMaxValue)
  }

  /** A row as `AddLinearRowJacobian` leaves it: bounds wide open. */
  function NewLinearRow(axis: Axis, p0: Point, p1: Point): (r: Row)
    ensures r.jacobian == LinearRow(axis, p0, p1) && r.accel == FromError
    ensures r.lowerFriction == -LcpMaxValue && r.upperFriction == LcpMaxValue
  {
    Row(LinearRow(axis, p0, p1), FromError, -LcpMaxValue, LcpMaxValue)
  }

  predicate IsAngular(r: Row) { r.jacobian.AngularRow? || r.jacobian.GearRow? }
  predicate IsLinear(r: Row) { r.jacobian.LinearRow? }
  predicate IsSpringDamper(r: Row) { r.accel.SpringDamper? }

  /** The rows of a step, with the step's timestep and its inverse. */
  class Descriptor {
    var rows: seq<Row>
    const timestep: real
    const invTimestep: real

    constructor (timestep: real)
      requires timestep > 0.0
      ensures rows == [] && this.timestep == timestep && invTimestep == 1.0 / timestep
    {
      rows := [];
      this.timestep := timestep;
      invTimestep := 1.0 / timestep;
    }

    method AddAngularRow(axis: Axis, angleError: real)
      modifies this
      ensures rows == old(rows) + [NewAngularRow(axis, angleError)]
    {
      rows := rows + [NewAngularRow(axis, angleError)];
    }

    method AddLinearRow(axis: Axis, p0: Point, p1: Point)
      modifies this
      ensures rows == old(rows) + [NewLinearRow(axis, p0, p1)]
    {
      rows := rows + [NewLinearRow(axis, p0, p1)];
    }

    method SetLowerFriction(f: real)
      requires rows != []
      modifies this
      ensures rows == old(rows)[..|old(rows)| - 1] + [old(rows)[|old(rows)| - 1].(lowerFriction := f)]
    {
      rows := rows[..|rows| - 1] + [rows[|rows| - 1].(lowerFriction := f)];
    }

    method SetHighFriction(f: real)
      requires rows != []
      modifies this
      ensures rows == old(rows)[..|old(rows)| - 1] + [old(rows)[|old(rows)| - 1].(upperFriction := f)]
    {
      rows := rows[..|rows| - 1] + [rows[|rows| - 1].(upperFriction := f)];
    }

    method SetMotorAcceleration(a: real)
      requires rows != []
      modifies this
      ensures rows == old(rows)[..|old(rows)| - 1] + [old(rows)[|old(rows)| - 1].(accel := Motor(a))]
    {
      rows := rows[..|rows| - 1] + [rows[|rows| - 1].(accel := Motor(a))];
    }

    method SetMassSpringDamperAcceleration(regularizer: real, spring: real, damper: real)
      requires rows != []
      modifies this
      ensures rows == old(rows)[..|old(rows)| - 1] + [old(rows)[|old(rows)| - 1].(accel := SpringDamper(regularizer, spring, damper))]
    {
      rows := rows[..|rows| - 1] + [rows[|rows| - 1].(accel := SpringDamper(regularizer, spring, damper))];
    }

    /** Overwrite the Jacobian of the last row, as the gear box does through
        `desc.m_jacobian[desc.m_rowsCount - 1]`. */
    method SetLastJacobian(j: Jacobian)
      requires rows != []
      modifies this
      ensures rows == old(rows)[..|old(rows)| - 1] + [old(rows)[|old(rows)| - 1].(jacobian := j)]
    {
      rows := rows[..|rows| - 1] + [rows[|rows| - 1].(jacobian := j)];
    }
  }
}
