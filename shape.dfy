/**
  `dShape`: the mass properties every collision shape carries (diagonal and
  cross inertia, centre of mass, bounding box) with a reference count, and
  `MassProperties`, which adds the parallel-axis term of the centre of mass
  for unit mass, `(d . d) E - d d^T`. That term carries an inertia about the
  centre of mass to one about the shape's origin; the comment at the head of
  the method in dShape.cpp names the opposite direction.
*/
module Shape {
  import opened RigidBody

  /** `v[i]`. */
  function Component(v: Vec4, i: nat): real
    requires i < 4
  {
    if i == 0 then v.x else if i == 1 then v.y else if i == 2 then v.z else v.w
  }

  /** `Dot(v, v & m_triplexMask)`: the squared length of the x, y, z part. */
  function Mag2(v: Vec4): real
  {
    v.x * v.x + v.y * v.y + v.z * v.z
  }

  /** Row `i` of the identity matrix with the diagonal entry set to `d`. */
  function ParallelRow(i: nat, d: real): Vec4
    requires i < 4
  {
    if i == 0 then Vec4(d, 0.0, 0.0, 0.0)
    else if i == 1 then Vec4(0.0, d, 0.0, 0.0)
    else if i == 2 then Vec4(0.0, 0.0, d, 0.0)
    else Vec4(0.0, 0.0, 0.0, d)
  }

  /** Row `i` of `dMatrix(origin, origin)`, the outer product of the centre of
      mass with itself. */
  function CovarianceRow(c: Vec4, i: nat): Vec4
    requires i < 4
  {
    var s := Component(c, i);
    Vec4(c.x * s, c.y * s, c.z * s, c.w * s)
  }

  /** `inertia[i] += parallel[i] - Covariance[i]`. */
  function ShiftRow(row: Vec4, i: nat, originMag2: real, c: Vec4): Vec4
    requires i < 4
  {
    var p := ParallelRow(i, originMag2);
    var q := CovarianceRow(c, i);
    Vec4(row.x + (p.x - q.x), row.y + (p.y - q.y), row.z + (p.z - q.z), row.w + (p.w - q.w))
  }

  /** The diagonal and cross inertia of a shape. */
  datatype Inertia = Inertia(diagonal: Vec4, cross: Vec4)

  /** The parallel-axis shift `MassProperties` performs (from the centre of
      mass to the origin, by the theorem's usual reading): each diagonal entry
      grows by the squared distance of the centre of mass from that axis, each
      cross term loses the product of the other two coordinates, and the w
      components are kept. */
  function ParallelAxisShift(i: Inertia, c: Vec4): (r: Inertia)
    ensures r.diagonal.x + r.diagonal.y + r.diagonal.z
            == i.diagonal.x + i.diagonal.y + i.diagonal.z + 2.0 * Mag2(c)
  {
    var m := Mag2(c);
    Inertia(Vec4(i.diagonal.x + (m - c.x * c.x), i.diagonal.y + (m - c.y * c.y),
                 i.diagonal.z + (m - c.z * c.z), i.diagonal.w),
            Vec4(i.cross.x - c.y * c.z, i.cross.y - c.x * c.z, i.cross.z - c.x * c.y, i.cross.w))
  }

  /** The opposite shift: it subtracts the same parallel-axis term. */
  function ParallelAxisUnshift(i: Inertia, c: Vec4): (r: Inertia)
    ensures r.diagonal.x + r.diagonal.y + r.diagonal.z
            == i.diagonal.x + i.diagonal.y + i.diagonal.z - 2.0 * Mag2(c)
  {
    var m := Mag2(c);
    Inertia(Vec4(i.diagonal.x - (m - c.x * c.x), i.diagonal.y - (m - c.y * c.y),
                 i.diagonal.z - (m - c.z * c.z), i.diagonal.w),
            Vec4(i.cross.x + c.y * c.z, i.cross.y + c.x * c.z, i.cross.z + c.x * c.y, i.cross.w))
  }

  /** Each diagonal entry grows by the squared distance of the centre of mass
      from that axis; the w components are kept. */
  lemma ShiftDiagonal(i: Inertia, c: Vec4)
    ensures var r := ParallelAxisShift(i, c);
            && r.diagonal.x == i.diagonal.x + c.y * c.y + c.z * c.z
            && r.diagonal.y == i.diagonal.y + c.x * c.x + c.z * c.z
            && r.diagonal.z == i.diagonal.z + c.x * c.x + c.y * c.y
            && r.diagonal.w == i.diagonal.w && r.cross.w == i.cross.w
  {
  }

  /** Adding the parallel-axis term and subtracting it again, in either order,
      restores the inertia. */
  lemma ShiftRoundTrip(i: Inertia, c: Vec4)
    ensures ParallelAxisUnshift(ParallelAxisShift(i, c), c) == i
    ensures ParallelAxisShift(ParallelAxisUnshift(i, c), c) == i
  {
  }

  /** A centre of mass at the origin leaves the inertia as it is. */
  lemma ShiftAtOrigin(i: Inertia, c: Vec4)
    requires c.x == 0.0 && c.y == 0.0 && c.z == 0.0
    ensures ParallelAxisShift(i, c) == i
  {
  }

  /** Only the axis matters, not its direction: the opposite centre of mass
      gives the same shift. */
  lemma ShiftEven(i: Inertia, c: Vec4)
    ensures ParallelAxisShift(i, Vec4(-c.x, -c.y, -c.z, c.w)) == ParallelAxisShift(i, c)
  {
    var n := Vec4(-c.x, -c.y, -c.z, c.w);
    NegProduct(c.x, c.x);
    NegProduct(c.y, c.y);
    NegProduct(c.z, c.z);
    NegProduct(c.x, c.y);
    NegProduct(c.x, c.z);
    NegProduct(c.y, c.z);
    assert Mag2(n) == Mag2(c);
  }

  lemma NegProduct(a: real, b: real)
    ensures (-a) * (-b) == a * b
  {
  }

  /** The diagonal never shrinks, so the debug check that every shifted
      diagonal entry is positive holds whenever the original entries are. */
  lemma ShiftedDiagonalPositive(i: Inertia, c: Vec4)
    ensures ParallelAxisShift(i, c).diagonal.x >= i.diagonal.x
    ensures ParallelAxisShift(i, c).diagonal.y >= i.diagonal.y
    ensures ParallelAxisShift(i, c).diagonal.z >= i.diagonal.z
    ensures i.diagonal.x > 0.0 && i.diagonal.y > 0.0 && i.diagonal.z > 0.0 ==>
              var r := ParallelAxisShift(i, c);
              r.diagonal.x > 0.0 && r.diagonal.y > 0.0 && r.diagonal.z > 0.0
  {
    ShiftDiagonal(i, c);
    assert c.y * c.y >= 0.0 && c.x * c.x >= 0.0 && c.z * c.z >= 0.0;
  }

  /** Row `k` of the symmetric matrix `MassProperties` builds from the
      diagonal and cross inertia, with the identity's zero in column w. */
  function InertiaRow(i: Inertia, k: nat): Vec4
    requires k < 3
  {
    if k == 0 then Vec4(i.diagonal.x, i.cross.z, i.cross.y, 0.0)
    else if k == 1 then Vec4(i.cross.z, i.diagonal.y, i.cross.x, 0.0)
    else Vec4(i.cross.y, i.cross.x, i.diagonal.z, 0.0)
  }

  /** Updating the rows of that matrix one by one and reading the lower
      triangle back is the parallel-axis shift. */
  lemma ShiftByRows(i: Inertia, c: Vec4)
    ensures var r0 := ShiftRow(InertiaRow(i, 0), 0, Mag2(c), c);
            var r1 := ShiftRow(InertiaRow(i, 1), 1, Mag2(c), c);
            var r2 := ShiftRow(InertiaRow(i, 2), 2, Mag2(c), c);
            ParallelAxisShift(i, c) ==
              Inertia(i.diagonal.(x := r0.x, y := r1.y, z := r2.z), i.cross.(x := r2.y, y := r2.x, z := r1.x))
  {
    var m := Mag2(c);
    var r0 := ShiftRow(InertiaRow(i, 0), 0, m, c);
    var r1 := ShiftRow(InertiaRow(i, 1), 1, m, c);
    var r2 := ShiftRow(InertiaRow(i, 2), 2, m, c);
    var s := ParallelAxisShift(i, c);
    assert s.diagonal.x == r0.x && s.diagonal.y == r1.y && s.diagonal.z == r2.z;
    assert s.cross.x == r2.y && s.cross.y == r2.x && s.cross.z == r1.x;
  }

  class Shape {
    /** `m_inertia`. */
    var inertia: Vec4
    /** `m_crossInertia`. */
    var crossInertia: Vec4
    /** `m_centerOfMass`. */
    var centerOfMass: Vec4
    /** `m_boxSize`. */
    var boxSize: Vec4
    /** `m_boxOrigin`. */
    var boxOrigin: Vec4
    /** `m_refCount`. */
    var refCount: int

    /** `dShape(dShapeID)`: every property zero, no references. */
    constructor ()
      ensures inertia == Zero && crossInertia == Zero && centerOfMass == Zero
      ensures boxSize == Zero && boxOrigin == Zero && refCount == 0
    {
      inertia, crossInertia, centerOfMass := Zero, Zero, Zero;
      boxSize, boxOrigin := Zero, Zero;
      refCount := 0;
    }

    /** The copy constructor: the five property vectors of `source`, and no
        references of its own. */
    constructor Copy(source: Shape)
      ensures inertia == source.inertia && crossInertia == source.crossInertia
      ensures centerOfMass == source.centerOfMass
      ensures boxSize == source.boxSize && boxOrigin == source.boxOrigin
      ensures refCount == 0
    {
      inertia, crossInertia := source.inertia, source.crossInertia;
      centerOfMass := source.centerOfMass;
      boxSize, boxOrigin := source.boxSize, source.boxOrigin;
      refCount := 0;
    }

    /** Writes the symmetric inertia matrix out, adds the identity scaled by
        the squared centre-of-mass distance less the outer product row by row,
        and reads diagonal and cross inertia back; nothing else changes. */
    method MassProperties()
      modifies this`inertia, this`crossInertia
      ensures Inertia(inertia, crossInertia) == ParallelAxisShift(Inertia(old(inertia), old(crossInertia)), centerOfMass)
    {
      ghost var before := Inertia(inertia, crossInertia);
      var m := new Vec4[4];
      m[0] := Vec4(inertia.x, crossInertia.z, crossInertia.y, 0.0);
      m[1] := Vec4(crossInertia.z, inertia.y, crossInertia.x, 0.0);
      m[2] := Vec4(crossInertia.y, crossInertia.x, inertia.z, 0.0);
      m[3] := Vec4(0.0, 0.0, 0.0, 1.0);
      ghost var m0 := m[..];
      assert forall k :: 0 <= k < 3 ==> m0[k] == InertiaRow(before, k);

      var origin := centerOfMass;
      var originMag2 := Mag2(origin);
      for i := 0 to 3
        invariant forall k :: 0 <= k < i ==> m[k] == ShiftRow(m0[k], k, originMag2, origin)
        invariant forall k :: i <= k < 4 ==> m[k] == m0[k]
        invariant Inertia(inertia, crossInertia) == before
      {
        m[i] := ShiftRow(m[i], i, originMag2, origin);
      }
      ShiftByRows(before, origin);

      inertia := inertia.(x := m[0].x, y := m[1].y, z := m[2].z);
      crossInertia := crossInertia.(x := m[2].y, y := m[2].x, z := m[1].x);
    }
  }
}
