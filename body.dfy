/**
  `ndBody`: the state every body carries (frame, velocities, centre of mass,
  sleep and dirty flags, notify callback and a process-wide unique id) and
  the setters that keep it consistent. `ndMatrix` and `ndQuaternion` are not
  part of this model: a matrix is its four rows and transforms points by the
  usual affine map, and the quaternion of a matrix and the matrix of a
  quaternion are parameters.
*/
module RigidBody {

  /** `ndVector`. */
  datatype Vec4 = Vec4(x: real, y: real, z: real, w: real)

  const Zero: Vec4 := Vec4(0.0, 0.0, 0.0, 0.0)
  /** `ndVector::m_wOne`. */
  const WOne: Vec4 := Vec4(0.0, 0.0, 0.0, 1.0)

  function Add(a: Vec4, b: Vec4): Vec4 { Vec4(a.x + b.x, a.y + b.y, a.z + b.z, a.w + b.w) }
  function Sub(a: Vec4, b: Vec4): Vec4 { Vec4(a.x - b.x, a.y - b.y, a.z - b.z, a.w - b.w) }

  /** `ndMatrix`, by rows. */
  datatype Matrix = Matrix(front: Vec4, up: Vec4, right: Vec4, posit: Vec4)

  /** `ndGetIdentityMatrix()`. */
  const Identity: Matrix := Matrix(Vec4(1.0, 0.0, 0.0, 0.0), Vec4(0.0, 1.0, 0.0, 0.0),
                                   Vec4(0.0, 0.0, 1.0, 0.0), Vec4(0.0, 0.0, 0.0, 1.0))

  /** `ndMatrix::RotateVector`: the rotation rows weighted by x, y and z. */
  function Rotate(m: Matrix, v: Vec4): Vec4
  {
    Vec4(m.front.x * v.x + m.up.x * v.y + m.right.x * v.z,
         m.front.y * v.x + m.up.y * v.y + m.right.y * v.z,
         m.front.z * v.x + m.up.z * v.y + m.right.z * v.z,
         m.front.w * v.x + m.up.w * v.y + m.right.w * v.z)
  }

  /** `ndMatrix::TransformVector`: the rotated vector moved by the origin. */
  function Transform(m: Matrix, v: Vec4): Vec4
  {
    Add(Rotate(m, v), m.posit)
  }

  /** The identity frame maps every point of the form (x, y, z, 1) to itself. */
  lemma TransformIdentity(v: Vec4)
    requires v.w == 1.0
    ensures Transform(Identity, v) == v
  {
  }

  /** Only the rotation rows enter `Rotate`, so replacing the origin leaves it unchanged. */
  lemma RotateIgnoresOrigin(m: Matrix, v: Vec4, p: Vec4)
    ensures Rotate(m.(posit := p), v) == Rotate(m, v)
  {
  }

  /** Choosing the origin as `g` minus the rotated `v` makes the frame map `v`
      onto `g`. */
  lemma PlacedOrigin(m: Matrix, v: Vec4, g: Vec4)
    ensures Transform(m.(posit := Sub(g, Rotate(m, v))), v) == g
  {
    RotateIgnoresOrigin(m, v, Sub(g, Rotate(m, v)));
  }

  /** `ndQuaternion`. */
  datatype Quat = Quat(x: real, y: real, z: real, w: real)

  /** `ndQuaternion()`: no rotation. */
  const IdentityQuat: Quat := Quat(0.0, 0.0, 0.0, 1.0)

  /** `m_uniqueIdCount` is an unsigned 32-bit counter. */
  const IdRange: nat := 0x1_0000_0000

  /** The counter after one more body has been constructed. */
  function NextId(count: nat): (next: nat)
    requires count < IdRange
    ensures next < IdRange
    ensures count + 1 < IdRange ==> next == count + 1
    ensures count + 1 == IdRange ==> next == 0
  {
    (count + 1) % IdRange
  }

  /** The id the `k`-th body constructed from counter value `start` receives. */
  function IdAfter(start: nat, k: nat): (id: nat)
    requires start < IdRange
    ensures id < IdRange
  {
    if k == 0 then start else NextId(IdAfter(start, k - 1))
  }

  /** The `k`-th id is the start shifted by `k`, modulo 2^32. */
  lemma {:induction false} IdAfterIsShift(start: nat, k: nat)
    requires start < IdRange
    ensures IdAfter(start, k) == (start + k) % IdRange
  {
    if k > 0 {
      IdAfterIsShift(start, k - 1);
      var p := (start + k - 1) % IdRange;
      assert start + k - 1 == ((start + k - 1) / IdRange) * IdRange + p;
      assert start + k == ((start + k - 1) / IdRange) * IdRange + (p + 1);
      ModShift((start + k - 1) / IdRange, p + 1);
    }
  }

  lemma ModShift(q: nat, r: nat)
    requires r <= IdRange
    ensures (q * IdRange + r) % IdRange == r % IdRange
  {
    if r == IdRange {
      assert q * IdRange + r == (q + 1) * IdRange;
    }
  }

  /** Up to 2^32 bodies constructed in a row all receive different ids. */
  lemma IdsDistinct(start: nat, i: nat, j: nat)
    requires start < IdRange
    requires i < j < IdRange
    ensures IdAfter(start, i) != IdAfter(start, j)
  {
    IdAfterIsShift(start, i);
    IdAfterIsShift(start, j);
  }

  /** The process-wide `ndBody::m_uniqueIdCount`. */
  class IdCounter {
    var count: nat

    ghost predicate Valid()
      reads this
    {
      count < IdRange
    }

    constructor ()
      ensures Valid() && count == 0
    {
      count := 0;
    }
  }

  /** `ndBodyNotify`, with the back pointer `SetNotifyCallback` writes. */
  class Notify {
    var body: Body?

    constructor ()
      ensures body == null
    {
      body := null;
    }
  }

  class Body {
    var matrix: Matrix
    var veloc: Vec4
    var omega: Vec4
    var localCentreOfMass: Vec4
    var globalCentreOfMass: Vec4
    var minAabb: Vec4
    var maxAabb: Vec4
    var rotation: Quat
    var notifyCallback: Notify?
    const uniqueId: nat
    var isStatic: bool
    var autoSleep: bool
    var equilibrium: bool
    var equilibrium0: bool
    var isJointFence0: bool
    var isJointFence1: bool
    var isConstrained: bool
    var sceneForceUpdate: bool
    var sceneEquilibrium: bool
    var transformIsDirty: bool
    /** The callbacks this body has deleted, oldest first. */
    ghost var deletedCallbacks: seq<Notify>

    /** The global centre of mass is always the frame applied to the local
        one, and the local one is always a point (w = 1). */
    ghost predicate Valid()
      reads this
    {
      && localCentreOfMass.w == 1.0
      && globalCentreOfMass == Transform(matrix, localCentreOfMass)
    }

    /** Takes the next id from the counter, which then advances (wrapping at
        2^32), and starts at rest at the origin, awake, with both dirty flags
        raised. */
    constructor (counter: IdCounter)
      requires counter.Valid()
      modifies counter
      ensures Valid() && counter.Valid()
      ensures uniqueId == old(counter.count) && counter.count == NextId(old(counter.count))
      ensures matrix == Identity && veloc == Zero && omega == Zero
      ensures localCentreOfMass == WOne && globalCentreOfMass == WOne
      ensures minAabb == WOne && maxAabb == WOne && rotation == IdentityQuat
      ensures notifyCallback == null && deletedCallbacks == []
      ensures !isStatic && autoSleep && !equilibrium && !equilibrium0
      ensures !isJointFence0 && !isJointFence1 && !isConstrained
      ensures sceneForceUpdate && !sceneEquilibrium && transformIsDirty
    {
      matrix := Identity;
      veloc, omega := Zero, Zero;
      localCentreOfMass, globalCentreOfMass := WOne, WOne;
      minAabb, maxAabb := WOne, WOne;
      rotation := IdentityQuat;
      notifyCallback := null;
      uniqueId := counter.count;
      isStatic, autoSleep, equilibrium, equilibrium0 := false, true, false, false;
      isJointFence0, isJointFence1, isConstrained := false, false, false;
      sceneForceUpdate, sceneEquilibrium := true, false;
      deletedCallbacks := [];
      new;
      TransformIdentity(WOne);
      counter.count := NextId(counter.count);
      transformIsDirty := true;
    }

    /** Copies x, y and z, forces w to 1 and moves the global centre of mass
        with it. */
    method SetCentreOfMass(com: Vec4)
      modifies this`localCentreOfMass, this`globalCentreOfMass
      ensures Valid()
      ensures localCentreOfMass == Vec4(com.x, com.y, com.z, 1.0)
      ensures globalCentreOfMass == Transform(matrix, localCentreOfMass)
    {
      localCentreOfMass := localCentreOfMass.(x := com.x);
      localCentreOfMass := localCentreOfMass.(y := com.y);
      localCentreOfMass := localCentreOfMass.(z := com.z);
      localCentreOfMass := localCentreOfMass.(w := 1.0);
      globalCentreOfMass := Transform(matrix, localCentreOfMass);
    }

    /** The same callback again changes nothing. A different one replaces the
        old, which is deleted when there was one, and a new non-null callback
        gets its back pointer set to this body. */
    method SetNotifyCallback(notify: Notify?)
      modifies this`notifyCallback, this`deletedCallbacks, notify
      ensures notifyCallback == notify
      ensures notify == old(notifyCallback) ==> deletedCallbacks == old(deletedCallbacks)
      ensures notify != old(notifyCallback) && old(notifyCallback) != null ==>
                deletedCallbacks == old(deletedCallbacks) + [old(notifyCallback)]
      ensures notify != old(notifyCallback) && old(notifyCallback) == null ==>
                deletedCallbacks == old(deletedCallbacks)
      ensures notify != null && notify != old(notifyCallback) ==> notify.body == this
      ensures notify != null && notify == old(notifyCallback) ==> notify.body == old(notify.body)
    {
      if notify != notifyCallback {
        if notifyCallback != null {
          deletedCallbacks := deletedCallbacks + [notifyCallback];
        }
        notifyCallback := notify;
        if notifyCallback != null {
          notifyCallback.body := this;
        }
      }
    }

    method SetOmegaNoSleep(w: Vec4)
      modifies this`omega
      ensures omega == w
    {
      omega := w;
    }

    /** Also wakes the body: it is no longer in equilibrium. */
    method SetOmega(w: Vec4)
      modifies this`omega, this`equilibrium
      ensures omega == w && !equilibrium
    {
      equilibrium := false;
      SetOmegaNoSleep(w);
    }

    method SetVelocityNoSleep(v: Vec4)
      modifies this`veloc
      ensures veloc == v
    {
      veloc := v;
    }

    method SetVelocity(v: Vec4)
      modifies this`veloc, this`equilibrium
      ensures veloc == v && !equilibrium
    {
      equilibrium := false;
      SetVelocityNoSleep(v);
    }

    /** Stores the frame, its rotation and the global centre of mass it now
        implies; no flag changes. */
    method SetMatrixNoSleep(m: Matrix, quaternionOf: Matrix -> Quat)
      requires Valid()
      modifies this`matrix, this`rotation, this`globalCentreOfMass
      ensures Valid()
      ensures matrix == m && rotation == quaternionOf(m)
      ensures globalCentreOfMass == Transform(m, localCentreOfMass)
    {
      matrix := m;
      rotation := quaternionOf(matrix);
      globalCentreOfMass := Transform(matrix, localCentreOfMass);
    }

    /** Places the body by its rotation and global centre of mass: the frame's
        origin is chosen so the local centre of mass lands on `globalCom`. */
    method SetMatrixAndCentreOfMass(q: Quat, globalCom: Vec4, matrixOf: (Quat, Vec4) -> Matrix)
      requires Valid()
      modifies this`matrix, this`rotation, this`globalCentreOfMass
      ensures Valid()
      ensures rotation == q && globalCentreOfMass == globalCom
      ensures matrix == matrixOf(q, old(matrix).posit).(posit := Sub(globalCom, Rotate(matrix, localCentreOfMass)))
    {
      rotation := q;
      globalCentreOfMass := globalCom;
      matrix := matrixOf(rotation, matrix.posit);
      PlacedOrigin(matrix, localCentreOfMass, globalCentreOfMass);
      matrix := matrix.(posit := Sub(globalCentreOfMass, Rotate(matrix, localCentreOfMass)));
    }

    /** `SetMatrixNoSleep`, and the body is woken and marked for the scene and
        transform updates. */
    method SetMatrix(m: Matrix, quaternionOf: Matrix -> Quat)
      requires Valid()
      modifies this`matrix, this`rotation, this`globalCentreOfMass,
               this`equilibrium, this`transformIsDirty, this`sceneForceUpdate
      ensures Valid()
      ensures matrix == m && rotation == quaternionOf(m)
      ensures globalCentreOfMass == Transform(m, localCentreOfMass)
      ensures !equilibrium && transformIsDirty && sceneForceUpdate
    {
      equilibrium := false;
      transformIsDirty := true;
      sceneForceUpdate := true;
      SetMatrixNoSleep(m, quaternionOf);
    }
  }
}
