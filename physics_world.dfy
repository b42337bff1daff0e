/**
  `ndPhysicsWorld` of the sandbox: the fixed-step driver that turns the
  frame time handed to `AdvanceTime` into whole simulation steps, throwing
  away what exceeds the per-frame budget, and the deferred-deletion queue that
  is drained after every step. The world's own `Update` and `DeleteBody` are
  not part of this model: each call is recorded, in order, as an event.
*/
module PhysicsWorld {
  import opened RigidBody

  /** `MAX_PHYSICS_STEPS`: simulation steps allowed per `AdvanceTime`. */
  const MaxPhysicsSteps: nat := 1
  /** `MAX_PHYSICS_FPS`. */
  const MaxPhysicsFps: real := 60.0
  /** `descreteStep`, the fixed simulation step. */
  const DiscreteStep: real := 1.0 / 60.0

  /** The calls the driver makes into the world, in the order it makes them. */
  datatype Event = Updated(step: real) | Deleted(body: Body)

  /** The accumulator after the excess whole steps are thrown away (lines
      133-138): above the budget it lands in [budget, budget + one step). */
  function Discard(acc: real): (r: real)
    ensures acc <= DiscreteStep * MaxPhysicsSteps as real ==> r == acc
    ensures acc > DiscreteStep * MaxPhysicsSteps as real ==>
              DiscreteStep * MaxPhysicsSteps as real <= r < DiscreteStep * (MaxPhysicsSteps + 1) as real
    ensures r <= acc
  {
    if acc > DiscreteStep * MaxPhysicsSteps as real then
      var steps := (acc / DiscreteStep).Floor - MaxPhysicsSteps;
      acc - DiscreteStep * steps as real
    else
      acc
  }

  /** What the stepping loop leaves: the accumulator and how many steps ran. */
  datatype Drained = Drained(acc: real, updates: nat)

  /** The stepping loop (lines 140-146): one step while more than a step is
      accumulated. No time is lost, what remains is at most one step, and
      nothing runs unless more than one step is accumulated. */
  function Drain(acc: real): (r: Drained)
    ensures r.acc <= DiscreteStep
    ensures acc == r.acc + DiscreteStep * r.updates as real
    ensures acc <= DiscreteStep ==> r == Drained(acc, 0)
    ensures acc > DiscreteStep ==> 0.0 < r.acc && r.updates > 0
    decreases if acc > DiscreteStep then (acc / DiscreteStep).Floor else 0
  {
    if acc > DiscreteStep then
      var rest := Drain(acc - DiscreteStep);
      Drained(rest.acc, rest.updates + 1)
    else
      Drained(acc, 0)
  }

  /** One `AdvanceTime`: add the frame time, discard, then step. */
  function Advance(acc: real, timestep: real): (r: Drained)
    ensures Discard(acc + timestep) == r.acc + DiscreteStep * r.updates as real
  {
    Drain(Discard(acc + timestep))
  }

  /** However long the frame, one `AdvanceTime` runs at most
      `MAX_PHYSICS_STEPS` steps and leaves at most one step accumulated; the
      accumulator stays non-negative when it and the frame time start so. */
  lemma AdvanceBounds(acc: real, timestep: real)
    ensures Advance(acc, timestep).updates <= MaxPhysicsSteps
    ensures Advance(acc, timestep).acc <= DiscreteStep
    ensures acc >= 0.0 && timestep >= 0.0 ==> Advance(acc, timestep).acc >= 0.0
  {
    var d := Discard(acc + timestep);
    var r := Drain(d);
    if acc + timestep > DiscreteStep * MaxPhysicsSteps as real {
      assert d < DiscreteStep * 2.0;
      assert 0.0 < r.acc;
      assert d == r.acc + DiscreteStep * r.updates as real;
    }
  }

  /** Within the budget nothing is thrown away: the frame time is either
      stepped or kept accumulated. */
  lemma AdvanceKeepsTime(acc: real, timestep: real)
    requires acc + timestep <= DiscreteStep * MaxPhysicsSteps as real
    ensures Advance(acc, timestep) == Drained(acc + timestep, 0)
  {
  }

  /** `DeleteBody` on each queued body, in queue order. */
  function DeletionEvents(queue: seq<Body>): (e: seq<Event>)
    ensures |e| == |queue|
    ensures forall i :: 0 <= i < |queue| ==> e[i] == Deleted(queue[i])
  {
    seq(|queue|, i requires 0 <= i < |queue| => Deleted(queue[i]))
  }

  /** The calls `n` loop iterations make: each steps the world once and then
      drains the queue, which only the first drain finds non-empty. */
  function StepEvents(n: nat, queue: seq<Body>): (e: seq<Event>)
    ensures |e| == n + (if n > 0 then |queue| else 0)
    ensures n == 0 ==> e == []
    ensures n > 0 ==> e[..1 + |queue|] == [Updated(DiscreteStep)] + DeletionEvents(queue)
  {
    if n == 0 then []
    else if n == 1 then [Updated(DiscreteStep)] + DeletionEvents(queue)
    else StepEvents(n - 1, queue) + [Updated(DiscreteStep)]
  }

  class World {
    /** `m_timeAccumulator`. */
    var timeAccumulator: real
    /** `m_deletedBodies`, oldest first. */
    var deletedBodies: seq<Body>
    /** `m_hasPendingObjectToDelete`. */
    var hasPendingObjectToDelete: bool
    /** The `Update` and `DeleteBody` calls made so far. */
    var events: seq<Event>

    /** The pending flag is raised exactly when the queue holds a body. */
    ghost predicate Valid()
      reads this
    {
      hasPendingObjectToDelete <==> deletedBodies != []
    }

    constructor ()
      ensures Valid()
      ensures timeAccumulator == 0.0 && deletedBodies == []
      ensures !hasPendingObjectToDelete && events == []
    {
      timeAccumulator := 0.0;
      deletedBodies := [];
      hasPendingObjectToDelete := false;
      events := [];
    }

    /** Raises the flag and appends the body at the end of the queue. */
    method QueueBodyForDelete(body: Body)
      requires Valid()
      modifies this
      ensures Valid()
      ensures hasPendingObjectToDelete && deletedBodies == old(deletedBodies) + [body]
      ensures timeAccumulator == old(timeAccumulator) && events == old(events)
    {
      hasPendingObjectToDelete := true;
      deletedBodies := deletedBodies + [body];
    }

    /** `ndWorld::Update`, which is not part of this model: the call is
        recorded and nothing the driver owns changes. */
    method Update(step: real)
      modifies this`events
      ensures events == old(events) + [Updated(step)]
    {
      events := events + [Updated(step)];
    }

    /** With bodies pending, deletes each once in queue order and empties the
        queue; otherwise changes nothing. */
    method DeletePendingObjects()
      requires Valid()
      modifies this
      ensures Valid()
      ensures deletedBodies == [] && !hasPendingObjectToDelete
      ensures events == old(events) + DeletionEvents(old(deletedBodies))
      ensures timeAccumulator == old(timeAccumulator)
      ensures !old(hasPendingObjectToDelete) ==> events == old(events)
    {
      if hasPendingObjectToDelete {
        hasPendingObjectToDelete := false;
        var i := 0;
        while i < |deletedBodies|
          invariant 0 <= i <= |deletedBodies|
          invariant deletedBodies == old(deletedBodies)
          invariant !hasPendingObjectToDelete && timeAccumulator == old(timeAccumulator)
          invariant events == old(events) + DeletionEvents(deletedBodies[..i])
        {
          assert DeletionEvents(deletedBodies[..i + 1]) == DeletionEvents(deletedBodies[..i]) + [Deleted(deletedBodies[i])];
          events := events + [Deleted(deletedBodies[i])];
          i := i + 1;
        }
        assert deletedBodies[..i] == deletedBodies;
        deletedBodies := [];
      }
    }

    /** Throws away the whole steps beyond `MAX_PHYSICS_STEPS` (lines 132-138). */
    method DiscardExcessSteps()
      modifies this`timeAccumulator
      ensures timeAccumulator == Discard(old(timeAccumulator))
    {
      var descreteStep := DiscreteStep;
      var maxSteps := MaxPhysicsSteps;
      if timeAccumulator > descreteStep * maxSteps as real {
        var steps := (timeAccumulator / descreteStep).Floor - maxSteps;
        timeAccumulator := timeAccumulator - descreteStep * steps as real;
      }
    }

    /** Adds the frame time, discards the excess and steps; every step is
        followed by draining the deletion queue. */
    method AdvanceTime(timestep: real)
      requires Valid()
      modifies this
      ensures Valid()
      ensures timeAccumulator == Advance(old(timeAccumulator), timestep).acc
      ensures events == old(events) + StepEvents(Advance(old(timeAccumulator), timestep).updates, old(deletedBodies))
      ensures Advance(old(timeAccumulator), timestep).updates > 0 ==> deletedBodies == []
      ensures Advance(old(timeAccumulator), timestep).updates == 0 ==>
                deletedBodies == old(deletedBodies) && hasPendingObjectToDelete == old(hasPendingObjectToDelete)
    {
      var descreteStep := DiscreteStep;
      timeAccumulator := timeAccumulator + timestep;
      DiscardExcessSteps();
      ghost var a0 := timeAccumulator;
      ghost var q0 := deletedBodies;
      ghost var e0 := events;
      ghost var n: nat := 0;
      assert a0 == Discard(old(timeAccumulator) + timestep);
      while timeAccumulator > descreteStep
        invariant Valid()
        invariant Drain(a0) == Drained(Drain(timeAccumulator).acc, n + Drain(timeAccumulator).updates)
        invariant events == e0 + StepEvents(n, q0)
        invariant n == 0 ==> deletedBodies == q0 && timeAccumulator == a0
        invariant n > 0 ==> deletedBodies == []
        decreases if timeAccumulator > DiscreteStep then (timeAccumulator / DiscreteStep).Floor else 0
      {
        Update(descreteStep);
        timeAccumulator := timeAccumulator - descreteStep;
        DeletePendingObjects();
        n := n + 1;
      }
    }
  }
}
