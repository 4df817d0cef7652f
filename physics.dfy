/**
 * The Bullet binding of the Android client
 * (NativeActivityTest/app/src/main/java/io/snower/game/client/BulletPhysicsNativeImpl.kt).
 * Native calls are recorded in `trace`; what the native side returns (world
 * and body pointers, the simulated body state) is passed in.
 */
module BulletPhysics {
  import opened Geometry
  import opened Wrappers
  import opened Boxes
  import opened Seqs

  // offsets into the 13 floats getBodyHandleData writes
  const POSITION_OFFSET := 0
  const QUATERNION_OFFSET := 3
  const LINEAR_VELOCITY_OFFSET := 7
  const ANGULAR_VELOCITY_OFFSET := 10
  const BODY_DATA_SIZE := 13

  datatype NativeCall =
    | CreateWorld
    | DeleteWorld(world: int)
    | CreateBodyInWorld(world: int, mass: real, position: Vec3, size: Vec3)
    | DeleteBodyFromWorld(world: int, body: int)
    | UpdateBodyWorldTransform(body: int, position: Vec3, rotation: Quat)
    | UpdateBodyVelocity(body: int, linear: Vec3, angular: Vec3)
    | StepSimulation(world: int, seconds: real)
    | GetBodyHandleData(body: int)

  /** A failed check(...). */
  datatype Error = IllegalState

  // ---------------------------------------------------------------------
  // The read-back layout

  /**
   * What the native getBodyHandleData writes for a body
   * (NativeActivityTest/app/src/main/cpp/JNI_PhysicsImpl.cpp): origin,
   * rotation quaternion x, y, z, w, linear velocity, angular velocity.
   */
  function BodyData(m: Motion): (d: seq<real>)
    ensures |d| == BODY_DATA_SIZE
  {
    [m.position.x, m.position.y, m.position.z,
     m.rotation.x, m.rotation.y, m.rotation.z, m.rotation.w,
     m.linearVelocity.x, m.linearVelocity.y, m.linearVelocity.z,
     m.angularVelocity.x, m.angularVelocity.y, m.angularVelocity.z]
  }

  /** The offsets tile the array as 3 + 4 + 3 + 3 slots, each read where the native side wrote it. */
  lemma LayoutTiles(m: Motion)
    ensures POSITION_OFFSET + 3 == QUATERNION_OFFSET && QUATERNION_OFFSET + 4 == LINEAR_VELOCITY_OFFSET
    ensures LINEAR_VELOCITY_OFFSET + 3 == ANGULAR_VELOCITY_OFFSET && ANGULAR_VELOCITY_OFFSET + 3 == BODY_DATA_SIZE
    ensures var d := BodyData(m);
      d[POSITION_OFFSET..QUATERNION_OFFSET] == [m.position.x, m.position.y, m.position.z]
      && d[QUATERNION_OFFSET..LINEAR_VELOCITY_OFFSET] == [m.rotation.x, m.rotation.y, m.rotation.z, m.rotation.w]
      && d[LINEAR_VELOCITY_OFFSET..ANGULAR_VELOCITY_OFFSET] == [m.linearVelocity.x, m.linearVelocity.y, m.linearVelocity.z]
      && d[ANGULAR_VELOCITY_OFFSET..BODY_DATA_SIZE] == [m.angularVelocity.x, m.angularVelocity.y, m.angularVelocity.z]
  {
  }

  /**
   * The read-back of simulate as the code is written: the three quaternion
   * lines assign position.x/y/z again, so position ends up holding the
   * quaternion's x, y, z and only rotation.w is updated.
   */
  function ReadBackAsWritten(current: Motion, d: seq<real>): Motion
    requires |d| == BODY_DATA_SIZE
  {
    var p := Vec3(d[POSITION_OFFSET + 0], d[POSITION_OFFSET + 1], d[POSITION_OFFSET + 2]);
    var p' := p.(x := d[QUATERNION_OFFSET + 0], y := d[QUATERNION_OFFSET + 1], z := d[QUATERNION_OFFSET + 2]);
    Motion(p', current.rotation.(w := d[QUATERNION_OFFSET + 3]),
           Vec3(d[LINEAR_VELOCITY_OFFSET + 0], d[LINEAR_VELOCITY_OFFSET + 1], d[LINEAR_VELOCITY_OFFSET + 2]),
           Vec3(d[ANGULAR_VELOCITY_OFFSET + 0], d[ANGULAR_VELOCITY_OFFSET + 1], d[ANGULAR_VELOCITY_OFFSET + 2]))
  }

  /** The read-back as evidently intended: each slot group into its own field. */
  function ReadBack(d: seq<real>): Motion
    requires |d| == BODY_DATA_SIZE
  {
    Motion(Vec3(d[POSITION_OFFSET + 0], d[POSITION_OFFSET + 1], d[POSITION_OFFSET + 2]),
           Quat(d[QUATERNION_OFFSET + 0], d[QUATERNION_OFFSET + 1], d[QUATERNION_OFFSET + 2], d[QUATERNION_OFFSET + 3]),
           Vec3(d[LINEAR_VELOCITY_OFFSET + 0], d[LINEAR_VELOCITY_OFFSET + 1], d[LINEAR_VELOCITY_OFFSET + 2]),
           Vec3(d[ANGULAR_VELOCITY_OFFSET + 0], d[ANGULAR_VELOCITY_OFFSET + 1], d[ANGULAR_VELOCITY_OFFSET + 2]))
  }

  /** The intended read-back recovers exactly the state the native side reported. */
  lemma ReadBackRoundTrip(m: Motion)
    ensures ReadBack(BodyData(m)) == m
  {
  }

  /**
   * As written, the box's position becomes the body's quaternion x, y, z and its
   * rotation keeps its old x, y, z; the velocities are read correctly.
   */
  lemma ReadBackAsWrittenSwapsPosition(current: Motion, m: Motion)
    ensures var r := ReadBackAsWritten(current, BodyData(m));
      r.position == Vec3(m.rotation.x, m.rotation.y, m.rotation.z)
      && r.rotation == Quat(current.rotation.x, current.rotation.y, current.rotation.z, m.rotation.w)
      && r.linearVelocity == m.linearVelocity && r.angularVelocity == m.angularVelocity
  {
  }

  /** A body resting at height 5 with no rotation is read back at the origin. */
  lemma ReadBackAsWrittenCounterexample()
    ensures var m := Motion(Vec3(0.0, 5.0, 0.0), IDENTITY, ORIGIN, ORIGIN);
      ReadBackAsWritten(m, BodyData(m)) != m
      && ReadBackAsWritten(m, BodyData(m)).position == ORIGIN
  {
  }

  // ---------------------------------------------------------------------
  // The commit protocol

  /** What simulate sees of one registered box before it commits. */
  datatype Pending = Pending(body: int, mass: real, motion: Motion, commitTransform: bool, commitMomentum: bool)

  /** The native updates issued for one box: transform if its flag is set, then velocity if its flag is set. */
  function CommitCallsFor(p: Pending): seq<NativeCall>
  {
    (if p.commitTransform then [UpdateBodyWorldTransform(p.body, p.motion.position, p.motion.rotation)] else [])
    + (if p.commitMomentum then [UpdateBodyVelocity(p.body, p.motion.linearVelocity, p.motion.angularVelocity)] else [])
  }

  function CommitCalls(ps: seq<Pending>): seq<NativeCall>
  {
    if ps == [] then [] else CommitCalls(ps[..|ps| - 1]) + CommitCallsFor(ps[|ps| - 1])
  }

  /** The read-back queries: one per box whose mass is not zero. */
  function ReadBackCalls(ps: seq<Pending>): seq<NativeCall>
  {
    if ps == [] then []
    else ReadBackCalls(ps[..|ps| - 1]) + (if ps[|ps| - 1].mass == 0.0 then [] else [GetBodyHandleData(ps[|ps| - 1].body)])
  }

  /**
   * Updates are issued only for boxes whose flags are set, and for every such
   * box: each transform update carries a flagged box's position and rotation,
   * each velocity update a flagged box's velocities.
   */
  lemma {:induction false} CommitCallsSound(ps: seq<Pending>)
    ensures forall c :: c in CommitCalls(ps) && c.UpdateBodyWorldTransform? ==>
      exists p :: p in ps && p.commitTransform && c == UpdateBodyWorldTransform(p.body, p.motion.position, p.motion.rotation)
    ensures forall c :: c in CommitCalls(ps) && c.UpdateBodyVelocity? ==>
      exists p :: p in ps && p.commitMomentum && c == UpdateBodyVelocity(p.body, p.motion.linearVelocity, p.motion.angularVelocity)
    ensures forall c :: c in CommitCalls(ps) ==> c.UpdateBodyWorldTransform? || c.UpdateBodyVelocity?
  {
    if ps != [] {
      CommitCallsSound(ps[..|ps| - 1]);
      assert forall p :: p in ps[..|ps| - 1] ==> p in ps;
    }
  }

  lemma {:induction false} CommitCallsComplete(ps: seq<Pending>)
    ensures forall p :: p in ps && p.commitTransform ==>
      UpdateBodyWorldTransform(p.body, p.motion.position, p.motion.rotation) in CommitCalls(ps)
    ensures forall p :: p in ps && p.commitMomentum ==>
      UpdateBodyVelocity(p.body, p.motion.linearVelocity, p.motion.angularVelocity) in CommitCalls(ps)
  {
    if ps != [] {
      CommitCallsComplete(ps[..|ps| - 1]);
      assert ps == ps[..|ps| - 1] + [ps[|ps| - 1]];
    }
  }

  /** Boxes with no flag set cost no native call. */
  lemma {:induction false} CommitCallsClean(ps: seq<Pending>)
    requires forall i :: 0 <= i < |ps| ==> !ps[i].commitTransform && !ps[i].commitMomentum
    ensures CommitCalls(ps) == []
  {
    if ps != [] {
      CommitCallsClean(ps[..|ps| - 1]);
    }
  }

  lemma {:induction false} ReadBackCallsSkipStatic(ps: seq<Pending>)
    ensures forall c :: c in ReadBackCalls(ps) ==> exists p :: p in ps && p.mass != 0.0 && c == GetBodyHandleData(p.body)
    ensures forall p :: p in ps && p.mass != 0.0 ==> GetBodyHandleData(p.body) in ReadBackCalls(ps)
  {
    if ps != [] {
      ReadBackCallsSkipStatic(ps[..|ps| - 1]);
      assert ps == ps[..|ps| - 1] + [ps[|ps| - 1]];
    }
  }

  lemma {:induction false} ReadBackCallsDependsOnBodies(ps: seq<Pending>, qs: seq<Pending>)
    requires |ps| == |qs|
    requires forall i :: 0 <= i < |ps| ==> ps[i].body == qs[i].body && ps[i].mass == qs[i].mass
    ensures ReadBackCalls(ps) == ReadBackCalls(qs)
  {
    if ps != [] {
      ReadBackCallsDependsOnBodies(ps[..|ps| - 1], qs[..|qs| - 1]);
    }
  }

  lemma CommitCallsStep(ps: seq<Pending>, i: nat)
    requires i < |ps|
    ensures CommitCalls(ps[..i + 1]) == CommitCalls(ps[..i]) + CommitCallsFor(ps[i])
  {
    assert ps[..i + 1][..i] == ps[..i];
  }

  lemma ReadBackCallsStep(ps: seq<Pending>, i: nat)
    requires i < |ps|
    ensures ReadBackCalls(ps[..i + 1])
      == ReadBackCalls(ps[..i]) + (if ps[i].mass == 0.0 then [] else [GetBodyHandleData(ps[i].body)])
  {
    assert ps[..i + 1][..i] == ps[..i];
  }

  /**
   * A box's state after the read-back: unchanged for mass 0, else the state
   * of its body.  This is the corrected read-back; ReadBackAsWritten is what
   * the quaternion lines of the source compute instead.
   */
  function AfterPoll(p: Pending, bodies: int -> Motion): Motion
  {
    if p.mass == 0.0 then p.motion else bodies(p.body)
  }

  /** The box's changes have been pushed: its state and handle are p's and both flags are clear. */
  ghost predicate Committed(b: Box, p: Pending)
    reads b
  {
    b.State() == p.motion && b.physicsHandle == Some(p.body)
    && !b.shouldCommitTransformChanges && !b.shouldCommitMomentumChanges
  }

  /** The box has been read back: its state is AfterPoll's, its handle and flags are p's. */
  ghost predicate Polled(b: Box, p: Pending, bodies: int -> Motion)
    reads b
  {
    b.State() == AfterPoll(p, bodies) && b.physicsHandle == Some(p.body)
    && b.shouldCommitTransformChanges == p.commitTransform && b.shouldCommitMomentumChanges == p.commitMomentum
  }

  ghost function PendingOf(b: Box): Pending
    reads b
    requires b.physicsHandle.Some?
  {
    Pending(b.physicsHandle.value, b.mass, b.State(), b.shouldCommitTransformChanges, b.shouldCommitMomentumChanges)
  }

  ghost function Pendings(bs: seq<Box>): (ps: seq<Pending>)
    reads bs
    requires forall i :: 0 <= i < |bs| ==> bs[i].physicsHandle.Some?
    ensures |ps| == |bs|
    ensures forall i :: 0 <= i < |bs| ==> ps[i] == PendingOf(bs[i])
  {
    seq(|bs|, i requires 0 <= i < |bs| && bs[i].physicsHandle.Some? reads bs => PendingOf(bs[i]))
  }

  // ---------------------------------------------------------------------
  // The binding

  class BulletPhysicsNativeImpl {
    var boxes: seq<Box>        // the registered boxes, in registration order
    var worldHandle: int
    var trace: seq<NativeCall>

    ghost predicate Valid()
      reads this, boxes
    {
      Distinct(boxes) && forall i :: 0 <= i < |boxes| ==> boxes[i].physicsHandle.Some?
    }

    constructor ()
      ensures Valid() && boxes == [] && worldHandle == 0 && trace == []
    {
      boxes := [];
      worldHandle := 0;
      trace := [];
    }

    /** init: fails unless no world exists yet; otherwise the created world becomes current. */
    method Init(created: int) returns (r: Result<(), Error>)
      requires Valid()
      modifies this
      ensures Valid() && boxes == old(boxes)
      ensures old(worldHandle) != 0 ==> r == Err(IllegalState) && worldHandle == old(worldHandle) && trace == old(trace)
      ensures old(worldHandle) == 0 ==> r == Ok(()) && worldHandle == created && trace == old(trace) + [CreateWorld]
    {
      if worldHandle != 0 {
        return Err(IllegalState);
      }
      trace := trace + [CreateWorld];
      worldHandle := created;
      r := Ok(());
    }

    /**
     * destroy: fails unless a world exists; deletes it and forgets every box,
     * but keeps the handle, so that a later init fails.
     */
    method Destroy() returns (r: Result<(), Error>)
      requires Valid()
      modifies this
      ensures Valid() && worldHandle == old(worldHandle)
      ensures old(worldHandle) == 0 ==> r == Err(IllegalState) && boxes == old(boxes) && trace == old(trace)
      ensures old(worldHandle) != 0 ==> r == Ok(()) && boxes == [] && trace == old(trace) + [DeleteWorld(old(worldHandle))]
      ensures r.Ok? ==> worldHandle != 0
    {
      if worldHandle == 0 {
        return Err(IllegalState);
      }
      trace := trace + [DeleteWorld(worldHandle)];
      boxes := [];
      r := Ok(());
    }

    /** register: an unregistered box gets a native body (`created`); a registered one is left alone. */
    method Register(box: Box, created: int)
      requires Valid()
      modifies this, box
      ensures Valid() && worldHandle == old(worldHandle)
      ensures box in old(boxes) ==> boxes == old(boxes) && trace == old(trace) && box.physicsHandle == old(box.physicsHandle)
      ensures box !in old(boxes) ==>
        (boxes == old(boxes) + [box] && box.physicsHandle == Some(created)
         && trace == old(trace) + [CreateBodyInWorld(worldHandle, box.mass, box.position, box.size)])
      ensures box.State() == old(box.State())
      ensures box.shouldCommitTransformChanges == old(box.shouldCommitTransformChanges)
      ensures box.shouldCommitMomentumChanges == old(box.shouldCommitMomentumChanges)
      ensures box.rendererHandle == old(box.rendererHandle) && box.theColor == old(box.theColor)
      ensures box.affectedByPhysics == old(box.affectedByPhysics)
    {
      if box !in boxes {
        trace := trace + [CreateBodyInWorld(worldHandle, box.mass, box.position, box.size)];
        box.physicsHandle := Some(created);
        boxes := boxes + [box];
      }
    }

    /** unRegister: a registered box's body is deleted and the box forgotten; otherwise nothing happens. */
    method Unregister(box: Box)
      requires Valid()
      modifies this
      ensures Valid() && worldHandle == old(worldHandle)
      ensures box !in old(boxes) ==> boxes == old(boxes) && trace == old(trace)
      ensures box in old(boxes) ==>
        (boxes == Without(old(boxes), box) && |boxes| == |old(boxes)| - 1
         && trace == old(trace) + [DeleteBodyFromWorld(worldHandle, box.physicsHandle.value)])
    {
      if box in boxes {
        var bodyHandle := box.physicsHandle.value;
        trace := trace + [DeleteBodyFromWorld(worldHandle, bodyHandle)];
        WithoutDistinct(boxes, box);
        boxes := Without(boxes, box);
      }
    }

    /**
     * simulate: push the dirty transforms and velocities, step the world by
     * delta milliseconds, then copy the state of every box with mass back
     * from the native body (`bodies` gives the state the engine reports
     * for each body pointer).
     */
    method Simulate(delta: int, bodies: int -> Motion)
      requires Valid()
      modifies this, boxes
      ensures Valid() && boxes == old(boxes) && worldHandle == old(worldHandle)
      ensures trace == old(trace) + CommitCalls(old(Pendings(boxes)))
                       + [StepSimulation(worldHandle, delta as real / 1000.0)] + ReadBackCalls(old(Pendings(boxes)))
      ensures forall i :: 0 <= i < |boxes| ==>
        !boxes[i].shouldCommitTransformChanges && !boxes[i].shouldCommitMomentumChanges
      ensures forall i :: 0 <= i < |boxes| ==> boxes[i].physicsHandle == old(boxes[i].physicsHandle)
      ensures forall i :: 0 <= i < |boxes| ==> boxes[i].State() == AfterPoll(old(Pendings(boxes))[i], bodies)
    {
      ghost var pend := Pendings(boxes);
      var commits := CommitAll(boxes);
      ghost var pend' := Pendings(boxes);
      assert forall i :: 0 <= i < |boxes| ==> pend'[i] == pend[i].(commitTransform := false, commitMomentum := false);
      assert ReadBackCalls(pend') == ReadBackCalls(pend) by {
        ReadBackCallsDependsOnBodies(pend', pend);
      }
      var polls := PollAll(boxes, bodies);
      // the native calls in the order simulate makes them
      trace := trace + commits + [StepSimulation(worldHandle, delta as real / 1000.0)] + polls;
    }
  }

  /** The commit loop over distinct registered boxes: the calls it issues, box by box. */
  method CommitAll(bs: seq<Box>) returns (calls: seq<NativeCall>)
    requires Distinct(bs) && forall i :: 0 <= i < |bs| ==> bs[i].physicsHandle.Some?
    modifies bs
    ensures calls == CommitCalls(old(Pendings(bs)))
    ensures forall i :: 0 <= i < |bs| ==> Committed(bs[i], old(Pendings(bs))[i])
  {
    ghost var pend := Pendings(bs);
    calls := [];
    var i := 0;
    while i < |bs|
      invariant 0 <= i <= |bs|
      invariant calls == CommitCalls(pend[..i])
      invariant forall j :: 0 <= j < i ==> Committed(bs[j], pend[j])
      invariant forall j :: i <= j < |bs| ==> bs[j].physicsHandle.Some? && PendingOf(bs[j]) == pend[j]
    {
      var box := bs[i];
      assert forall j :: 0 <= j < |bs| && j != i ==> bs[j] != box;
      CommitCallsStep(pend, i);
      var step := CommitBox(box);
      calls := calls + step;
      i := i + 1;
    }
    assert pend[..|bs|] == pend;
  }

  /** The read-back loop over distinct registered boxes: the queries it issues, box by box. */
  method PollAll(bs: seq<Box>, bodies: int -> Motion) returns (calls: seq<NativeCall>)
    requires Distinct(bs) && forall i :: 0 <= i < |bs| ==> bs[i].physicsHandle.Some?
    modifies bs
    ensures calls == ReadBackCalls(old(Pendings(bs)))
    ensures forall i :: 0 <= i < |bs| ==> Polled(bs[i], old(Pendings(bs))[i], bodies)
  {
    ghost var pend := Pendings(bs);
    calls := [];
    var i := 0;
    while i < |bs|
      invariant 0 <= i <= |bs|
      invariant calls == ReadBackCalls(pend[..i])
      invariant forall j :: 0 <= j < i ==> Polled(bs[j], pend[j], bodies)
      invariant forall j :: i <= j < |bs| ==> bs[j].physicsHandle.Some? && PendingOf(bs[j]) == pend[j]
    {
      var box := bs[i];
      assert forall j :: 0 <= j < |bs| && j != i ==> bs[j] != box;
      ReadBackCallsStep(pend, i);
      var step := PollBox(box, bodies);
      calls := calls + step;
      i := i + 1;
    }
    assert pend[..|bs|] == pend;
  }

  /** One box of the commit loop: the updates its flags call for, and both flags cleared. */
  method CommitBox(box: Box) returns (calls: seq<NativeCall>)
    requires box.physicsHandle.Some?
    modifies box
    ensures calls == CommitCallsFor(old(PendingOf(box)))
    ensures !box.shouldCommitTransformChanges && !box.shouldCommitMomentumChanges
    ensures box.State() == old(box.State()) && box.physicsHandle == old(box.physicsHandle)
  {
    calls := [];
    if box.shouldCommitTransformChanges {
      var handle := box.physicsHandle.value;
      calls := calls + [UpdateBodyWorldTransform(handle, box.position, box.rotation)];
      box.shouldCommitTransformChanges := false;
    }
    if box.shouldCommitMomentumChanges {
      var handle := box.physicsHandle.value;
      calls := calls + [UpdateBodyVelocity(handle, box.linearVelocity, box.angularVelocity)];
      box.shouldCommitMomentumChanges := false;
    }
  }

  /**
   * One box of the read-back loop: skipped when its mass is 0; otherwise its
   * body data is fetched and assigned to the fields directly (the setters, and
   * so the flags, are bypassed).  The quaternion goes into the rotation, as
   * intended; see ReadBackAsWritten for the source's assignment to position.
   */
  method PollBox(box: Box, bodies: int -> Motion) returns (calls: seq<NativeCall>)
    requires box.physicsHandle.Some?
    modifies box
    ensures calls == (if box.mass == 0.0 then [] else [GetBodyHandleData(old(PendingOf(box)).body)])
    ensures box.State() == AfterPoll(old(PendingOf(box)), bodies)
    ensures box.physicsHandle == old(box.physicsHandle)
    ensures box.shouldCommitTransformChanges == old(box.shouldCommitTransformChanges)
    ensures box.shouldCommitMomentumChanges == old(box.shouldCommitMomentumChanges)
  {
    if box.mass == 0.0 {
      return [];
    }
    var handle := box.physicsHandle.value;
    calls := [GetBodyHandleData(handle)];
    var bodyDataDst := BodyData(bodies(handle));
    // update position
    box.position := Vec3(bodyDataDst[POSITION_OFFSET + 0],
                         bodyDataDst[POSITION_OFFSET + 1],
                         bodyDataDst[POSITION_OFFSET + 2]);
    // update quaternion
    box.rotation := Quat(bodyDataDst[QUATERNION_OFFSET + 0],
                         bodyDataDst[QUATERNION_OFFSET + 1],
                         bodyDataDst[QUATERNION_OFFSET + 2],
                         bodyDataDst[QUATERNION_OFFSET + 3]);
    // update velocity
    box.linearVelocity := Vec3(bodyDataDst[LINEAR_VELOCITY_OFFSET + 0],
                               bodyDataDst[LINEAR_VELOCITY_OFFSET + 1],
                               bodyDataDst[LINEAR_VELOCITY_OFFSET + 2]);
    // update angular velocity
    box.angularVelocity := Vec3(bodyDataDst[ANGULAR_VELOCITY_OFFSET + 0],
                                bodyDataDst[ANGULAR_VELOCITY_OFFSET + 1],
                                bodyDataDst[ANGULAR_VELOCITY_OFFSET + 2]);
    assert box.State() == ReadBack(bodyDataDst);
    ReadBackRoundTrip(bodies(handle));
  }
}
