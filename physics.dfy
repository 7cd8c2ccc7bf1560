/**
 * The physics-world wrapper: box colliders sized from a mesh's bounding box
 * and world scale, optional rigid bodies, the character controller's
 * configuration, and the per-frame step that copies every dynamic body's
 * pose back onto its mesh.
 *
 * The physics engine's world is an abstract record of what was created in
 * it; the solver itself (`step`) and the conversion of a world pose into the
 * mesh's parent frame are parameters.
 */
module Physics {
  import opened Common
  import Scheduler

  type MeshId = nat

  /** A rotation quaternion, carried along and never computed with. */
  datatype Quat = Quat(x: real, y: real, z: real, w: real)

  datatype Pose = Pose(translation: Vec3, rotation: Quat)

  datatype BodyType = Fixed | Dynamic

  datatype RigidBody = RigidBody(kind: BodyType, pose: Pose)

  /**
   * A box collider: its half-extents, the body it is attached to, and its
   * own pose when it has no body. That pose is the creation pose: a character
   * controller's moves are kept by the controller, not written back here.
   */
  datatype Collider = Collider(halfExtents: Vec3, body: Option<nat>, pose: Pose)

  /** The autostep policy of a kinematic character controller. */
  datatype Autostep = Autostep(maxHeight: real, minWidth: real, includeDynamicBodies: bool)

  datatype ControllerConfig = ControllerConfig(offset: real, autostep: Option<Autostep>)

  /** What the world holds: bodies and colliders by creation index, controllers, and how often it stepped. */
  datatype World = World(gravity: Vec3, bodies: seq<RigidBody>, colliders: seq<Collider>,
                         controllers: seq<ControllerConfig>, steps: nat)

  /** What the wrapper needs of a mesh: its bounding-box size and its world scale and pose. */
  datatype Mesh = Mesh(id: MeshId, boxSize: Vec3, worldScale: Vec3, worldPose: Pose)

  /** The identity pose a collider keeps relative to its body. */
  const IdentityPose := Pose(Zero3, Quat(0.0, 0.0, 0.0, 1.0))

  const StepHeight: real := 0.5
  const StepMinWidth: real := 0.2

  /** The cuboid's half-extents: the bounding box scaled by the world scale, halved, axis by axis. */
  function HalfExtents(boxSize: Vec3, worldScale: Vec3): (h: Vec3)
    ensures 2.0 * h.x == boxSize.x * worldScale.x
    ensures 2.0 * h.y == boxSize.y * worldScale.y
    ensures 2.0 * h.z == boxSize.z * worldScale.z
  {
    var d := boxSize.Times(worldScale);
    Vec3(d.x / 2.0, d.y / 2.0, d.z / 2.0)
  }

  /** A box of non-negative size under a non-negative scale has non-negative half-extents. */
  lemma HalfExtentsNonNegative(boxSize: Vec3, worldScale: Vec3)
    requires boxSize.x >= 0.0 && boxSize.y >= 0.0 && boxSize.z >= 0.0
    requires worldScale.x >= 0.0 && worldScale.y >= 0.0 && worldScale.z >= 0.0
    ensures var h := HalfExtents(boxSize, worldScale); h.x >= 0.0 && h.y >= 0.0 && h.z >= 0.0
  {
    var h := HalfExtents(boxSize, worldScale);
    assert 2.0 * h.x >= 0.0 && 2.0 * h.y >= 0.0 && 2.0 * h.z >= 0.0;
  }

  /**
   * `createCollider`: a box collider for the mesh; with a body type, a body
   * of that type placed at the initial pose, which carries the collider;
   * without one, the collider itself is placed at the initial pose. Returns
   * the new world, the collider's index and the body's index, if any.
   */
  function CreateCollider(w: World, mesh: Mesh, initial: Pose, bodyType: Option<BodyType>)
    : (r: (World, nat, Option<nat>))
    ensures r.2.Some? <==> bodyType.Some?
    ensures bodyType.Some? ==> r.0.bodies == w.bodies + [RigidBody(bodyType.value, initial)] && r.2 == Some(|w.bodies|)
    ensures bodyType.None? ==> r.0.bodies == w.bodies
    ensures r.1 == |w.colliders| && |r.0.colliders| == r.1 + 1 && r.0.colliders[..r.1] == w.colliders
    ensures r.0.colliders[r.1].halfExtents == HalfExtents(mesh.boxSize, mesh.worldScale)
    ensures r.0.colliders[r.1].body == r.2
    ensures bodyType.None? ==> r.0.colliders[r.1].pose == initial
    ensures r.0.controllers == w.controllers && r.0.steps == w.steps
  {
    var half := HalfExtents(mesh.boxSize, mesh.worldScale);
    match bodyType
    case Some(kind) =>
      var b := |w.bodies|;
      (w.(bodies := w.bodies + [RigidBody(kind, initial)],
          colliders := w.colliders + [Collider(half, Some(b), IdentityPose)]),
       |w.colliders|, Some(b))
    case None =>
      (w.(colliders := w.colliders + [Collider(half, None, initial)]), |w.colliders|, None)
  }

  /** A collider's pose in the world: its body's pose when attached, its own otherwise. */
  function ColliderWorldPose(w: World, c: nat): Option<Pose>
  {
    if c >= |w.colliders| then None
    else match w.colliders[c].body
      case Some(b) => if b < |w.bodies| then Some(w.bodies[b].pose) else None
      case None => Some(w.colliders[c].pose)
  }

  /** Wherever the body goes, a new collider starts out at the pose it was asked for. */
  lemma NewColliderAtInitialPose(w: World, mesh: Mesh, initial: Pose, bodyType: Option<BodyType>)
    ensures var r := CreateCollider(w, mesh, initial, bodyType);
            ColliderWorldPose(r.0, r.1) == Some(initial)
  {
  }

  /** `createCharacterController`: the offset as given, autostep up 0.5 over ledges 0.2 wide, never onto dynamic bodies. */
  function CharacterControllerConfig(offset: real): (c: ControllerConfig)
    ensures c.offset == offset
    ensures c.autostep == Some(Autostep(StepHeight, StepMinWidth, false))
  {
    ControllerConfig(offset, Some(Autostep(StepHeight, StepMinWidth, false)))
  }

  class PhysicsWorld {
    var world: World
    /** The mesh-to-body bindings, for dynamic bodies only. */
    var bindings: map<MeshId, nat>
    /** The local pose of each mesh the wrapper writes back to. */
    var meshPoses: map<MeshId, Pose>

    ghost predicate Valid()
      reads this
    {
      forall m :: m in bindings ==> bindings[m] < |world.bodies| && world.bodies[bindings[m]].kind == Dynamic
    }

    /** A world pulled down by `gravity` along y, updated by the frame scheduler. */
    constructor (gravity: real, loop: Scheduler.RenderingLoopManager, updatable: UpdatableId)
      modifies loop
      ensures Valid()
      ensures world == World(Vec3(0.0, gravity, 0.0), [], [], [], 0) && bindings == map[] && meshPoses == map[]
      ensures loop.subscribers == old(loop.subscribers) + {updatable}
      ensures loop.State() == old(loop.State())
    {
      world := World(Vec3(0.0, gravity, 0.0), [], [], [], 0);
      bindings := map[];
      meshPoses := map[];
      new;
      loop.Subscribe(updatable);
    }

    method CreateColliderFor(mesh: Mesh, initial: Pose, bodyType: Option<BodyType>)
      returns (collider: nat, body: Option<nat>)
      requires Valid()
      modifies this`world
      ensures Valid()
      ensures (world, collider, body) == CreateCollider(old(world), mesh, initial, bodyType)
    {
      var r := CreateCollider(world, mesh, initial, bodyType);
      world := r.0;
      collider := r.1;
      body := r.2;
    }

    /**
     * `add`: a collider and a body of the given type at the mesh's world
     * pose; a dynamic body is bound to its mesh, a fixed one is not. The
     * source's "Mesh should have a rigid body" error cannot happen, since a
     * body type is always given.
     */
    method Add(mesh: Mesh, bodyType: BodyType)
      requires Valid()
      modifies this`world, this`bindings
      ensures Valid()
      ensures world == CreateCollider(old(world), mesh, mesh.worldPose, Some(bodyType)).0
      ensures bodyType == Dynamic ==> bindings == old(bindings)[mesh.id := |old(world.bodies)|]
      ensures bodyType == Fixed ==> bindings == old(bindings)
    {
      var collider, body := CreateColliderFor(mesh, mesh.worldPose, Some(bodyType));
      assert body.Some?;
      if bodyType == Dynamic {
        bindings := bindings[mesh.id := body.value];
      }
    }

    method CreateCharacterController(offset: real) returns (controller: nat)
      requires Valid()
      modifies this`world
      ensures Valid()
      ensures world == old(world).(controllers := old(world.controllers) + [CharacterControllerConfig(offset)])
      ensures controller == |old(world.controllers)| && world.controllers[controller] == CharacterControllerConfig(offset)
    {
      controller := |world.controllers|;
      world := world.(controllers := world.controllers + [CharacterControllerConfig(offset)]);
    }

    /**
     * `update`: step the world once, with `solved` standing for the bodies
     * as the solver leaves them, then write every bound mesh's pose, converted into its
     * parent's frame by `toLocal`, and touch no other mesh.
     */
    method Update(solved: seq<RigidBody>, toLocal: (MeshId, Pose) -> Pose)
      requires Valid()
      requires |solved| == |world.bodies| && forall i :: 0 <= i < |solved| ==> solved[i].kind == world.bodies[i].kind
      modifies this`world, this`meshPoses
      ensures Valid()
      ensures world == old(world).(bodies := solved, steps := old(world.steps) + 1)
      ensures meshPoses.Keys == old(meshPoses).Keys + bindings.Keys
      ensures forall m :: m in bindings ==> meshPoses[m] == toLocal(m, world.bodies[bindings[m]].pose)
      ensures forall m :: m in old(meshPoses) && m !in bindings ==> meshPoses[m] == old(meshPoses)[m]
    {
      world := world.(bodies := solved, steps := world.steps + 1);
      var poses := WriteBack(toLocal);
      meshPoses := poses;
    }

    /** The `forEach` over the bindings: the mesh poses after writing back every bound body. */
    method WriteBack(toLocal: (MeshId, Pose) -> Pose) returns (poses: map<MeshId, Pose>)
      requires Valid()
      ensures poses.Keys == meshPoses.Keys + bindings.Keys
      ensures forall m :: m in bindings ==> poses[m] == toLocal(m, world.bodies[bindings[m]].pose)
      ensures forall m :: m in meshPoses && m !in bindings ==> poses[m] == meshPoses[m]
    {
      poses := meshPoses;
      var todo := bindings.Keys;
      while todo != {}
        invariant todo <= bindings.Keys
        invariant poses.Keys == meshPoses.Keys + (bindings.Keys - todo)
        invariant forall m :: m in bindings && m !in todo ==> poses[m] == toLocal(m, world.bodies[bindings[m]].pose)
        invariant forall m :: m in meshPoses && m !in bindings ==> poses[m] == meshPoses[m]
        decreases todo
      {
        var m :| m in todo;
        poses := poses[m := toLocal(m, world.bodies[bindings[m]].pose)];
        todo := todo - {m};
      }
    }
  }
}
