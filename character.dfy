/**
 * The avatar's kinematic controller: key events set six action flags; each
 * frame turns the flags into an input direction (only while grounded), a
 * velocity (jump impulse, friction and gravity, snapping to walk or run speed
 * while grounded), a requested displacement, and finally moves the collider
 * by the displacement the physics engine allows.
 *
 * Speed is carried by the velocity, never negative horizontally; the sign of
 * the motion is carried by the input direction.
 */
module Character {
  import opened Common
  import opened CharacterKeys
  import Keyboard
  import Scheduler
  import Animation
  import Physics

  /** The six action flags. */
  datatype MovementState = MovementState(forward: bool, backward: bool, left: bool, right: bool,
                                         sprint: bool, jump: bool)
  {
    function Get(a: KeyAction): bool
    {
      match a
      case Forward => forward
      case Backward => backward
      case Left => left
      case Right => right
      case Sprint => sprint
      case Jump => jump
    }

    function Set(a: KeyAction, v: bool): (r: MovementState)
      ensures r.Get(a) == v
      ensures forall b :: b != a ==> r.Get(b) == Get(b)
    {
      match a
      case Forward => this.(forward := v)
      case Backward => this.(backward := v)
      case Left => this.(left := v)
      case Right => this.(right := v)
      case Sprint => this.(sprint := v)
      case Jump => this.(jump := v)
    }
  }

  const NoMovement := MovementState(false, false, false, false, false, false)

  /** The engine's constants that the controller integrates (their values are not part of this model). */
  datatype PhysicsConstants = PhysicsConstants(friction: real, gravity: real)

  /** `Math.hypot(1, 1)` as the double it returns. */
  const Hypot11: real := 1.4142135623730951

  /** Below this corrected horizontal distance the avatar is not turned. */
  const MovingEpsilon: real := 0.0001

  /** The offset the engine keeps between the character's collider and its surroundings. */
  const SkinOffset: real := 0.01

  function Abs(x: real): real { if x < 0.0 then -x else x }

  function Flag(b: bool): real { if b then 1.0 else 0.0 }

  /** Directions the controller can hold: a unit grid on x and z, with the placeholder 1 on y. */
  predicate OnGrid(d: Vec3)
  {
    (d.x == -1.0 || d.x == 0.0 || d.x == 1.0) && (d.z == -1.0 || d.z == 0.0 || d.z == 1.0) && d.y == 1.0
  }

  /** `_handleKeyEvent`: a bound key sets its action's flag; any other key is ignored. */
  function HandleKeyEvent(s: MovementState, code: string, isPressed: bool): (r: MovementState)
    ensures code !in KeyToAction ==> r == s
    ensures code in KeyToAction ==> r.Get(KeyToAction[code]) == isPressed
    ensures code in KeyToAction ==> forall b :: b != KeyToAction[code] ==> r.Get(b) == s.Get(b)
  {
    if code in KeyToAction then s.Set(KeyToAction[code], isPressed) else s
  }

  /** Any key listed under action `a` in the table drives exactly that action's flag. */
  lemma ControlKeyDrivesItsAction(s: MovementState, a: KeyAction, code: string, isPressed: bool)
    requires code in ControlKeys(a)
    ensures HandleKeyEvent(s, code, isPressed).Get(a) == isPressed
    ensures forall b :: b != a ==> HandleKeyEvent(s, code, isPressed).Get(b) == s.Get(b)
  {
    KeyToActionAgrees(code, a);
  }

  /** A key outside the control-key list changes no flag. */
  lemma OtherKeysIgnored(s: MovementState, code: string, isPressed: bool)
    requires code !in AllControlKeys
    ensures HandleKeyEvent(s, code, isPressed) == s
  {
    KeyToActionDomain();
  }

  /** `_updateInputDirection`: x is right minus left, z is backward minus forward, y is pinned to 1. */
  function InputDirection(s: MovementState): (d: Vec3)
    ensures OnGrid(d)
    ensures d.x == 1.0 <==> s.right && !s.left
    ensures d.x == -1.0 <==> s.left && !s.right
    ensures d.z == 1.0 <==> s.backward && !s.forward
    ensures d.z == -1.0 <==> s.forward && !s.backward
  {
    Vec3(Flag(s.right) - Flag(s.left), 1.0, Flag(s.backward) - Flag(s.forward))
  }

  /** The target ground speed: run while sprinting, walk otherwise. */
  function TargetSpeed(s: MovementState): (speed: real)
    ensures speed == RunSpeed || speed == WalkSpeed
    ensures speed == RunSpeed <==> s.sprint
    ensures speed > 0.0
  {
    if s.sprint then RunSpeed else WalkSpeed
  }

  /** `Math.hypot` of two grid magnitudes. */
  function GridHypot(ax: real, az: real): (len: real)
    requires (ax == 0.0 || ax == 1.0) && (az == 0.0 || az == 1.0)
    ensures len == 0.0 <==> ax == 0.0 && az == 0.0
    ensures len >= ax && len >= az
  {
    if ax == 0.0 then az else if az == 0.0 then ax else Hypot11
  }

  /**
   * `_updateVelocity` on the velocity: jump impulse when grounded, friction
   * and gravity integration, the grounded snap to the target speed spread
   * over the input axes, and the clamps.
   */
  function NextVelocity(v: Vec3, s: MovementState, dir: Vec3, delta: real, grounded: bool,
                        k: PhysicsConstants): (r: Vec3)
    requires OnGrid(dir)
    ensures r.x >= 0.0 && r.z >= 0.0
    ensures grounded ==> r.y >= 0.0
    ensures grounded && dir.x == 0.0 && dir.z == 0.0 ==> r.x == 0.0 && r.z == 0.0
    ensures grounded && dir.x != 0.0 && dir.z == 0.0 ==> r.x == TargetSpeed(s) && r.z == 0.0
    ensures grounded && dir.x == 0.0 && dir.z != 0.0 ==> r.x == 0.0 && r.z == TargetSpeed(s)
    ensures grounded && dir.x != 0.0 && dir.z != 0.0 ==> r.x == r.z == TargetSpeed(s) / Hypot11
    ensures !grounded ==> r.y == v.y + k.gravity * delta * 2.0
    ensures !grounded ==> r.x == Max(v.x + k.friction * delta, 0.0) && r.z == Max(v.z + k.friction * delta, 0.0)
  {
    var vy := if s.jump && grounded then v.y + JumpSpeed else v.y;
    var integrated := Vec3(v.x + k.friction * delta, vy + k.gravity * delta * 2.0, v.z + k.friction * delta);
    var snapped :=
      if grounded then
        var speed := TargetSpeed(s);
        var dirX := Abs(dir.x);
        var dirZ := Abs(dir.z);
        var len := GridHypot(dirX, dirZ);
        if len != 0.0 then Vec3(dirX / len * speed, Max(0.0, integrated.y), dirZ / len * speed)
        else Vec3(0.0, Max(0.0, integrated.y), 0.0)
      else integrated;
    Vec3(Max(snapped.x, 0.0), snapped.y, Max(snapped.z, 0.0))
  }

  /** The flags after `_updateVelocity`: the jump request is consumed whether or not it was granted. */
  function ConsumeJump(s: MovementState): (r: MovementState)
    ensures !r.jump
    ensures forall a :: a != Jump ==> r.Get(a) == s.Get(a)
  {
    s.(jump := false)
  }

  /** A grounded jump adds the jump speed before gravity; vertical speed never ends negative on the ground. */
  lemma GroundedJumpImpulse(v: Vec3, s: MovementState, dir: Vec3, delta: real, k: PhysicsConstants)
    requires OnGrid(dir) && s.jump
    ensures NextVelocity(v, s, dir, delta, true, k).y == Max(0.0, v.y + JumpSpeed + k.gravity * delta * 2.0)
  {
  }

  /**
   * A jump requested in the air is dropped: the airborne frame adds no
   * impulse, and the next grounded frame (with no new press) adds none either.
   */
  lemma AirborneJumpNotQueued(v: Vec3, s: MovementState, dir: Vec3, delta1: real, delta2: real,
                              k: PhysicsConstants)
    requires OnGrid(dir) && s.jump
    ensures var v1 := NextVelocity(v, s, dir, delta1, false, k);
            && v1.y == v.y + k.gravity * delta1 * 2.0
            && NextVelocity(v1, ConsumeJump(s), dir, delta2, true, k).y
               == Max(0.0, v1.y + k.gravity * delta2 * 2.0)
  {
  }

  /**
   * Moving diagonally on the ground splits the target speed evenly between
   * the axes, so the speed along the diagonal is the target speed up to the
   * rounding of `Math.hypot(1, 1)`, and neither axis alone reaches it.
   */
  lemma DiagonalSpeed(v: Vec3, s: MovementState, dir: Vec3, delta: real, k: PhysicsConstants)
    requires OnGrid(dir) && dir.x != 0.0 && dir.z != 0.0
    ensures var r := NextVelocity(v, s, dir, delta, true, k);
            && 0.0 < r.x < TargetSpeed(s)
            && r.x * r.x + r.z * r.z <= TargetSpeed(s) * TargetSpeed(s)
            && r.x * r.x + r.z * r.z >= TargetSpeed(s) * TargetSpeed(s) * (1.0 - 0.000000000000001)
  {
    var speed := TargetSpeed(s);
    var r := NextVelocity(v, s, dir, delta, true, k);
    assert r.x == r.z == speed / Hypot11;
    assert r.x * r.x + r.z * r.z == 2.0 * speed * speed / (Hypot11 * Hypot11);
    assert Hypot11 * Hypot11 >= 2.0;
    assert Hypot11 * Hypot11 * (1.0 - 0.000000000000001) <= 2.0;
  }

  /**
   * `_updateFameMovement`, request part: the input direction times the
   * velocity times the delta, component-wise. The direction gives the sign,
   * the velocity the magnitude.
   */
  function RequestedMovement(dir: Vec3, v: Vec3, delta: real): (m: Vec3)
    requires OnGrid(dir) && v.x >= 0.0 && v.z >= 0.0 && delta >= 0.0
    ensures m.y == v.y * delta
    ensures dir.x == 0.0 ==> m.x == 0.0
    ensures dir.x == 1.0 ==> m.x == v.x * delta && m.x >= 0.0
    ensures dir.x == -1.0 ==> m.x == -(v.x * delta) && m.x <= 0.0
    ensures dir.z == 0.0 ==> m.z == 0.0
    ensures dir.z == 1.0 ==> m.z == v.z * delta && m.z >= 0.0
    ensures dir.z == -1.0 ==> m.z == -(v.z * delta) && m.z <= 0.0
  {
    dir.Times(v).Scale(delta)
  }

  /**
   * `len > 0.0001` for the hypotenuse of the corrected horizontal movement,
   * compared squared: an axis beyond the threshold is enough, and a
   * movement that counts has some horizontal part.
   */
  predicate IsMoving(m: Vec3)
    ensures Abs(m.x) > MovingEpsilon || Abs(m.z) > MovingEpsilon ==> IsMoving(m)
    ensures IsMoving(m) ==> m.x != 0.0 || m.z != 0.0
  {
    m.x * m.x + m.z * m.z > MovingEpsilon * MovingEpsilon
  }

  /** The movement applied this frame: damped by the rotation factor only when moving on the ground. */
  function AppliedMovement(corrected: Vec3, grounded: bool, damping: real): (m: Vec3)
    requires 0.0 <= damping <= 1.0
    ensures !(grounded && IsMoving(corrected)) ==> m == corrected
    ensures grounded && IsMoving(corrected) ==> m == corrected.Scale(damping)
    ensures Abs(m.x) <= Abs(corrected.x) && Abs(m.y) <= Abs(corrected.y) && Abs(m.z) <= Abs(corrected.z)
  {
    if grounded && IsMoving(corrected) then
      ScaleShrinks(damping, corrected.x);
      ScaleShrinks(damping, corrected.y);
      ScaleShrinks(damping, corrected.z);
      corrected.Scale(damping)
    else corrected
  }

  lemma ScaleShrinks(k: real, x: real)
    requires 0.0 <= k <= 1.0
    ensures Abs(k * x) <= Abs(x)
  {
    if x < 0.0 {
      assert k * x >= x;
    } else {
      assert k * x <= x;
    }
  }

  /** No direction flag is held. */
  predicate NoDirectionHeld(s: MovementState)
  {
    !s.forward && !s.backward && !s.left && !s.right
  }

  /** The engine's correction never invents a horizontal displacement that was not requested. */
  ghost predicate KeepsHorizontalZero(resolve: Vec3 -> Vec3)
  {
    forall m: Vec3 :: m.x == 0.0 && m.z == 0.0 ==> resolve(m).x == 0.0 && resolve(m).z == 0.0
  }

  /**
   * A grounded frame with no direction flag held moves the avatar only
   * vertically, whatever the velocity, the sprint flag or the damping.
   */
  lemma GroundedIdleStaysPut(v: Vec3, s: MovementState, delta: real, k: PhysicsConstants,
                             resolve: Vec3 -> Vec3, damping: real)
    requires NoDirectionHeld(s) && KeepsHorizontalZero(resolve) && delta >= 0.0 && 0.0 <= damping <= 1.0
    ensures var dir := InputDirection(s);
            var m := AppliedMovement(resolve(RequestedMovement(dir, NextVelocity(v, s, dir, delta, true, k), delta)),
                                     true, damping);
            m.x == 0.0 && m.z == 0.0
  {
    var dir := InputDirection(s);
    var requested := RequestedMovement(dir, NextVelocity(v, s, dir, delta, true, k), delta);
    assert requested.x == 0.0 && requested.z == 0.0;
    var corrected := resolve(requested);
    assert corrected.x == 0.0 && corrected.z == 0.0;
  }

  class CharacterController {
    var movement: MovementState
    var inputDirection: Vec3
    var velocity: Vec3
    var frameMovement: Vec3
    /**
     * The collider's translation, which the controller alone writes. The
     * physics world's record of this collider keeps only its creation pose.
     */
    var translation: Vec3
    var meshPosition: Vec3
    const constants: PhysicsConstants
    const animation: Animation.AnimationManager
    /** The index of the character's collider in the physics world. */
    const collider: nat
    /** The index of its kinematic character controller in the physics world. */
    const controller: nat

    ghost predicate Valid()
      reads this
    {
      OnGrid(inputDirection) && velocity.x >= 0.0 && velocity.z >= 0.0
    }

    /**
     * Creates a body-less collider at the mesh's world pose and a character
     * controller with the skin offset, starts the idle animation, subscribes
     * to every control key on press and release, and subscribes to the frame
     * scheduler.
     */
    constructor (kb: Keyboard.KeyboardManager, loop: Scheduler.RenderingLoopManager,
                 physics: Physics.PhysicsWorld, self: ListenerId, updatable: UpdatableId,
                 animationId: UpdatableId, mesh: Physics.Mesh, meshPosition: Vec3, clips: seq<string>,
                 constants: PhysicsConstants)
      requires physics.Valid()
      modifies kb, loop, physics
      ensures Valid() && physics.Valid()
      ensures var created := Physics.CreateCollider(old(physics.world), mesh, mesh.worldPose, None);
              && collider == created.1
              && physics.world == created.0.(controllers := created.0.controllers + [Physics.CharacterControllerConfig(SkinOffset)])
              && controller == |created.0.controllers|
      ensures physics.bindings == old(physics.bindings)
      ensures movement == NoMovement && inputDirection == Vec3(0.0, 1.0, 0.0)
      ensures velocity == Zero3 && frameMovement == Zero3
      ensures translation == mesh.worldPose.translation && this.meshPosition == meshPosition
      ensures this.constants == constants
      ensures kb.listeners == old(kb.listeners)[self := Keyboard.RegistrationFor(AllControlKeys, true)]
      ensures kb.pressed == old(kb.pressed)
      ensures loop.subscribers == old(loop.subscribers) + {animationId, updatable}
      ensures loop.State() == old(loop.State())
      ensures fresh(animation) && animation.Valid()
      ensures animation.clips == clips && animation.id == animationId
      ensures animation.fadeDuration == Animation.DefaultFade && animation.timeScale == 1.0 && !animation.stopped
      ensures animation.current == Animation.Play(animation.actions, None, "idle").0
      ensures "idle" in clips <==> animation.current.Some?
      ensures animation.current.Some? ==> clips[animation.current.value] == "idle"
    {
      movement := NoMovement;
      inputDirection := Vec3(0.0, 1.0, 0.0);
      velocity := Zero3;
      frameMovement := Zero3;
      translation := mesh.worldPose.translation;
      this.meshPosition := meshPosition;
      this.constants := constants;
      ghost var created := Physics.CreateCollider(physics.world, mesh, mesh.worldPose, None);
      var c, _ := physics.CreateColliderFor(mesh, mesh.worldPose, None);
      collider := c;
      var ctl := physics.CreateCharacterController(SkinOffset);
      controller := ctl;
      ghost var worldAfter := physics.world;
      assert worldAfter == created.0.(controllers := created.0.controllers + [Physics.CharacterControllerConfig(SkinOffset)]);
      var anim := new Animation.AnimationManager(clips, loop, animationId);
      animation := anim;
      new;
      var _ := anim.PlayAnimation("idle");
      kb.Subscribe(self, AllControlKeys, true);
      loop.Subscribe(updatable);
    }

    method OnKeyDown(code: string)
      modifies this`movement
      ensures movement == HandleKeyEvent(old(movement), code, true)
    {
      movement := HandleKeyEvent(movement, code, true);
    }

    method OnKeyUp(code: string)
      modifies this`movement
      ensures movement == HandleKeyEvent(old(movement), code, false)
    {
      movement := HandleKeyEvent(movement, code, false);
    }

    /**
     * One frame. `grounded` is the engine's grounded query, `resolve` the
     * engine's collision correction of a requested displacement, and
     * `damping` the rotation factor in [0, 1] computed from the turn still
     * to make.
     */
    method Update(delta: real, grounded: bool, resolve: Vec3 -> Vec3, damping: real)
      requires Valid() && delta >= 0.0 && 0.0 <= damping <= 1.0
      modifies this`inputDirection, this`velocity, this`movement, this`frameMovement,
               this`translation, this`meshPosition
      ensures Valid()
      ensures inputDirection == if grounded then InputDirection(old(movement)) else old(inputDirection)
      ensures velocity == NextVelocity(old(velocity), old(movement), inputDirection, delta, grounded, constants)
      ensures movement == ConsumeJump(old(movement))
      ensures frameMovement == AppliedMovement(resolve(RequestedMovement(inputDirection, velocity, delta)), grounded, damping)
      ensures translation == old(translation).Plus(frameMovement)
      ensures meshPosition == translation
      ensures grounded && NoDirectionHeld(old(movement)) && KeepsHorizontalZero(resolve) ==>
                translation.x == old(translation).x && translation.z == old(translation).z
    {
      ghost var before := old(movement);
      if grounded && NoDirectionHeld(before) && KeepsHorizontalZero(resolve) {
        GroundedIdleStaysPut(velocity, before, delta, constants, resolve, damping);
      }
      if grounded {
        UpdateInputDirection();
      }
      UpdateVelocity(delta, grounded);
      UpdateFrameMovement(delta, resolve);
      if IsMoving(frameMovement) && grounded {
        frameMovement := frameMovement.Scale(damping);
      }
      MoveCharacter();
    }

    method UpdateInputDirection()
      modifies this`inputDirection
      ensures inputDirection == InputDirection(movement)
    {
      inputDirection := InputDirection(movement);
    }

    method UpdateVelocity(delta: real, grounded: bool)
      requires OnGrid(inputDirection)
      modifies this`velocity, this`movement
      ensures velocity == NextVelocity(old(velocity), old(movement), inputDirection, delta, grounded, constants)
      ensures movement == ConsumeJump(old(movement))
    {
      velocity := NextVelocity(velocity, movement, inputDirection, delta, grounded, constants);
      movement := movement.(jump := false);
    }

    /** The request, then the engine's corrected movement in its place. */
    method UpdateFrameMovement(delta: real, resolve: Vec3 -> Vec3)
      requires Valid() && delta >= 0.0
      modifies this`frameMovement
      ensures frameMovement == resolve(RequestedMovement(inputDirection, velocity, delta))
    {
      frameMovement := RequestedMovement(inputDirection, velocity, delta);
      frameMovement := resolve(frameMovement);
    }

    /** Moves the collider by this frame's movement and mirrors it onto the mesh. */
    method MoveCharacter()
      modifies this`translation, this`meshPosition
      ensures translation == old(translation).Plus(frameMovement)
      ensures meshPosition == translation
    {
      translation := translation.Plus(frameMovement);
      meshPosition := translation;
    }
  }
}
