# 3D portfolio: input, scheduling and selection core in Dafny

This project models the logic core of a browser 3D portfolio. In it, an avatar walks around a room, and looking at the in-world computer opens a small terminal window. The model covers:

- **Keyboard router** (`Keyboard`). It is edge-triggered: it tracks the held keys and each listener's press and release key sets, and it swallows key repeat.
- **Frame scheduler** (`Scheduler`). It has a started flag and a subscriber set, and it clamps each frame's delta to 0.1 s.
- **Key-binding table** (`CharacterKeys`). Eleven raw key codes map onto six movement actions. The module also holds the speed constants.
- **Avatar controller** (`Character`):
  - key events become action flags;
  - an input direction is computed on the ground;
  - the velocity rule handles the jump impulse, friction and gravity integration, snapping to walk or run speed, and the non-negativity clamps;
  - the requested displacement is computed, and the collider is moved by the displacement the engine allows.
- **Interaction targeting** (`Interaction`). It keeps the object-to-interactable map. Each frame it updates the selection, the prompt and the confirm-key subscription, and it routes the `KeyE` key.
- **In-world computer** (`Terminal`). Interacting stops the scheduler and exiting starts it again.
- **Physics bookkeeping** (`Physics`):
  - collider half-extents;
  - whether a body is created;
  - the mesh-to-body bindings, which hold dynamic bodies only;
  - the character controller's configuration;
  - the per-frame write-back of body poses.
- **Animation selection** (`Animation`). It keeps the action table, the current action with cross-fades, and pause and resume.
- **Terminal window geometry** (`TerminalWindow`). It covers clamping into the container, previous-state bookkeeping, dragging, and maximize and restore.
- **Asset-loading store slice** (`Assets`). It tracks the loaded set, the percentage and the pending-to-ready transition.

Objects whose fields the program updates in place are classes. Their methods are proved against pure functions of the old state. The properties are lemmas about those functions.

The 3D engine, the physics engine and the page are replaced by inputs:

- the grounded flag;
- the engine's collision correction (`resolve`);
- the rotation damping factor in [0, 1];
- the clock's readings;
- the bodies as the solver leaves them;
- the conversion of a world pose into a mesh's parent frame;
- the nearest ray hit;
- the container's bounding size.

Numbers are Dafny reals, not doubles. `Math.hypot(1, 1)` is the constant `Hypot11`, the double it returns.

`constants/physics` is not part of this model. `FRICTION` and `GRAVITY` are parameters (`Character.PhysicsConstants`).

## Model

| member | source | states |
|---|---|---|
| Keyboard.RegistrationFor | src/core/managers/KeyboardManager.ts:21-25 | the press set is exactly the given keys; the release set equals it with `considerKeyUp`, and is empty without it |
| Keyboard.Press | src/core/managers/KeyboardManager.ts:32-41 | a held key: held set unchanged and nobody notified; otherwise the key becomes held and exactly the listeners whose press set holds it are notified |
| Keyboard.Release | src/core/managers/KeyboardManager.ts:43-50 | the key is no longer held, whether or not it was; exactly the listeners whose release set holds it are notified |
| Keyboard.KeyboardManager.constructor | src/core/managers/KeyboardManager.ts:4-14 | no listeners, no held keys |
| Keyboard.KeyboardManager.Subscribe | src/core/managers/KeyboardManager.ts:16-26 | replaces the listener's whole record with `RegistrationFor(keys, considerKeyUp)`; held keys unchanged |
| Keyboard.KeyboardManager.Unsubscribe | src/core/managers/KeyboardManager.ts:28-30 | the listener has no record afterwards; nothing else changes |
| Keyboard.KeyboardManager.Dispatch | src/core/managers/KeyboardManager.ts:38-40 | the loop over the registrations notifies exactly the listeners interested in the code |
| Keyboard.KeyboardManager.NotifyKeyDown | src/core/managers/KeyboardManager.ts:32-41 | new held set and notified listeners are `Press` of the old held set |
| Keyboard.KeyboardManager.NotifyKeyUp | src/core/managers/KeyboardManager.ts:43-50 | new held set and notified listeners are `Release` of the old held set |
| Keyboard.UnsubscribedHearsNothing | src/core/managers/KeyboardManager.ts:28-30 | after unsubscribing, any run of events delivers no press and no release call to the listener |
| Keyboard.RepeatsSwallowed | src/core/managers/KeyboardManager.ts:35 | any number of repeated presses of a held key deliver nothing |
| Keyboard.PressAndHold | src/core/managers/KeyboardManager.ts:32-50 | press, n repeats, release: one `onKeyDown` for a listener that wants the key, one `onKeyUp` only if it asked for releases |
| Keyboard.PressOnlyNeverReleased | src/core/managers/KeyboardManager.ts:24 | a listener subscribed without `considerKeyUp` receives no release call |
| Keyboard.PressReleasePress | src/core/managers/KeyboardManager.ts:35-45 | press, release, press gives two `onKeyDown` calls; press, press gives one |
| Scheduler.ClampDelta | src/core/managers/RenderingLoopManager.ts:36 | the delta is at most 0.1, non-negative for a non-negative clock delta, equal to the clock delta up to 0.1 and 0.1 beyond |
| Scheduler.StartStep | src/core/managers/RenderingLoopManager.ts:23-28 | a no-op when started; otherwise started, the clock restarted once and one frame requested |
| Scheduler.StopAsWritten | src/core/managers/RenderingLoopManager.ts:30-32 | clears the flag and leaves the already-requested frame pending |
| Scheduler.StopCancelling | src/core/managers/RenderingLoopManager.ts:30-32 | clears the flag and cancels the pending frame |
| Scheduler.FrameStep | src/core/managers/RenderingLoopManager.ts:34-40 | a running frame requests its successor; a stopped frame ends its chain |
| Scheduler.RenderingLoopManager.constructor | src/core/managers/RenderingLoopManager.ts:9-13 | stopped, no subscribers, no frames pending |
| Scheduler.RenderingLoopManager.Subscribe | src/core/managers/RenderingLoopManager.ts:15-17 | set insertion: subscribing twice leaves one entry |
| Scheduler.RenderingLoopManager.Unsubscribe | src/core/managers/RenderingLoopManager.ts:19-21 | the subscriber is removed |
| Scheduler.RenderingLoopManager.Start | src/core/managers/RenderingLoopManager.ts:23-28 | `StartStep` of the old state, keeping one frame chain; from stopped it runs a first tick with the clamped delta for every subscriber |
| Scheduler.RenderingLoopManager.Stop | src/core/managers/RenderingLoopManager.ts:30-32 | `StopCancelling` of the old state (see Findings) |
| Scheduler.RenderingLoopManager.Frame | src/core/managers/RenderingLoopManager.ts:34-40 | `FrameStep` of the old state; a tick only while started, with the clamped delta for the current subscribers |
| Scheduler.RenderingLoopManager.Loop | src/core/managers/RenderingLoopManager.ts:34-40 | stopped: nothing runs and nothing is requested; started: every subscriber updated with the clamped delta and one frame requested |
| Scheduler.RenderingLoopManager.Notify | src/core/managers/RenderingLoopManager.ts:38 | every current subscriber is updated, with the same delta |
| Scheduler.StartIdempotent | src/core/managers/RenderingLoopManager.ts:23-24 | `start` twice equals `start` once: one clock restart, one frame chain |
| Scheduler.FrameAfterStopEndsChain | src/core/managers/RenderingLoopManager.ts:35 | a frame after `stop` runs nothing and requests no frame |
| Scheduler.RunKeepsSingleChain | src/core/managers/RenderingLoopManager.ts:23-40 | with a cancelling stop, every interleaving of start, stop and frames keeps one chain while running and none while stopped |
| Scheduler.StopStartAsWrittenDoublesChain | src/core/managers/RenderingLoopManager.ts:30-32 | with the source's stop, stop then start before the pending frame leaves two frame chains, and they persist |
| Scheduler.StopStartCancellingKeepsOneChain | src/core/managers/RenderingLoopManager.ts:23-32 | the same calls with the cancelling stop leave one chain |
| CharacterKeys.ControlKeys | src/core/constants/character.ts:10-17 | one key for jump and two for every other action, never the same key twice in one list |
| CharacterKeys.PairsOf | src/core/constants/character.ts:21 | one pair per key, in key order, each carrying the action |
| CharacterKeys.EntriesSound | src/core/constants/character.ts:19-23 | every pair of the `flatMap` names a key listed under its own action |
| CharacterKeys.FromEntries | src/core/constants/character.ts:19-23 | every key of the built map comes with its value from some entry |
| CharacterKeys.Flatten | src/core/constants/character.ts:25-27 | every key of every listed action is in the flattened list |
| CharacterKeys.FromEntriesDomain | src/core/constants/character.ts:19-23 | the built map's domain is the set of entry keys |
| CharacterKeys.FromEntriesLookup | src/core/constants/character.ts:19-23 | an entry not overwritten later survives into the map |
| CharacterKeys.EntriesKeys | src/core/constants/character.ts:19-27 | the entry list's keys are the flattened key list, position by position |
| CharacterKeys.KeyListsDisjoint | src/core/constants/character.ts:10-17 | no key code is listed under two actions |
| CharacterKeys.AllControlKeysIsConcatenation | src/core/constants/character.ts:25-27 | the control-key list `AllControlKeys` is the six key lists one after another, eleven keys |
| CharacterKeys.EntriesValue | src/core/constants/character.ts:19-23 | the eleven key/action pairs, in table order |
| CharacterKeys.FromEntriesSnoc | src/core/constants/character.ts:19-23 | a later entry overwrites the key it names |
| CharacterKeys.KeyToActionValue | src/core/constants/character.ts:10-23 | the reverse lookup `KeyToAction` is exactly the eleven-key map |
| CharacterKeys.KeyToActionAgrees | src/core/constants/character.ts:10-23 | a key is listed under action A if and only if the map sends it to A |
| CharacterKeys.KeyToActionDomain | src/core/constants/character.ts:19-27 | the map's domain is exactly the set of control keys |
| CharacterKeys.KeyToActionSize | src/core/constants/character.ts:19-23 | the map has eleven entries |
| CharacterKeys.SpeedOrder | src/core/constants/character.ts:35-40 | run speed > walk speed > 0 and jump speed is 4 |
| Character.MovementState.Set | src/core/controllers/CharacterController.ts:103 | sets one flag and leaves the other five alone |
| Character.HandleKeyEvent | src/core/controllers/CharacterController.ts:100-105 | an unmapped code changes nothing; a mapped code sets its action's flag to the press value and no other flag |
| Character.ControlKeyDrivesItsAction | src/core/controllers/CharacterController.ts:100-105 | any key in action A's list drives exactly A's flag |
| Character.OtherKeysIgnored | src/core/controllers/CharacterController.ts:100-105 | a key outside the control-key list changes no flag |
| Character.InputDirection | src/core/controllers/CharacterController.ts:107-113 | x and z in {-1, 0, 1}, y = 1; x = 1 exactly when right alone is held, -1 when left alone; z = 1 exactly when backward alone is held, -1 when forward alone |
| Character.TargetSpeed | src/core/controllers/CharacterController.ts:139-141 | run speed exactly when sprinting, walk speed otherwise; always positive |
| Character.GridHypot | src/core/controllers/CharacterController.ts:143-145 | zero exactly when both axes are idle, and never less than either axis |
| Character.NextVelocity | src/core/controllers/CharacterController.ts:128-160 | horizontal speed never negative; vertical speed never negative on the ground; on the ground with no input the horizontal speed is 0, with one axis that axis gets the target speed, on a diagonal each axis gets speed / hypot(1, 1); in the air, friction and gravity integration and clamping only |
| Character.ConsumeJump | src/core/controllers/CharacterController.ts:129-132 | the jump flag is cleared, the other flags kept |
| Character.GroundedJumpImpulse | src/core/controllers/CharacterController.ts:129-130 | a grounded jump adds the jump speed before gravity |
| Character.AirborneJumpNotQueued | src/core/controllers/CharacterController.ts:129-132 | a jump pressed in the air adds nothing, then or on the next grounded frame |
| Character.DiagonalSpeed | src/core/controllers/CharacterController.ts:143-149 | diagonal ground speed equals the target speed up to the rounding of hypot(1, 1), and neither axis alone reaches it |
| Character.RequestedMovement | src/core/controllers/CharacterController.ts:115-119 | the direction gives each axis's sign and the velocity times delta its magnitude; an idle axis requests nothing |
| Character.IsMoving | src/core/controllers/CharacterController.ts:90-94 | a horizontal component above the threshold means moving; moving means some horizontal component is non-zero |
| Character.AppliedMovement | src/core/controllers/CharacterController.ts:90-95 | moving on the ground: the corrected movement scaled by the damping factor; otherwise the corrected movement itself; damping never enlarges any component |
| Character.GroundedIdleStaysPut | src/core/controllers/CharacterController.ts:81-98 | grounded with no direction flag held, and a correction that adds no horizontal motion: the applied movement has no horizontal part, whatever the velocity, sprint flag or damping |
| Character.CharacterController.constructor | src/core/controllers/CharacterController.ts:52-71 | a collider without a body at the mesh's world pose and a character controller with offset 0.01 are created in the physics world, bindings untouched; an animation manager over the given clips (fade 0.3, time scale 1, not stopped) in which "idle" is current exactly when some clip is named "idle"; all control keys subscribed with release, scheduler subscribed |
| Character.CharacterController.OnKeyDown | src/core/controllers/CharacterController.ts:73-75 | flags are `HandleKeyEvent(old, code, true)` |
| Character.CharacterController.OnKeyUp | src/core/controllers/CharacterController.ts:77-79 | flags are `HandleKeyEvent(old, code, false)` |
| Character.CharacterController.Update | src/core/controllers/CharacterController.ts:81-98 | the frame's sequence: direction refreshed only when grounded, the velocity rule, jump consumed, the corrected and damped movement added to the collider translation, the mesh placed at the collider; the controller invariant is kept; a grounded frame with no direction flag held leaves x and z of the translation unchanged when the correction adds no horizontal motion |
| Character.CharacterController.UpdateInputDirection | src/core/controllers/CharacterController.ts:107-113 | the direction is `InputDirection` of the flags |
| Character.CharacterController.UpdateVelocity | src/core/controllers/CharacterController.ts:128-160 | the velocity is `NextVelocity` of the old one and the jump flag is cleared |
| Character.CharacterController.UpdateFrameMovement | src/core/controllers/CharacterController.ts:115-126 | the frame movement is the engine's correction of the requested movement |
| Character.CharacterController.MoveCharacter | src/core/controllers/CharacterController.ts:184-192 | the collider advances by the frame movement and the mesh takes its translation |
| Interaction.Targets | src/core/managers/InteractionManager.ts:26-31 | an object is a target exactly when some interactable lists it |
| Interaction.Owners | src/core/managers/InteractionManager.ts:26-31 | every owner index names a registered interactable |
| Interaction.WriteOwner | src/core/managers/InteractionManager.ts:27-30 | every listed object maps to the owner; other entries are kept |
| Interaction.OwnersCoverTargets | src/core/managers/InteractionManager.ts:26-31 | the owner map's domain is exactly the set of target objects |
| Interaction.OwnerListsObject | src/core/managers/InteractionManager.ts:26-31 | an object maps to the interactable that lists it, when no later one lists it too |
| Interaction.BuildTargets | src/core/managers/InteractionManager.ts:26-31 | the nested loops build exactly `Targets` and `Owners` |
| Interaction.HitOwner | src/core/managers/InteractionManager.ts:81-84 | an interactable is selected exactly when there is a hit on a registered object, and it is that object's owner |
| Interaction.Frame | src/core/managers/InteractionManager.ts:73-105 | a registered hit selects its owner, subscribes to `KeyE` only if not already listening, and shows the prompt only for a new selection; no hit clears the selection, hides the prompt keeping its text, and unsubscribes only if listening |
| Interaction.FrameKeepsConsistent | src/core/managers/InteractionManager.ts:81-104 | after every frame: listening and a visible prompt exactly when something is selected, and the prompt text belongs to the selection |
| Interaction.SwitchWithoutFlicker | src/core/managers/InteractionManager.ts:86-95 | looking from A to B switches the prompt to B without hiding it or resubscribing |
| Interaction.RepeatedHitIsQuiet | src/core/managers/InteractionManager.ts:86-95 | a repeated hit changes nothing and performs no operation |
| Interaction.NothingRegisteredNeverEngages | src/core/managers/InteractionManager.ts:81-104 | with no interactables, nothing is ever selected, subscribed or shown |
| Interaction.InteractionManager.constructor | src/core/managers/InteractionManager.ts:23-53 | targets and owner map built from the interactables, idle targeting, scheduler subscribed |
| Interaction.InteractionManager.ShowPrompt | src/core/managers/InteractionManager.ts:64-67 | the prompt reads "Press [E] To " and the text, and is visible |
| Interaction.InteractionManager.HidePrompt | src/core/managers/InteractionManager.ts:69-71 | the prompt is hidden |
| Interaction.InteractionManager.Update | src/core/managers/InteractionManager.ts:73-105 | state, prompt operation and keyboard registration are those of `Frame` |
| Interaction.InteractionManager.OnKeyDown | src/core/managers/InteractionManager.ts:55-62 | only `KeyE` activates, and it activates the current selection, if any |
| Terminal.PromptText | src/core/world/Computer.ts:35 | always "Use Computer" |
| Terminal.InteractAsWritten | src/core/world/Computer.ts:25-28 | mounted and stopped, with the pending frame and the clock left as they were |
| Terminal.Exit | src/core/world/Computer.ts:30-33 | unmounted, and the scheduler is `StartStep` of the old one, hence started |
| Terminal.InteractExitAsWrittenDoublesChain | src/core/world/Computer.ts:25-33 | interacting and exiting within one frame, with the source's stop, leaves a running scheduler with two frame chains |
| Terminal.Computer.constructor | src/core/world/Computer.ts:11-16 | subscribes to `KeyX` press-only, so its release set is empty |
| Terminal.Computer.OnInteract | src/core/world/Computer.ts:25-28 | the UI is mounted and the scheduler stopped, with the cancelling stop (see Left out) |
| Terminal.Computer.OnExit | src/core/world/Computer.ts:30-33 | the UI is unmounted and the scheduler running, with a first tick if it was stopped |
| Terminal.Computer.OnKeyDown | src/core/world/Computer.ts:18-23 | every key exits; a key other than `KeyX` also adds a warning |
| Physics.HalfExtents | src/core/world/Physics.ts:43-53 | twice each half-extent is box size times world scale on that axis |
| Physics.HalfExtentsNonNegative | src/core/world/Physics.ts:43-53 | a non-negative box under non-negative scale has non-negative half-extents |
| Physics.CreateCollider | src/core/world/Physics.ts:37-77 | a body exists exactly when a type is given, of that type, at the initial pose, carrying the collider; without one the collider is at the initial pose; one collider appended |
| Physics.NewColliderAtInitialPose | src/core/world/Physics.ts:55-74 | either way, the new collider's world pose is the requested pose |
| Physics.CharacterControllerConfig | src/core/world/Physics.ts:79-83 | the offset as given, with autostep 0.5 high and 0.2 wide that never steps onto dynamic bodies |
| Physics.PhysicsWorld.constructor | src/core/world/Physics.ts:15-22 | an empty world with gravity along y, no bindings, scheduler subscribed |
| Physics.PhysicsWorld.CreateColliderFor | src/core/world/Physics.ts:37-77 | the world becomes `CreateCollider` of the old one |
| Physics.PhysicsWorld.Add | src/core/world/Physics.ts:24-35 | a body of the given type at the mesh's world pose; only a dynamic body is bound to the mesh; the no-body error is unreachable |
| Physics.PhysicsWorld.CreateCharacterController | src/core/world/Physics.ts:79-83 | one controller with `CharacterControllerConfig(offset)` appended |
| Physics.PhysicsWorld.Update | src/core/world/Physics.ts:85-106 | the world steps once; every bound mesh gets its body's pose in its parent's frame, no other mesh changes |
| Physics.PhysicsWorld.WriteBack | src/core/world/Physics.ts:88-105 | the loop over the bindings writes each bound mesh and no other |
| Animation.ActionTable | src/core/managers/AnimationManager.ts:23-25 | a name has an entry exactly when some clip has it, and the entry is a clip of that name |
| Animation.ActionTableLastWins | src/core/managers/AnimationManager.ts:23-25 | a later clip with the same name overwrites an earlier one |
| Animation.Play | src/core/managers/AnimationManager.ts:32-45 | an unknown name and the current action change nothing; another known name fades out the current action and makes the named one current |
| Animation.PlayTwiceIsNoop | src/core/managers/AnimationManager.ts:40 | playing the same name twice: the second call is a no-op |
| Animation.AnimationManager.constructor | src/core/managers/AnimationManager.ts:16-30 | action table built, nothing current, fade 0.3, time scale 1, scheduler subscribed |
| Animation.AnimationManager.PlayAnimation | src/core/managers/AnimationManager.ts:32-45 | current action and cross-fade are those of `Play` |
| Animation.AnimationManager.CurrentAnimation | src/core/managers/AnimationManager.ts:55-57 | none before the first successful play; afterwards, the name of the current clip |
| Animation.AnimationManager.Pause | src/core/managers/AnimationManager.ts:47-49 | time scale 0 |
| Animation.AnimationManager.Resume | src/core/managers/AnimationManager.ts:51-53 | time scale 1 |
| Animation.AnimationManager.Dispose | src/core/managers/AnimationManager.ts:59-62 | unsubscribed from the scheduler, every action stopped |
| Animation.BuildActionTable | src/core/managers/AnimationManager.ts:23-25 | the constructor's loop builds exactly `ActionTable` |
| TerminalWindow.Bound | src/core/interactables/computer/ComputerApp.ts:169-170 | no bound exactly when the container is missing or its dimension is 0; otherwise the dimension |
| TerminalWindow.ClampCoord | src/core/interactables/computer/ComputerApp.ts:167-175 | always at least 0; at most container minus window when that is non-negative, and 0 when it is negative; unchanged when already in range; a coordinate beyond the limit lands on the limit, one at or below 0 on 0; no upper bound for a missing or zero dimension |
| TerminalWindow.ClampPosition | src/core/interactables/computer/ComputerApp.ts:167-175 | both coordinates at least 0; each unchanged when already in range; each at most container minus window when the container is present, non-zero and at least the window |
| TerminalWindow.Move | src/core/interactables/computer/ComputerApp.ts:164-182 | without the element nothing changes; otherwise the position is clamped and the old one becomes the previous position |
| TerminalWindow.Resize | src/core/interactables/computer/ComputerApp.ts:184-192 | without the element nothing changes; otherwise the size is set and the old one becomes the previous size |
| TerminalWindow.MouseDown | src/core/interactables/computer/ComputerApp.ts:118-130 | maximized: nothing; otherwise dragging with offset client minus position |
| TerminalWindow.MouseMove | src/core/interactables/computer/ComputerApp.ts:132-141 | not dragging: nothing; otherwise a move to client minus offset |
| TerminalWindow.MouseUp | src/core/interactables/computer/ComputerApp.ts:143-145 | dragging always ends |
| TerminalWindow.MaximizedExtent | src/core/interactables/computer/ComputerApp.ts:155-158 | the container dimension when present and non-zero, 500 otherwise |
| TerminalWindow.Toggle | src/core/interactables/computer/ComputerApp.ts:147-162 | the flag flips; maximizing moves to (0, 0) and takes the container size (500 when missing or zero); restoring takes back the previous size and the previous position clamped for it; with the element present the state before becomes the previous state either way; drag flag and offset untouched; without the element only the flag changes |
| TerminalWindow.MaximizeThenRestore | src/core/interactables/computer/ComputerApp.ts:147-162 | maximize then restore gives back the exact size and the old position clamped for the container as it now is |
| TerminalWindow.RestoreInsideIsExact | src/core/interactables/computer/ComputerApp.ts:147-162 | a window already inside the container comes back to exactly its position |
| TerminalWindow.DragFollowsPointer | src/core/interactables/computer/ComputerApp.ts:118-141 | grabbing then moving the pointer by (dx, dy) moves the window by (dx, dy), clamped |
| TerminalWindow.ComputerApp.constructor | src/core/interactables/computer/ComputerApp.ts:62-77 | resized to 500×500 then moved to (20, 20), clamped; not maximized, not dragging |
| TerminalWindow.ComputerApp.Destroy | src/core/interactables/computer/ComputerApp.ts:95-116 | the element and the container are dropped |
| TerminalWindow.ComputerApp.MoveApp | src/core/interactables/computer/ComputerApp.ts:164-182 | the state becomes `Move` of the old one |
| TerminalWindow.ComputerApp.ResizeApp | src/core/interactables/computer/ComputerApp.ts:184-192 | the state becomes `Resize` of the old one |
| TerminalWindow.ComputerApp.OnMouseDown | src/core/interactables/computer/ComputerApp.ts:118-130 | the state becomes `MouseDown` of the old one |
| TerminalWindow.ComputerApp.OnMouseMove | src/core/interactables/computer/ComputerApp.ts:132-141 | the state becomes `MouseMove` of the old one |
| TerminalWindow.ComputerApp.OnMouseUp | src/core/interactables/computer/ComputerApp.ts:143-145 | the state becomes `MouseUp` of the old one |
| TerminalWindow.ComputerApp.OnToggleWindowSize | src/core/interactables/computer/ComputerApp.ts:147-162 | the state becomes `Toggle` of the old one |
| Assets.Percent | src/core/store/assetsSlice.ts:37-40 | never negative; at most 100 while no more than the total has loaded; exactly 100 when the counts are equal; with no assets the divisor is 1 |
| Assets.InitialState | src/core/store/assetsSlice.ts:23-27 | ready exactly when the list is empty; percent 0; nothing loaded |
| Assets.OnLoadAsset | src/core/store/assetsSlice.ts:33-42 | the id joins the loaded set, the percent is loaded / max(total, 1) × 100, ready when the counts are equal and status kept otherwise |
| Assets.LoadAll | src/core/store/assetsSlice.ts:33-42 | after a run of reports the loaded set is the old one plus every reported id |
| Assets.IdsOfSize | src/core/store/assetsSlice.ts:17-19 | a list has at most as many distinct ids as entries, exactly as many without duplicates |
| Assets.ReportTwice | src/core/store/assetsSlice.ts:33-37 | reporting the same id again changes nothing |
| Assets.ReadyStaysReady | src/core/store/assetsSlice.ts:41 | once ready, no run of reports makes the slice pending |
| Assets.PercentAtMostHundred | src/core/store/assetsSlice.ts:37-40 | while only listed ids report, the percent stays within [0, 100] |
| Assets.AllReportedIsReady | src/core/store/assetsSlice.ts:37-41 | every asset of a duplicate-free list reporting, in any order, ends ready at 100 |
| Assets.LastReportCompletes | src/core/store/assetsSlice.ts:37-41 | the report that completes the count sets ready at 100 and later reports keep it |
| Assets.DuplicatesNeverReady | src/core/store/assetsSlice.ts:41 | a list naming an id twice never becomes ready while only listed ids report |
| Assets.RepositoryStartsReady | src/core/store/assetsSlice.ts:17-27 | with the repository's empty list the slice starts ready |

## Left out

- Terminal.Computer.OnInteract: runs on the class's cancelling stop, so it does not show the pending frame the source leaves behind. The source's behaviour is `Terminal.InteractAsWritten`, and `Terminal.InteractExitAsWrittenDoublesChain` shows its consequence.
- Animation.Play and Animation.AnimationManager.PlayAnimation: the action table is a map keyed by clip name. In the source it is a plain object, so a name such as "toString", "constructor" or "valueOf" finds an inherited member: the source then fades out the current action and throws a `TypeError` at `reset()`. The model treats such a name as unknown. The optional `fadeDuration` parameter is fixed at its default 0.3.
- Character: the rotation speed constant (`ROTATION`) belongs to the rotation, which is left out, so it is not modelled.
- Scheduler.RenderingLoopManager.Stop: cancels the pending frame callback, which the source does not do. The source's behaviour is `Scheduler.StopAsWritten` (see Findings).
- The browser's frame callbacks and the clock are not modelled as such. Pending frames are a counter, and each clock reading is an input of the call that reads it.
- The turn towards the direction of motion (`atan2`, quaternion `angleTo` and `slerp`) is left out. It is floating-point trigonometry. Only its damping factor in [0, 1] appears, as an input of `Character.CharacterController.Update`.
- Physics engine behaviour is left out as foreign library code: the grounded query, the collision correction of a movement, the solver's `step`, and what creating a body or collider does internally. These are inputs, and the world is an abstract record.
- Quaternions are carried along and never computed with.
- Physics.PhysicsWorld.Update: the conversion of a world pose into the mesh's parent frame (matrix inversion, quaternion premultiplication) is the input `toLocal`. A mesh without a parent, on which the source throws, is not modelled.
- Ray casting and the origin's world position and direction are left out. Each targeting frame receives the nearest hit.
- Interaction.InteractionManager.OnKeyDown: returns the interactable to activate instead of calling its `onInteract`. The warning for an unexpected key is not modelled.
- Keyboard: a listener's optional `onKeyUp` handler is not distinguished. A listener that asked for releases counts as notified.
- Keyboard: listeners that subscribe or unsubscribe while a dispatch is iterating are not modelled.
- All page work is left out: prompt and window elements, style writes, and adding and removing event listeners. After `destroy` the window's handlers are detached in the source. The model can still call them, and they are no-ops apart from the drag and maximized flags.
- The animation mixer's own behaviour is left out: advancing time in `update`, and the fades themselves. The model records which action is faded out and in, and the time scale.
- The warning for an unknown animation name is left out. `Terminal.Computer` counts its warnings instead of logging them.
- `CHARACTER_DIMENSIONS` is not used by the modelled code and is left out.
- Assets.IdsOf and Assets.OnLoadAsset: the loaded set counts every reported id. In the source an id of "__proto__" does not become an own key of the state object, so `Object.keys` does not count it. The model does not capture this, which cannot arise while the repository's asset list is empty.
- Character.CharacterController.MoveCharacter: the physics world's record of the character's collider keeps its creation pose; the collider's live translation is the controller's own field.
- Doubles are modelled as reals. The not-a-number cases of the window's size test are not modelled.
- Other files, which are I/O, bootstrap or page code, are not part of this model:
  - the preloaders, the pointer-lock overlay, the terminal UI controller and the older terminal variant;
  - the asset and resource loaders, the store setup, the application and character bootstrap;
  - the resources slice (a single map write) and the date helpers (locale formatting).
- Physics: the mesh's bounding box and world transform are given as data (`Physics.Mesh`). They are not computed from geometry.

## Findings

| source | as written | input that shows it | evidently intended | confidence | as-written member | corrected member |
|---|---|---|---|---|---|---|
| src/core/managers/RenderingLoopManager.ts:30-32 | `stop` only clears the started flag; the frame callback already requested stays requested, and its loop body runs again if `start` has been called meanwhile | from Running: `stop`, then `start` before the next frame (for example the computer's interact and exit within one frame); two frame chains are then alive and every subscriber is updated twice per frame from then on | `stop` cancels the pending frame (or `start` does not request one while a chain is alive), so that at most one chain runs | not executed | Scheduler.StopStartAsWrittenDoublesChain | Scheduler.RunKeepsSingleChain |

Notes on following the code as written:

- The avatar's friction and gravity integration also runs on the ground. On the ground the snap to the target speed then overwrites the horizontal result, and the vertical result is clamped at 0.
- A zero or missing container dimension means the window has no upper bound, because `width || Infinity` treats 0 as missing.
