/**
 * Interaction targeting: the objects of every registered interactable are
 * the ray's targets; each frame the nearest hit selects its owner, shows the
 * owner's prompt and listens to the confirm key, and a frame without a hit
 * clears the selection, hides the prompt and stops listening.
 *
 * The ray cast itself is not modelled: each frame receives the nearest hit.
 * An interactable is identified by its position in the registration list,
 * an object by its uuid.
 */
module Interaction {
  import opened Common
  import Keyboard
  import Scheduler

  type ObjectId = nat

  /** What the targeting needs of an interactable: its objects and its prompt text. */
  datatype Interactable = Interactable(objects: seq<ObjectId>, promptText: string)

  const ConfirmKey: string := "KeyE"
  const PromptPrefix: string := "Press [E] To "

  /** Every object of every interactable, in registration order. */
  function Targets(xs: seq<Interactable>): (ts: seq<ObjectId>)
    ensures forall i, o :: 0 <= i < |xs| && o in xs[i].objects ==> o in ts
    ensures forall o :: o in ts ==> exists i :: 0 <= i < |xs| && o in xs[i].objects
  {
    if xs == [] then [] else Targets(xs[..|xs| - 1]) + xs[|xs| - 1].objects
  }

  /** Object id to owner; an object listed twice belongs to the last owner that lists it. */
  function Owners(xs: seq<Interactable>): (m: map<ObjectId, nat>)
    ensures forall o :: o in m ==> m[o] < |xs|
  {
    if xs == [] then map[] else WriteOwner(Owners(xs[..|xs| - 1]), xs[|xs| - 1].objects, |xs| - 1)
  }

  /** `objects.forEach(o => map.set(o.uuid, owner))`. */
  function WriteOwner(m: map<ObjectId, nat>, objects: seq<ObjectId>, owner: nat): (r: map<ObjectId, nat>)
    ensures r.Keys == m.Keys + set o | o in objects
    ensures forall o :: o in objects ==> r[o] == owner
    ensures forall o :: o in m && o !in objects ==> r[o] == m[o]
  {
    if objects == [] then m
    else WriteOwner(m, objects[..|objects| - 1], owner)[objects[|objects| - 1] := owner]
  }

  /** The targets are exactly the objects the owner map knows. */
  lemma {:induction false} OwnersCoverTargets(xs: seq<Interactable>)
    ensures Owners(xs).Keys == set o | o in Targets(xs)
  {
    if xs != [] {
      OwnersCoverTargets(xs[..|xs| - 1]);
    }
  }

  /** An object maps to an interactable that lists it; and to the interactable itself when no later one lists it. */
  lemma {:induction false} OwnerListsObject(xs: seq<Interactable>, i: nat, o: ObjectId)
    requires i < |xs| && o in xs[i].objects
    requires forall j :: i < j < |xs| ==> o !in xs[j].objects
    ensures o in Owners(xs) && Owners(xs)[o] == i
  {
    if i < |xs| - 1 {
      OwnerListsObject(xs[..|xs| - 1], i, o);
    }
  }

  /** The constructor's nested `forEach`: push every object and record its owner. */
  method BuildTargets(xs: seq<Interactable>) returns (objects: seq<ObjectId>, owners: map<ObjectId, nat>)
    ensures objects == Targets(xs) && owners == Owners(xs)
  {
    objects := [];
    owners := map[];
    var i := 0;
    while i < |xs|
      invariant 0 <= i <= |xs|
      invariant objects == Targets(xs[..i]) && owners == Owners(xs[..i])
    {
      assert xs[..i + 1][..i] == xs[..i];
      var objs := xs[i].objects;
      var j := 0;
      while j < |objs|
        invariant 0 <= j <= |objs|
        invariant objects == Targets(xs[..i]) + objs[..j]
        invariant owners == WriteOwner(Owners(xs[..i]), objs[..j], i)
      {
        assert objs[..j + 1][..j] == objs[..j];
        objects := objects + [objs[j]];
        owners := owners[objs[j] := i];
        j := j + 1;
      }
      assert objs[..j] == objs;
      i := i + 1;
    }
    assert xs[..i] == xs;
  }

  /** What a frame does to the prompt element. */
  datatype PromptOp = Show(text: string) | Hide

  /** What a frame does to the keyboard subscription. */
  datatype KeyboardOp = SubscribeConfirm | UnsubscribeAll

  /** The targeting's own state: selection, prompt and whether it listens to the confirm key. */
  datatype Targeting = Targeting(selected: Option<nat>, promptVisible: bool, promptText: string, listening: bool)

  const Idle := Targeting(None, false, "", false)

  /** The owner the nearest hit selects, if any. */
  function HitOwner(owners: map<ObjectId, nat>, hit: Option<ObjectId>): (r: Option<nat>)
    ensures r.Some? <==> hit.Some? && hit.value in owners
    ensures r.Some? ==> r.value == owners[hit.value]
  {
    if hit.Some? && hit.value in owners then Some(owners[hit.value]) else None
  }

  /** The invariant every frame re-establishes: listening and the prompt both go with a selection. */
  predicate Consistent(xs: seq<Interactable>, t: Targeting)
  {
    && (t.listening <==> t.selected.Some?)
    && (t.promptVisible <==> t.selected.Some?)
    && (t.selected.Some? ==> t.selected.value < |xs| && t.promptText == PromptPrefix + xs[t.selected.value].promptText)
  }

  /**
   * One frame of `update` given the nearest hit: the new state, the change
   * of keyboard subscription and the prompt operation.
   */
  function Frame(xs: seq<Interactable>, owners: map<ObjectId, nat>, t: Targeting, hit: Option<ObjectId>)
    : (r: (Targeting, Option<KeyboardOp>, Option<PromptOp>))
    requires forall o :: o in owners ==> owners[o] < |xs|
    ensures r.0.listening <==> r.0.selected.Some?
    ensures r.0.selected == HitOwner(owners, hit)
    ensures HitOwner(owners, hit).Some? ==> r.1 == (if t.listening then None else Some(SubscribeConfirm))
    ensures HitOwner(owners, hit).None? ==> r.1 == (if t.listening then Some(UnsubscribeAll) else None)
    ensures HitOwner(owners, hit).None? ==> r.2 == Some(Hide) && !r.0.promptVisible && r.0.promptText == t.promptText
    ensures HitOwner(owners, hit).Some? && t.selected == HitOwner(owners, hit) ==> r.2 == None && r.0.promptVisible == t.promptVisible && r.0.promptText == t.promptText
    ensures HitOwner(owners, hit).Some? && t.selected != HitOwner(owners, hit) ==>
              var text := PromptPrefix + xs[HitOwner(owners, hit).value].promptText;
              r.2 == Some(Show(text)) && r.0.promptVisible && r.0.promptText == text
  {
    match HitOwner(owners, hit)
    case Some(i) =>
      var kb := if t.listening then None else Some(SubscribeConfirm);
      if t.selected != Some(i) then
        var text := PromptPrefix + xs[i].promptText;
        (Targeting(Some(i), true, text, true), kb, Some(Show(text)))
      else
        (t.(listening := true), kb, None)
    case None =>
      (t.(selected := None, promptVisible := false, listening := false),
       if t.listening then Some(UnsubscribeAll) else None, Some(Hide))
  }

  /** Every frame keeps the targeting state consistent. */
  lemma FrameKeepsConsistent(xs: seq<Interactable>, owners: map<ObjectId, nat>, t: Targeting, hit: Option<ObjectId>)
    requires forall o :: o in owners ==> owners[o] < |xs|
    requires Consistent(xs, t)
    ensures Consistent(xs, Frame(xs, owners, t, hit).0)
  {
  }

  /** Looking at A, then at B on the next frame: the prompt switches to B's text once and is never hidden. */
  lemma SwitchWithoutFlicker(xs: seq<Interactable>, owners: map<ObjectId, nat>, t: Targeting, a: ObjectId, b: ObjectId)
    requires forall o :: o in owners ==> owners[o] < |xs|
    requires Consistent(xs, t)
    requires a in owners && b in owners && owners[a] != owners[b]
    ensures var f1 := Frame(xs, owners, t, Some(a));
            var f2 := Frame(xs, owners, f1.0, Some(b));
            && f2.0.selected == Some(owners[b])
            && f1.0.promptVisible && f2.0.promptVisible
            && f2.2 == Some(Show(PromptPrefix + xs[owners[b]].promptText))
            && f2.1 == None
  {
  }

  /** Staring at the same target frame after frame shows the prompt and subscribes once, then nothing. */
  lemma RepeatedHitIsQuiet(xs: seq<Interactable>, owners: map<ObjectId, nat>, t: Targeting, a: ObjectId)
    requires forall o :: o in owners ==> owners[o] < |xs|
    requires Consistent(xs, t) && a in owners
    ensures var f1 := Frame(xs, owners, t, Some(a));
            var f2 := Frame(xs, owners, f1.0, Some(a));
            f2.0 == f1.0 && f2.1 == None && f2.2 == None
  {
  }

  /** With nothing registered, no frame ever subscribes to the confirm key or shows the prompt. */
  lemma NothingRegisteredNeverEngages(t: Targeting, hit: Option<ObjectId>)
    requires Consistent([], t)
    ensures var f := Frame([], Owners([]), t, hit);
            f.1 != Some(SubscribeConfirm) && (f.2 == None || f.2 == Some(Hide)) && f.0.selected == None
  {
  }

  class InteractionManager {
    const interactables: seq<Interactable>
    const self: ListenerId
    var objects: seq<ObjectId>
    var owners: map<ObjectId, nat>
    var state: Targeting

    ghost predicate Valid()
      reads this
    {
      objects == Targets(interactables) && owners == Owners(interactables) && Consistent(interactables, state)
    }

    /** Registers every object of every interactable and subscribes to the frame scheduler. */
    constructor (interactables: seq<Interactable>, self: ListenerId,
                 loop: Scheduler.RenderingLoopManager, updatable: UpdatableId)
      modifies loop
      ensures Valid() && state == Idle
      ensures this.interactables == interactables && this.self == self
      ensures loop.subscribers == old(loop.subscribers) + {updatable}
      ensures loop.State() == old(loop.State())
    {
      this.interactables := interactables;
      this.self := self;
      var objs, own := BuildTargets(interactables);
      objects := objs;
      owners := own;
      state := Idle;
      new;
      loop.Subscribe(updatable);
    }

    /** `showPrompt`: set the message and make the prompt visible. */
    method ShowPrompt(text: string)
      modifies this`state
      ensures state == old(state).(promptVisible := true, promptText := PromptPrefix + text)
    {
      state := state.(promptVisible := true, promptText := PromptPrefix + text);
    }

    method HidePrompt()
      modifies this`state
      ensures state == old(state).(promptVisible := false)
    {
      state := state.(promptVisible := false);
    }

    /** `update`: one frame, given the nearest hit of the ray. */
    method Update(kb: Keyboard.KeyboardManager, hit: Option<ObjectId>)
      returns (prompt: Option<PromptOp>)
      requires Valid()
      modifies this`state, kb
      ensures Valid()
      ensures var f := Frame(interactables, owners, old(state), hit);
              && state == f.0 && prompt == f.2
              && kb.listeners == (match f.1
                                  case None => old(kb.listeners)
                                  case Some(SubscribeConfirm) => old(kb.listeners)[self := Keyboard.RegistrationFor([ConfirmKey], false)]
                                  case Some(UnsubscribeAll) => old(kb.listeners) - {self})
      ensures kb.pressed == old(kb.pressed)
    {
      var interactable := HitOwner(owners, hit);
      ghost var f := Frame(interactables, owners, state, hit);
      if interactable.Some? {
        if !state.listening {
          kb.Subscribe(self, [ConfirmKey], false);
          state := state.(listening := true);
        }
        if state.selected != interactable {
          state := state.(selected := interactable);
          ShowPrompt(interactables[interactable.value].promptText);
          prompt := Some(Show(PromptPrefix + interactables[interactable.value].promptText));
        } else {
          prompt := None;
        }
      } else {
        if state.listening {
          kb.Unsubscribe(self);
          state := state.(listening := false);
        }
        state := state.(selected := None);
        HidePrompt();
        prompt := Some(Hide);
      }
      FrameKeepsConsistent(interactables, owners, old(state), hit);
    }

    /** `onKeyDown`: only the confirm key counts; it activates the selection, if any. */
    method OnKeyDown(code: string) returns (activated: Option<nat>)
      ensures code != ConfirmKey ==> activated == None
      ensures code == ConfirmKey ==> activated == state.selected
    {
      if code != ConfirmKey {
        return None;
      }
      activated := state.selected;
    }
  }
}
