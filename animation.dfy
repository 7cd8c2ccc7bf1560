/**
 * The avatar's animation selector: a table from clip name to the clip's
 * action, the action currently playing (cross-faded when it changes), and the
 * mixer's time scale used to pause and resume.
 *
 * An action is identified by the index of its clip in the clip list.
 */
module Animation {
  import opened Common
  import Scheduler

  /** The default cross-fade duration, in seconds. */
  const DefaultFade: real := 0.3

  /** The table the constructor builds: each name to its clip, a later clip with the same name winning. */
  function ActionTable(clips: seq<string>): (table: map<string, nat>)
    ensures forall name :: name in table <==> name in clips
    ensures forall name :: name in table ==> table[name] < |clips| && clips[table[name]] == name
    decreases |clips|
  {
    if clips == [] then map[]
    else
      var init := clips[..|clips| - 1];
      ActionTable(init)[clips[|clips| - 1] := |clips| - 1]
  }

  /** Which clip a name selects: the last clip carrying that name. */
  lemma {:induction false} ActionTableLastWins(clips: seq<string>, name: string, i: nat)
    requires i < |clips| && clips[i] == name
    ensures name in ActionTable(clips) && ActionTable(clips)[name] >= i
    decreases |clips|
  {
    if i < |clips| - 1 {
      ActionTableLastWins(clips[..|clips| - 1], name, i);
    }
  }

  /** What one `playAnimation` call did to the mixer: the action faded out and the action started. */
  datatype Crossfade = Crossfade(fadedOut: Option<nat>, fadedIn: Option<nat>)

  /**
   * `playAnimation` as a transition on the current action: an unknown name
   * and the current name change nothing; any other name fades out the
   * current action (if any) and makes the named one current.
   */
  function Play(table: map<string, nat>, current: Option<nat>, name: string): (r: (Option<nat>, Crossfade))
    ensures name !in table ==> r == (current, Crossfade(None, None))
    ensures name in table && current == Some(table[name]) ==> r == (current, Crossfade(None, None))
    ensures name in table && current != Some(table[name]) ==> r == (Some(table[name]), Crossfade(current, Some(table[name])))
  {
    if name !in table then (current, Crossfade(None, None))
    else if current == Some(table[name]) then (current, Crossfade(None, None))
    else (Some(table[name]), Crossfade(current, Some(table[name])))
  }

  /** Playing the same name twice in a row: the second call is a no-op. */
  lemma PlayTwiceIsNoop(table: map<string, nat>, current: Option<nat>, name: string)
    ensures Play(table, Play(table, current, name).0, name).0 == Play(table, current, name).0
    ensures Play(table, Play(table, current, name).0, name).1 == Crossfade(None, None)
  {
  }

  class AnimationManager {
    const clips: seq<string>
    const fadeDuration: real
    const id: UpdatableId
    var actions: map<string, nat>
    var current: Option<nat>
    var timeScale: real
    var stopped: bool

    ghost predicate Valid()
      reads this
    {
      && actions == ActionTable(clips)
      && (current.Some? ==> current.value < |clips| && clips[current.value] in actions
                            && actions[clips[current.value]] == current.value)
    }

    /** Builds the action table and subscribes to the frame scheduler. */
    constructor (clips: seq<string>, loop: Scheduler.RenderingLoopManager, id: UpdatableId)
      modifies loop
      ensures Valid()
      ensures this.clips == clips && this.id == id && fadeDuration == DefaultFade
      ensures current == None && timeScale == 1.0 && !stopped
      ensures loop.subscribers == old(loop.subscribers) + {id}
      ensures loop.State() == old(loop.State())
    {
      this.clips := clips;
      this.id := id;
      fadeDuration := DefaultFade;
      var table := BuildActionTable(clips);
      actions := table;
      current := None;
      timeScale := 1.0;
      stopped := false;
      new;
      loop.Subscribe(id);
    }

    /** `playAnimation`: returns what was faded out and in. */
    method PlayAnimation(name: string) returns (fade: Crossfade)
      requires Valid()
      modifies this`current
      ensures Valid()
      ensures (current, fade) == Play(actions, old(current), name)
    {
      if name !in actions {
        return Crossfade(None, None);
      }
      var next := actions[name];
      if current == Some(next) {
        return Crossfade(None, None);
      }
      fade := Crossfade(current, Some(next));
      current := Some(next);
    }

    /** `currentAnimation`: the current clip's name, or none before the first successful play. */
    function CurrentAnimation(): (name: Option<string>)
      reads this
      requires Valid()
      ensures current == None <==> name == None
      ensures name.Some? ==> name.value in actions && actions[name.value] == current.value
    {
      if current.None? then None else Some(clips[current.value])
    }

    method Pause()
      modifies this`timeScale
      ensures timeScale == 0.0
    {
      timeScale := 0.0;
    }

    method Resume()
      modifies this`timeScale
      ensures timeScale == 1.0
    {
      timeScale := 1.0;
    }

    /** `dispose`: leave the frame scheduler and stop every action. */
    method Dispose(loop: Scheduler.RenderingLoopManager)
      modifies this`stopped, loop
      ensures stopped
      ensures loop.subscribers == old(loop.subscribers) - {id}
      ensures loop.State() == old(loop.State())
    {
      loop.Unsubscribe(id);
      stopped := true;
    }
  }

  /** The constructor's `forEach` over the clips, writing each name's entry in turn. */
  method BuildActionTable(clips: seq<string>) returns (table: map<string, nat>)
    ensures table == ActionTable(clips)
  {
    table := map[];
    var i := 0;
    while i < |clips|
      invariant 0 <= i <= |clips|
      invariant table == ActionTable(clips[..i])
    {
      assert clips[..i + 1][..i] == clips[..i];
      table := table[clips[i] := i];
      i := i + 1;
    }
    assert clips[..i] == clips;
  }
}
