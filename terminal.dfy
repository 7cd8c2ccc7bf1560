/**
 * The in-world computer: an interactable whose activation mounts the
 * terminal UI and stops the frame scheduler, and whose exit (the `KeyX`
 * key) unmounts it and starts the scheduler again.
 */
module Terminal {
  import opened Common
  import Keyboard
  import Scheduler

  const ExitKey: string := "KeyX"

  /** The text the targeting prompt shows for the computer. */
  function PromptText(): (text: string)
    ensures text == "Use Computer"
  {
    "Use Computer"
  }

  /** The computer's UI flag together with the scheduler's control state. */
  datatype Session = Session(mounted: bool, loop: Scheduler.LoopState)

  /** `onInteract` over the source's own `stop`, which leaves the requested frame pending. */
  function InteractAsWritten(t: Session): (r: Session)
    ensures r.mounted && !r.loop.started
    ensures r.loop.pendingFrames == t.loop.pendingFrames && r.loop.clockStarts == t.loop.clockStarts
  {
    Session(true, Scheduler.StopAsWritten(t.loop))
  }

  /** `onExit`: unmount and start the scheduler. */
  function Exit(t: Session): (r: Session)
    ensures !r.mounted && r.loop.started
    ensures r.loop == Scheduler.StartStep(t.loop)
  {
    Session(false, Scheduler.StartStep(t.loop))
  }

  /**
   * Interacting with the computer and leaving it again before the pending
   * frame arrives, with the source's `stop`: the scheduler ends up with two
   * frame chains, so from then on every subscriber is updated twice a frame.
   */
  lemma {:induction false} InteractExitAsWrittenDoublesChain(t: Session)
    requires !t.mounted && Scheduler.SingleChain(t.loop) && t.loop.started
    ensures var r := Exit(InteractAsWritten(t));
            && !r.mounted && r.loop.started
            && r.loop.pendingFrames == 2 && !Scheduler.SingleChain(r.loop)
  {
    Scheduler.StopStartAsWrittenDoublesChain(t.loop);
  }

  class Computer {
    const objects: seq<nat>
    /** Whether the terminal UI's view is attached to the page. */
    var mounted: bool
    /** Warnings logged for keys the computer did not subscribe to. */
    var warnings: nat

    /** Subscribes to the exit key, press only: the computer never receives key-up calls. */
    constructor (objects: seq<nat>, kb: Keyboard.KeyboardManager, self: ListenerId)
      modifies kb
      ensures this.objects == objects && !mounted && warnings == 0
      ensures kb.listeners == old(kb.listeners)[self := Keyboard.RegistrationFor([ExitKey], false)]
      ensures kb.listeners[self].upKeys == {}
      ensures kb.pressed == old(kb.pressed)
    {
      this.objects := objects;
      mounted := false;
      warnings := 0;
      new;
      kb.Subscribe(self, [ExitKey], false);
    }

    /** `onInteract`: mount the UI and stop the scheduler. */
    method OnInteract(loop: Scheduler.RenderingLoopManager)
      requires loop.Valid()
      modifies this`mounted, loop
      ensures mounted && !loop.started && loop.Valid()
      ensures loop.State() == Scheduler.StopCancelling(old(loop.State()))
      ensures loop.subscribers == old(loop.subscribers)
    {
      mounted := true;
      loop.Stop();
    }

    /** `onExit`: unmount the UI and start the scheduler, which runs a first tick if it was stopped. */
    method OnExit(loop: Scheduler.RenderingLoopManager, sinceStart: real) returns (tick: Option<Scheduler.Tick>)
      requires loop.Valid()
      modifies this`mounted, loop
      ensures !mounted && loop.started && loop.Valid()
      ensures loop.State() == Scheduler.StartStep(old(loop.State()))
      ensures loop.subscribers == old(loop.subscribers)
      ensures tick == if old(loop.started) then None else Some(Scheduler.Tick(Scheduler.ClampDelta(sinceStart), loop.subscribers))
    {
      mounted := false;
      tick := loop.Start(sinceStart);
    }

    /** `onKeyDown`: every key exits; a key other than `KeyX` also logs a warning. */
    method OnKeyDown(code: string, loop: Scheduler.RenderingLoopManager, sinceStart: real)
      returns (tick: Option<Scheduler.Tick>)
      requires loop.Valid()
      modifies this`mounted, this`warnings, loop
      ensures !mounted && loop.started && loop.Valid()
      ensures warnings == old(warnings) + (if code == ExitKey then 0 else 1)
      ensures loop.State() == Scheduler.StartStep(old(loop.State()))
      ensures loop.subscribers == old(loop.subscribers)
    {
      if code != ExitKey {
        warnings := warnings + 1;
      }
      tick := OnExit(loop, sinceStart);
    }
  }
}
