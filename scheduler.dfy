/**
 * The frame scheduler: a Stopped/Running flag, a set of subscribers that are
 * updated once per animation frame, and the per-frame delta, clamped so that
 * a stall (a background tab) does not hand a huge step to the simulation.
 *
 * The browser's frame callbacks and the clock are not modelled as such:
 * `pendingFrames` counts the frame callbacks that have been requested and
 * not yet run, and the elapsed time is an input of each call.
 */
module Scheduler {
  import opened Common

  /** The largest delta ever handed to a subscriber. */
  const MaxDelta: real := 0.1

  /** The delta of one tick: the clock's delta, capped at `MaxDelta`. */
  function ClampDelta(clockDelta: real): (d: real)
    ensures d <= MaxDelta
    ensures clockDelta >= 0.0 ==> d >= 0.0
    ensures clockDelta <= MaxDelta ==> d == clockDelta
    ensures clockDelta >= MaxDelta ==> d == MaxDelta
  {
    Min(clockDelta, MaxDelta)
  }

  /** One run of the loop body: the delta and the subscribers whose `update` is called with it. */
  datatype Tick = Tick(delta: real, updated: set<UpdatableId>)

  /** The scheduler's control state, apart from its subscribers. */
  datatype LoopState = LoopState(started: bool, clockStarts: nat, pendingFrames: nat)

  /** Exactly one chain of frame callbacks is alive while running, none while stopped. */
  predicate SingleChain(s: LoopState)
  {
    s.pendingFrames == if s.started then 1 else 0
  }

  /** `start`: a no-op when running; otherwise run, restart the clock and run the loop body, which requests the next frame. */
  function StartStep(s: LoopState): (r: LoopState)
    ensures s.started ==> r == s
    ensures !s.started ==> r.started && r.clockStarts == s.clockStarts + 1 && r.pendingFrames == s.pendingFrames + 1
  {
    if s.started then s
    else LoopState(true, s.clockStarts + 1, s.pendingFrames + 1)
  }

  /** `stop` as the source writes it: clear the flag; a frame already requested stays requested. */
  function StopAsWritten(s: LoopState): (r: LoopState)
    ensures !r.started && r.clockStarts == s.clockStarts && r.pendingFrames == s.pendingFrames
  {
    s.(started := false)
  }

  /** `stop` that also cancels the frame it requested last. */
  function StopCancelling(s: LoopState): (r: LoopState)
    ensures !r.started && r.clockStarts == s.clockStarts && r.pendingFrames == 0
  {
    LoopState(false, s.clockStarts, 0)
  }

  /** One requested frame callback runs: when stopped it ends its chain, when running it requests the next frame. */
  function FrameStep(s: LoopState): (r: LoopState)
    requires s.pendingFrames > 0
    ensures r.started == s.started && r.clockStarts == s.clockStarts
    ensures r.pendingFrames == if s.started then s.pendingFrames else s.pendingFrames - 1
  {
    if s.started then s else s.(pendingFrames := s.pendingFrames - 1)
  }

  /** Calls on the scheduler, as the rest of the program makes them. */
  datatype Call = StartCall | StopCall | FrameCall

  /** The control state after a run of calls, with the cancelling `stop`; a frame with nothing requested does not happen. */
  function Run(s: LoopState, calls: seq<Call>): LoopState
    decreases |calls|
  {
    if calls == [] then s
    else
      var next := match calls[0]
        case StartCall => StartStep(s)
        case StopCall => StopCancelling(s)
        case FrameCall => if s.pendingFrames > 0 then FrameStep(s) else s;
      Run(next, calls[1..])
  }

  class RenderingLoopManager {
    var subscribers: set<UpdatableId>
    var started: bool
    var clockStarts: nat
    var pendingFrames: nat

    function State(): LoopState
      reads this
    {
      LoopState(started, clockStarts, pendingFrames)
    }

    ghost predicate Valid()
      reads this
    {
      SingleChain(State())
    }

    constructor ()
      ensures Valid()
      ensures subscribers == {} && !started && clockStarts == 0 && pendingFrames == 0
    {
      subscribers := {};
      started := false;
      clockStarts := 0;
      pendingFrames := 0;
    }

    /** Set insertion: subscribing twice leaves one entry. */
    method Subscribe(u: UpdatableId)
      modifies this
      ensures subscribers == old(subscribers) + {u}
      ensures State() == old(State())
    {
      subscribers := subscribers + {u};
    }

    method Unsubscribe(u: UpdatableId)
      modifies this
      ensures subscribers == old(subscribers) - {u}
      ensures State() == old(State())
    {
      subscribers := subscribers - {u};
    }

    /**
     * `start`. From Stopped it restarts the clock and runs the loop body at
     * once; `sinceStart` is what the restarted clock reports to that first
     * tick. While Running it does nothing.
     */
    method Start(sinceStart: real) returns (tick: Option<Tick>)
      requires Valid()
      modifies this
      ensures Valid()
      ensures State() == StartStep(old(State())) && subscribers == old(subscribers)
      ensures old(started) ==> tick == None
      ensures !old(started) ==> tick == Some(Tick(ClampDelta(sinceStart), subscribers))
    {
      if started {
        return None;
      }
      started := true;
      clockStarts := clockStarts + 1;
      tick := Loop(sinceStart);
    }

    /** `stop`, cancelling the frame callback it requested last (see the findings of the model). */
    method Stop()
      requires Valid()
      modifies this
      ensures Valid()
      ensures State() == StopCancelling(old(State())) && subscribers == old(subscribers)
    {
      started := false;
      pendingFrames := 0;
    }

    /**
     * A requested frame arrives and the loop body runs with the clock's delta.
     * Under `Valid()` a pending frame means the scheduler is started, so in
     * the class the frame always ticks; the stopped case, where the source's
     * frame ends its chain, only arises with `StopAsWritten`.
     */
    method Frame(clockDelta: real) returns (tick: Option<Tick>)
      requires Valid() && pendingFrames > 0
      modifies this
      ensures Valid()
      ensures State() == FrameStep(old(State())) && subscribers == old(subscribers)
      ensures tick == if started then Some(Tick(ClampDelta(clockDelta), subscribers)) else None
    {
      pendingFrames := pendingFrames - 1;
      tick := Loop(clockDelta);
    }

    /** The loop body: when stopped it does nothing; when running it updates every subscriber and requests the next frame. */
    method Loop(clockDelta: real) returns (tick: Option<Tick>)
      modifies this`pendingFrames
      ensures !started ==> tick == None && pendingFrames == old(pendingFrames)
      ensures started ==> tick == Some(Tick(ClampDelta(clockDelta), subscribers)) && pendingFrames == old(pendingFrames) + 1
      ensures tick.Some? ==> tick.value.delta <= MaxDelta
    {
      if !started {
        return None;
      }
      var delta := ClampDelta(clockDelta);
      var updated := Notify(delta);
      pendingFrames := pendingFrames + 1;
      tick := Some(Tick(delta, updated));
    }

    /** The `forEach` over the subscribers: each current subscriber is updated once, with the same delta. */
    method Notify(delta: real) returns (updated: set<UpdatableId>)
      ensures updated == subscribers
    {
      updated := {};
      var todo := subscribers;
      while todo != {}
        invariant todo <= subscribers
        invariant updated == subscribers - todo
        decreases todo
      {
        var u :| u in todo;
        updated := updated + {u};
        todo := todo - {u};
      }
    }
  }

  // -----------------------------------------------------------------------
  // Properties of the control state.

  /** `start` twice in a row restarts the clock once and leaves one chain of frames. */
  lemma StartIdempotent(s: LoopState)
    requires SingleChain(s)
    ensures StartStep(StartStep(s)) == StartStep(s)
    ensures StartStep(StartStep(s)).clockStarts <= s.clockStarts + 1
    ensures StartStep(StartStep(s)).pendingFrames == 1
  {
  }

  /** A frame that arrives after a stop does nothing and requests no further frame. */
  lemma FrameAfterStopEndsChain(s: LoopState)
    requires s.pendingFrames > 0 && !s.started
    ensures FrameStep(s).pendingFrames == s.pendingFrames - 1 && !FrameStep(s).started
  {
  }

  /**
   * With the cancelling `stop`, any interleaving of `start`, `stop` and
   * frames keeps exactly one chain of frame callbacks while running and none
   * while stopped.
   */
  lemma {:induction false} RunKeepsSingleChain(s: LoopState, calls: seq<Call>)
    requires SingleChain(s)
    ensures SingleChain(Run(s, calls))
    decreases |calls|
  {
    if calls != [] {
      var next := match calls[0]
        case StartCall => StartStep(s)
        case StopCall => StopCancelling(s)
        case FrameCall => if s.pendingFrames > 0 then FrameStep(s) else s;
      RunKeepsSingleChain(next, calls[1..]);
    }
  }

  /**
   * The source's `stop` does not cancel the frame already requested, so
   * `stop` then `start` before that frame arrives leaves two chains of frame
   * callbacks: from then on every subscriber is updated twice per frame.
   */
  lemma StopStartAsWrittenDoublesChain(s: LoopState)
    requires s.started && SingleChain(s)
    ensures StartStep(StopAsWritten(s)).started
    ensures StartStep(StopAsWritten(s)).pendingFrames == 2
    ensures !SingleChain(StartStep(StopAsWritten(s)))
    ensures FrameStep(StartStep(StopAsWritten(s))).pendingFrames == 2
  {
  }

  /** The same calls with the cancelling `stop` leave one chain. */
  lemma StopStartCancellingKeepsOneChain(s: LoopState)
    requires s.started && SingleChain(s)
    ensures StartStep(StopCancelling(s)).started
    ensures StartStep(StopCancelling(s)).pendingFrames == 1
  {
  }
}
