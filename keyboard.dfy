/**
 * The keyboard router: an edge-triggered distributor of key events. It keeps
 * the set of held key codes and, per listener, the key codes the listener
 * wants to hear about on press and on release. A press of a key that is
 * already held (browser key repeat) is swallowed.
 */
module Keyboard {
  import opened Common

  /** One listener's interest: key codes to report on press and on release. */
  datatype Registration = Registration(downKeys: set<string>, upKeys: set<string>)

  /** A raw key event as the window delivers it. */
  datatype KeyEvent = Down(code: string) | Up(code: string)

  /** The record `subscribe` stores: the release set is the press set, or empty. */
  function RegistrationFor(keys: seq<string>, considerKeyUp: bool): (r: Registration)
    ensures forall k :: k in r.downKeys <==> k in keys
    ensures considerKeyUp ==> r.upKeys == r.downKeys
    ensures !considerKeyUp ==> r.upKeys == {}
  {
    var keySet := set k | k in keys;
    Registration(keySet, if considerKeyUp then keySet else {})
  }

  function KeysOf(r: Registration, onPress: bool): set<string>
  {
    if onPress then r.downKeys else r.upKeys
  }

  /** The listeners that hear about `code` on press (`onPress`) or on release. */
  ghost function Interested(listeners: map<ListenerId, Registration>, code: string, onPress: bool): set<ListenerId>
  {
    set l | l in listeners && code in KeysOf(listeners[l], onPress)
  }

  /**
   * A press as a transition on the held set: the new held set and the
   * listeners whose `onKeyDown` is called.
   */
  ghost function Press(pressed: set<string>, listeners: map<ListenerId, Registration>, code: string)
    : (r: (set<string>, set<ListenerId>))
    ensures code in pressed ==> r.0 == pressed && r.1 == {}
    ensures code !in pressed ==> r.0 == pressed + {code}
    ensures code !in pressed ==> forall l :: l in r.1 <==> l in listeners && code in listeners[l].downKeys
  {
    if code in pressed then (pressed, {})
    else (pressed + {code}, Interested(listeners, code, true))
  }

  /**
   * A release as a transition on the held set: the key is no longer held
   * (whether or not it was) and the listeners whose `onKeyUp` is called.
   */
  ghost function Release(pressed: set<string>, listeners: map<ListenerId, Registration>, code: string)
    : (r: (set<string>, set<ListenerId>))
    ensures r.0 == pressed - {code} && code !in r.0
    ensures forall l :: l in r.1 <==> l in listeners && code in listeners[l].upKeys
  {
    (pressed - {code}, Interested(listeners, code, false))
  }

  /** How many `onKeyDown` and `onKeyUp` calls listener `l` receives over a run of events. */
  ghost function Deliveries(listeners: map<ListenerId, Registration>, pressed: set<string>,
                            events: seq<KeyEvent>, l: ListenerId): (counts: (nat, nat))
    decreases |events|
  {
    if events == [] then (0, 0)
    else
      var step := match events[0]
        case Down(c) => Press(pressed, listeners, c)
        case Up(c) => Release(pressed, listeners, c);
      var rest := Deliveries(listeners, step.0, events[1..], l);
      var hit := if l in step.1 then 1 else 0;
      if events[0].Down? then (rest.0 + hit, rest.1) else (rest.0, rest.1 + hit)
  }

  /** `n` copies of the same event: a key held down produces repeated press events. */
  function Repeat(e: KeyEvent, n: nat): (es: seq<KeyEvent>)
    ensures |es| == n && forall i :: 0 <= i < n ==> es[i] == e
  {
    if n == 0 then [] else [e] + Repeat(e, n - 1)
  }

  class KeyboardManager {
    var listeners: map<ListenerId, Registration>
    var pressed: set<string>

    constructor ()
      ensures listeners == map[] && pressed == {}
    {
      listeners := map[];
      pressed := {};
    }

    /** Replaces the listener's whole record. */
    method Subscribe(l: ListenerId, keys: seq<string>, considerKeyUp: bool)
      modifies this
      ensures listeners == old(listeners)[l := RegistrationFor(keys, considerKeyUp)]
      ensures pressed == old(pressed)
    {
      listeners := listeners[l := RegistrationFor(keys, considerKeyUp)];
    }

    /** Drops the listener's record, if it has one. */
    method Unsubscribe(l: ListenerId)
      modifies this
      ensures listeners == old(listeners) - {l} && l !in listeners
      ensures pressed == old(pressed)
    {
      listeners := listeners - {l};
    }

    /** The `forEach` over the registrations: who is interested in `code`. */
    method Dispatch(code: string, onPress: bool) returns (notified: set<ListenerId>)
      ensures notified == Interested(listeners, code, onPress)
      ensures forall l :: l in notified <==> l in listeners && code in KeysOf(listeners[l], onPress)
    {
      notified := {};
      var todo := listeners.Keys;
      while todo != {}
        invariant todo <= listeners.Keys
        invariant forall l :: l in notified <==> l in listeners && l !in todo && code in KeysOf(listeners[l], onPress)
        decreases todo
      {
        var l :| l in todo;
        if code in KeysOf(listeners[l], onPress) {
          notified := notified + {l};
        }
        todo := todo - {l};
      }
      assert notified == Interested(listeners, code, onPress);
    }

    /** A key-down event: returns the listeners whose `onKeyDown` is called. */
    method NotifyKeyDown(code: string) returns (notified: set<ListenerId>)
      modifies this
      ensures listeners == old(listeners)
      ensures (pressed, notified) == Press(old(pressed), listeners, code)
    {
      if code in pressed {
        return {};
      }
      pressed := pressed + {code};
      notified := Dispatch(code, true);
    }

    /** A key-up event: returns the listeners whose `onKeyUp` is called. */
    method NotifyKeyUp(code: string) returns (notified: set<ListenerId>)
      modifies this
      ensures listeners == old(listeners)
      ensures (pressed, notified) == Release(old(pressed), listeners, code)
    {
      pressed := pressed - {code};
      notified := Dispatch(code, false);
    }
  }

  // -----------------------------------------------------------------------
  // Properties of event runs.

  /** After `unsubscribe`, a listener hears nothing, on press or on release. */
  lemma {:induction false} UnsubscribedHearsNothing(listeners: map<ListenerId, Registration>,
                                                    pressed: set<string>, events: seq<KeyEvent>, l: ListenerId)
    ensures Deliveries(listeners - {l}, pressed, events, l) == (0, 0)
    decreases |events|
  {
    if events != [] {
      var step := match events[0]
        case Down(c) => Press(pressed, listeners - {l}, c)
        case Up(c) => Release(pressed, listeners - {l}, c);
      UnsubscribedHearsNothing(listeners, step.0, events[1..], l);
    }
  }

  /** Key repeat on a held key delivers nothing more. */
  lemma {:induction false} RepeatsSwallowed(listeners: map<ListenerId, Registration>, pressed: set<string>,
                                            c: string, n: nat, tail: seq<KeyEvent>, l: ListenerId)
    requires c in pressed
    ensures Deliveries(listeners, pressed, Repeat(Down(c), n) + tail, l) == Deliveries(listeners, pressed, tail, l)
  {
    if n > 0 {
      var es := Repeat(Down(c), n) + tail;
      assert es[0] == Down(c);
      assert es[1..] == Repeat(Down(c), n - 1) + tail;
      assert Press(pressed, listeners, c) == (pressed, {});
      assert Deliveries(listeners, pressed, es, l) == Deliveries(listeners, pressed, es[1..], l);
      RepeatsSwallowed(listeners, pressed, c, n - 1, tail, l);
    } else {
      assert Repeat(Down(c), n) + tail == tail;
    }
  }

  /**
   * One physical press-and-hold of a key not held before (a press followed by
   * `n` repeats, then a release) gives an interested listener exactly one
   * `onKeyDown`, and one `onKeyUp` only if it asked for releases.
   */
  lemma PressAndHold(listeners: map<ListenerId, Registration>, pressed: set<string>,
                     c: string, n: nat, l: ListenerId)
    requires c !in pressed
    ensures Deliveries(listeners, pressed, Repeat(Down(c), n + 1) + [Up(c)], l)
         == ((if l in listeners && c in listeners[l].downKeys then 1 else 0),
             (if l in listeners && c in listeners[l].upKeys then 1 else 0))
  {
    var es := Repeat(Down(c), n + 1) + [Up(c)];
    var held := pressed + {c};
    assert es[0] == Down(c);
    assert es[1..] == Repeat(Down(c), n) + [Up(c)];
    RepeatsSwallowed(listeners, held, c, n, [Up(c)], l);
    assert [Up(c)][1..] == [];
  }

  /** A listener subscribed press-only never receives `onKeyUp`. */
  lemma PressOnlyNeverReleased(listeners: map<ListenerId, Registration>, pressed: set<string>,
                               c: string, n: nat, l: ListenerId, keys: seq<string>)
    requires c !in pressed
    ensures Deliveries(listeners[l := RegistrationFor(keys, false)], pressed, Repeat(Down(c), n + 1) + [Up(c)], l).1 == 0
  {
    PressAndHold(listeners[l := RegistrationFor(keys, false)], pressed, c, n, l);
  }

  /** Press, release, press gives two `onKeyDown` calls; press, press gives one. */
  lemma PressReleasePress(listeners: map<ListenerId, Registration>, pressed: set<string>, c: string, l: ListenerId)
    requires c !in pressed && l in listeners && c in listeners[l].downKeys
    ensures Deliveries(listeners, pressed, [Down(c), Up(c), Down(c)], l).0 == 2
    ensures Deliveries(listeners, pressed, [Down(c), Down(c)], l).0 == 1
  {
    var held := pressed + {c};
    assert l in Press(pressed, listeners, c).1;
    assert [Down(c)][1..] == [];
    assert Deliveries(listeners, pressed, [Down(c)], l).0 == 1;
    assert Deliveries(listeners, held, [Down(c)], l).0 == 0;
    assert [Up(c), Down(c)][1..] == [Down(c)];
    assert Deliveries(listeners, held, [Up(c), Down(c)], l).0 == 1;
    assert [Down(c), Up(c), Down(c)][1..] == [Up(c), Down(c)];
    assert [Down(c), Down(c)][1..] == [Down(c)];
  }
}
