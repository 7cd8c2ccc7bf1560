/**
 * The key-binding table of the avatar: which raw key codes stand for which
 * semantic movement action, the reverse lookup built from it, the flattened
 * list of every control key, and the speed constants.
 */
module CharacterKeys {

  /** The six semantic actions a key can stand for. */
  datatype KeyAction = Forward | Backward | Left | Right | Sprint | Jump

  /** The actions in the order the table declares them (the order of `Object.entries`). */
  const Actions: seq<KeyAction> := [Forward, Backward, Left, Right, Sprint, Jump]

  /** The raw key codes bound to each action. */
  function ControlKeys(a: KeyAction): (keys: seq<string>)
    ensures |keys| == if a == Jump then 1 else 2
    ensures forall i, j :: 0 <= i < j < |keys| ==> keys[i] != keys[j]
  {
    match a
    case Forward => ["KeyW", "ArrowUp"]
    case Backward => ["KeyS", "ArrowDown"]
    case Left => ["KeyA", "ArrowLeft"]
    case Right => ["KeyD", "ArrowRight"]
    case Sprint => ["ShiftLeft", "ShiftRight"]
    case Jump => ["Space"]
  }

  /** `flatMap` of the table into `[key, action]` pairs, action by action. */
  function Entries(actions: seq<KeyAction>): seq<(string, KeyAction)>
  {
    if actions == [] then []
    else PairsOf(ControlKeys(actions[0]), actions[0]) + Entries(actions[1..])
  }

  /** The `[key, action]` pairs of one action's key list, in list order. */
  function PairsOf(keys: seq<string>, a: KeyAction): (ps: seq<(string, KeyAction)>)
    ensures |ps| == |keys|
    ensures forall i :: 0 <= i < |ps| ==> ps[i] == (keys[i], a)
  {
    if keys == [] then [] else [(keys[0], a)] + PairsOf(keys[1..], a)
  }

  /** `Object.fromEntries`: entries are written in order, so a later key overwrites an earlier one. */
  function FromEntries(es: seq<(string, KeyAction)>): (m: map<string, KeyAction>)
    ensures forall k :: k in m ==> (k, m[k]) in es
  {
    if es == [] then map[]
    else FromEntries(es[..|es| - 1])[es[|es| - 1].0 := es[|es| - 1].1]
  }

  /** The reverse lookup from raw key code to action. */
  const KeyToAction: map<string, KeyAction> := FromEntries(Entries(Actions))

  /** `flatMap` of the table's key lists, in table order. */
  function Flatten(actions: seq<KeyAction>): (keys: seq<string>)
    ensures forall a, k :: a in actions && k in ControlKeys(a) ==> k in keys
  {
    if actions == [] then []
    else ControlKeys(actions[0]) + Flatten(actions[1..])
  }

  /** Every control key, the list the avatar subscribes to. */
  const AllControlKeys: seq<string> := Flatten(Actions)

  /** Movement speeds, in units per second. */
  const WalkSpeed: real := 8.0
  const RunSpeed: real := 20.0
  const JumpSpeed: real := 4.0

  // ---------------------------------------------------------------------
  // General facts about the two table builders.

  /** The domain of a map built from entries is the set of their keys. */
  lemma {:induction false} FromEntriesDomain(es: seq<(string, KeyAction)>)
    ensures FromEntries(es).Keys == set e | e in es :: e.0
  {
    if es != [] {
      var init := es[..|es| - 1];
      FromEntriesDomain(init);
      assert es == init + [es[|es| - 1]];
      assert forall e :: e in es <==> e in init || e == es[|es| - 1];
    }
  }

  /** An entry whose key is not repeated later in the list survives into the map. */
  lemma {:induction false} FromEntriesLookup(es: seq<(string, KeyAction)>, i: nat)
    requires i < |es|
    requires forall j :: i < j < |es| ==> es[j].0 != es[i].0
    ensures es[i].0 in FromEntries(es) && FromEntries(es)[es[i].0] == es[i].1
  {
    if i < |es| - 1 {
      var init := es[..|es| - 1];
      FromEntriesLookup(init, i);
    }
  }

  /** The entries list carries exactly the keys of the flattened key list. */
  lemma {:induction false} EntriesKeys(actions: seq<KeyAction>)
    ensures |Entries(actions)| == |Flatten(actions)|
    ensures forall i :: 0 <= i < |Flatten(actions)| ==> Entries(actions)[i].0 == Flatten(actions)[i]
  {
    if actions != [] {
      EntriesKeys(actions[1..]);
    }
  }

  /** Every pair names a key that is listed under its own action. */
  lemma {:induction false} EntriesSound(actions: seq<KeyAction>)
    ensures forall i :: 0 <= i < |Entries(actions)| ==>
              Entries(actions)[i].0 in ControlKeys(Entries(actions)[i].1)
  {
    if actions != [] {
      EntriesSound(actions[1..]);
      var head := PairsOf(ControlKeys(actions[0]), actions[0]);
      assert Entries(actions) == head + Entries(actions[1..]);
    }
  }

  // ---------------------------------------------------------------------
  // Facts about the concrete table.

  /** No key code is bound to two different actions. */
  lemma KeyListsDisjoint(a: KeyAction, b: KeyAction, k: string)
    requires a != b && k in ControlKeys(a)
    ensures k !in ControlKeys(b)
  {
  }

  /** The flattened control-key list is the six key lists one after another. */
  lemma AllControlKeysIsConcatenation()
    ensures AllControlKeys == ControlKeys(Forward) + ControlKeys(Backward) + ControlKeys(Left)
                            + ControlKeys(Right) + ControlKeys(Sprint) + ControlKeys(Jump)
    ensures |AllControlKeys| == 11
  {
    assert Actions[1..] == [Backward, Left, Right, Sprint, Jump];
    assert Actions[1..][1..] == [Left, Right, Sprint, Jump];
    assert Actions[1..][1..][1..] == [Right, Sprint, Jump];
    assert Actions[1..][1..][1..][1..] == [Sprint, Jump];
    assert Actions[1..][1..][1..][1..][1..] == [Jump];
    assert Actions[1..][1..][1..][1..][1..][1..] == [];
  }

  /** One action's pairs come before the rest. */
  lemma EntriesCons(a: KeyAction, rest: seq<KeyAction>)
    ensures Entries([a] + rest) == PairsOf(ControlKeys(a), a) + Entries(rest)
  {
    assert ([a] + rest)[1..] == rest;
  }

  /** The pairs of a two-key action. */
  lemma PairsOfTwo(k1: string, k2: string, a: KeyAction)
    ensures PairsOf([k1, k2], a) == [(k1, a), (k2, a)]
  {
  }

  /** The pairs of the last three actions. */
  lemma EntriesOfLastThree()
    ensures Entries([Right, Sprint, Jump]) == [("KeyD", Right), ("ArrowRight", Right), ("ShiftLeft", Sprint),
                                               ("ShiftRight", Sprint), ("Space", Jump)]
  {
    EntriesCons(Jump, []);
    assert [Jump] + [] == [Jump];
    assert Entries([Jump]) == [("Space", Jump)];
    EntriesCons(Sprint, [Jump]);
    PairsOfTwo("ShiftLeft", "ShiftRight", Sprint);
    assert [Sprint] + [Jump] == [Sprint, Jump];
    EntriesCons(Right, [Sprint, Jump]);
    PairsOfTwo("KeyD", "ArrowRight", Right);
    assert [Right] + [Sprint, Jump] == [Right, Sprint, Jump];
  }

  /** The pairs the reverse lookup is built from, written out. */
  lemma EntriesValue()
    ensures Entries(Actions) == [("KeyW", Forward), ("ArrowUp", Forward), ("KeyS", Backward),
                                 ("ArrowDown", Backward), ("KeyA", Left), ("ArrowLeft", Left),
                                 ("KeyD", Right), ("ArrowRight", Right), ("ShiftLeft", Sprint),
                                 ("ShiftRight", Sprint), ("Space", Jump)]
  {
    var last := [Right, Sprint, Jump];
    EntriesOfLastThree();
    var tail := Entries(last);
    EntriesCons(Left, last);
    PairsOfTwo("KeyA", "ArrowLeft", Left);
    assert [Left] + last == [Left, Right, Sprint, Jump];
    EntriesCons(Backward, [Left] + last);
    PairsOfTwo("KeyS", "ArrowDown", Backward);
    assert [Backward] + ([Left] + last) == [Backward, Left, Right, Sprint, Jump];
    EntriesCons(Forward, [Backward] + ([Left] + last));
    PairsOfTwo("KeyW", "ArrowUp", Forward);
    assert Actions == [Forward] + ([Backward] + ([Left] + last));
    assert Entries(Actions) == [("KeyW", Forward), ("ArrowUp", Forward)]
                             + ([("KeyS", Backward), ("ArrowDown", Backward)]
                             + ([("KeyA", Left), ("ArrowLeft", Left)] + tail));
  }

  /** Appending one entry writes that one key. */
  lemma FromEntriesSnoc(es: seq<(string, KeyAction)>, e: (string, KeyAction))
    ensures FromEntries(es + [e]) == FromEntries(es)[e.0 := e.1]
  {
    assert (es + [e])[..|es|] == es;
  }

  /** The reverse lookup as a map display. */
  const KeyToActionDisplay: map<string, KeyAction> :=
    map["KeyW" := Forward, "ArrowUp" := Forward, "KeyS" := Backward,
        "ArrowDown" := Backward, "KeyA" := Left, "ArrowLeft" := Left,
        "KeyD" := Right, "ArrowRight" := Right, "ShiftLeft" := Sprint,
        "ShiftRight" := Sprint, "Space" := Jump]

  /** The reverse lookup, written out: eleven keys onto six actions. */
  lemma KeyToActionValue()
    ensures KeyToAction == KeyToActionDisplay
  {
    EntriesValue();
    var e0 := [];
    var e1 := e0 + [("KeyW", Forward)]; FromEntriesSnoc(e0, ("KeyW", Forward));
    var e2 := e1 + [("ArrowUp", Forward)]; FromEntriesSnoc(e1, ("ArrowUp", Forward));
    var e3 := e2 + [("KeyS", Backward)]; FromEntriesSnoc(e2, ("KeyS", Backward));
    var e4 := e3 + [("ArrowDown", Backward)]; FromEntriesSnoc(e3, ("ArrowDown", Backward));
    var e5 := e4 + [("KeyA", Left)]; FromEntriesSnoc(e4, ("KeyA", Left));
    var e6 := e5 + [("ArrowLeft", Left)]; FromEntriesSnoc(e5, ("ArrowLeft", Left));
    var e7 := e6 + [("KeyD", Right)]; FromEntriesSnoc(e6, ("KeyD", Right));
    var e8 := e7 + [("ArrowRight", Right)]; FromEntriesSnoc(e7, ("ArrowRight", Right));
    var e9 := e8 + [("ShiftLeft", Sprint)]; FromEntriesSnoc(e8, ("ShiftLeft", Sprint));
    var e10 := e9 + [("ShiftRight", Sprint)]; FromEntriesSnoc(e9, ("ShiftRight", Sprint));
    var e11 := e10 + [("Space", Jump)]; FromEntriesSnoc(e10, ("Space", Jump));
    assert e11 == Entries(Actions);
  }

  /**
   * The reverse lookup agrees with the table in both directions: a key is
   * listed under action `a` exactly when the map sends it to `a`.
   */
  lemma KeyToActionAgrees(k: string, a: KeyAction)
    ensures k in ControlKeys(a) <==> (k in KeyToAction && KeyToAction[k] == a)
  {
    KeyToActionValue();
    DisplayAgrees(k, a);
  }

  lemma DisplayAgrees(k: string, a: KeyAction)
    ensures k in ControlKeys(a) <==> (k in KeyToActionDisplay && KeyToActionDisplay[k] == a)
  {
  }

  /** The map's domain is exactly the set of control keys: nothing outside the table is bound. */
  lemma KeyToActionDomain()
    ensures KeyToAction.Keys == set k | k in AllControlKeys
  {
    KeyToActionValue();
    AllControlKeysIsConcatenation();
    forall k | k in AllControlKeys ensures k in KeyToAction {
    }
    forall k | k in KeyToAction ensures k in AllControlKeys {
    }
  }

  /** Eleven distinct keys are bound. */
  lemma KeyToActionSize()
    ensures |KeyToAction| == 11
  {
    KeyToActionValue();
    DisplaySize();
  }

  lemma DisplaySize()
    ensures |KeyToActionDisplay| == 11
  {
  }

  /** Running is faster than walking, which is faster than standing still. */
  lemma SpeedOrder()
    ensures RunSpeed > WalkSpeed > 0.0 && JumpSpeed == 4.0
  {
  }
}
