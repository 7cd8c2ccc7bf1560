/**
 * The store slice that tracks asset loading: which assets have reported in,
 * the percentage shown by the preloader, and whether the scene is ready.
 * The list of assets to load is a parameter; the repository ships it empty.
 */
module Assets {
  datatype Status = Pending | Ready

  datatype AssetsState = AssetsState(status: Status, percent: real, loaded: set<string>)

  /** The ids the repository asks to load: none. */
  const AssetsToLoad: seq<string> := []

  /** Before anything has loaded: ready only when there is nothing to load. */
  function InitialState(assets: seq<string>): (s: AssetsState)
    ensures s.status == Ready <==> |assets| == 0
    ensures s.percent == 0.0 && s.loaded == {}
  {
    AssetsState(if |assets| > 0 then Pending else Ready, 0.0, {})
  }

  /** The share of the list that has loaded, in percent; an empty list counts as one. */
  function Percent(loadedCount: nat, total: nat): (p: real)
    ensures 0.0 <= p
    ensures 0 < total && loadedCount <= total ==> p <= 100.0
    ensures 0 < total && loadedCount == total ==> p == 100.0
    ensures total == 0 ==> p == loadedCount as real * 100.0
  {
    (loadedCount as real / (if total > 1 then total else 1) as real) * 100.0
  }

  /**
   * `onLoadAsset`: record the id, recompute the percentage, and become ready
   * when the number of recorded ids equals the length of the list.
   */
  function OnLoadAsset(assets: seq<string>, s: AssetsState, id: string): (r: AssetsState)
    ensures r.loaded == s.loaded + {id}
    ensures r.percent == Percent(|r.loaded|, |assets|)
    ensures |r.loaded| == |assets| ==> r.status == Ready
    ensures |r.loaded| != |assets| ==> r.status == s.status
  {
    var loaded := s.loaded + {id};
    AssetsState(if |loaded| == |assets| then Ready else s.status, Percent(|loaded|, |assets|), loaded)
  }

  /** Reports one id after the other. */
  function LoadAll(assets: seq<string>, s: AssetsState, ids: seq<string>): (r: AssetsState)
    ensures r.loaded == s.loaded + set i | i in ids
    decreases |ids|
  {
    if ids == [] then s else LoadAll(assets, OnLoadAsset(assets, s, ids[0]), ids[1..])
  }

  function IdsOf(assets: seq<string>): set<string>
  {
    set a | a in assets
  }

  predicate NoDuplicates(assets: seq<string>)
  {
    forall i, j :: 0 <= i < j < |assets| ==> assets[i] != assets[j]
  }

  /** A list has at most as many distinct ids as entries, and exactly as many without duplicates. */
  lemma {:induction false} IdsOfSize(assets: seq<string>)
    ensures |IdsOf(assets)| <= |assets|
    ensures NoDuplicates(assets) ==> |IdsOf(assets)| == |assets|
  {
    if assets != [] {
      var tail := assets[1..];
      IdsOfSize(tail);
      assert IdsOf(assets) == {assets[0]} + IdsOf(tail);
      if NoDuplicates(assets) {
        assert NoDuplicates(tail) by {
          forall i, j | 0 <= i < j < |tail| ensures tail[i] != tail[j] {
            assert tail[i] == assets[i + 1] && tail[j] == assets[j + 1];
          }
        }
        assert assets[0] !in IdsOf(tail) by {
          forall k | 0 <= k < |tail| ensures tail[k] != assets[0] {
            assert tail[k] == assets[k + 1];
          }
        }
      }
    }
  }

  /** A second report of the same id changes nothing. */
  lemma ReportTwice(assets: seq<string>, s: AssetsState, id: string)
    ensures OnLoadAsset(assets, OnLoadAsset(assets, s, id), id) == OnLoadAsset(assets, s, id)
  {
  }

  /** Once ready, the slice never goes back to pending. */
  lemma {:induction false} ReadyStaysReady(assets: seq<string>, s: AssetsState, ids: seq<string>)
    requires s.status == Ready
    ensures LoadAll(assets, s, ids).status == Ready
    decreases |ids|
  {
    if ids != [] {
      ReadyStaysReady(assets, OnLoadAsset(assets, s, ids[0]), ids[1..]);
    }
  }

  /** While only listed ids report, the percentage never exceeds 100. */
  lemma PercentAtMostHundred(assets: seq<string>, s: AssetsState, id: string)
    requires s.loaded <= IdsOf(assets) && id in assets
    ensures 0.0 <= OnLoadAsset(assets, s, id).percent <= 100.0
  {
    var loaded := s.loaded + {id};
    assert loaded <= IdsOf(assets);
    IdsOfSize(assets);
    assert |loaded| <= |IdsOf(assets)| by {
      SubsetSize(loaded, IdsOf(assets));
    }
  }

  lemma {:induction false} SubsetSize(a: set<string>, b: set<string>)
    requires a <= b
    ensures |a| <= |b|
  {
    assert b == a + (b - a);
  }

  /**
   * Every asset of a list without duplicates reporting, in any order, makes
   * the slice ready at 100 percent.
   */
  lemma AllReportedIsReady(assets: seq<string>, order: seq<string>)
    requires |assets| > 0 && NoDuplicates(assets)
    requires IdsOf(order) == IdsOf(assets)
    ensures var r := LoadAll(assets, InitialState(assets), order);
            r.status == Ready && r.percent == 100.0
  {
    IdsOfSize(assets);
    var r := LoadAll(assets, InitialState(assets), order);
    assert r.loaded == IdsOf(assets);
    LastReportCompletes(assets, InitialState(assets), order);
  }

  /** The report that completes the set is the last one to change the count, and it sets ready at 100 percent. */
  lemma {:induction false} LastReportCompletes(assets: seq<string>, s: AssetsState, ids: seq<string>)
    requires |assets| > 0 && |LoadAll(assets, s, ids).loaded| == |assets|
    requires |s.loaded| == |assets| ==> s.status == Ready && s.percent == 100.0
    ensures LoadAll(assets, s, ids).status == Ready && LoadAll(assets, s, ids).percent == 100.0
    decreases |ids|
  {
    if ids != [] {
      var next := OnLoadAsset(assets, s, ids[0]);
      if |next.loaded| == |assets| {
        assert next.status == Ready;
      }
      LastReportCompletes(assets, next, ids[1..]);
    }
  }

  /**
   * Readiness is an exact count: when the list names some id twice, the
   * listed ids can never reach its length, and the slice stays pending.
   */
  lemma {:induction false} DuplicatesNeverReady(assets: seq<string>, s: AssetsState, ids: seq<string>)
    requires |IdsOf(assets)| < |assets| && s.status == Pending
    requires s.loaded <= IdsOf(assets) && IdsOf(ids) <= IdsOf(assets)
    ensures LoadAll(assets, s, ids).status == Pending
    decreases |ids|
  {
    if ids != [] {
      var next := OnLoadAsset(assets, s, ids[0]);
      assert ids[0] in IdsOf(ids);
      SubsetSize(next.loaded, IdsOf(assets));
      assert IdsOf(ids[1..]) <= IdsOf(ids) by {
        forall a | a in IdsOf(ids[1..]) ensures a in IdsOf(ids) {
          var k :| 0 <= k < |ids[1..]| && ids[1..][k] == a;
          assert ids[k + 1] == a;
        }
      }
      DuplicatesNeverReady(assets, next, ids[1..]);
    }
  }

  /** With the repository's (empty) list the slice starts ready. */
  lemma RepositoryStartsReady()
    ensures InitialState(AssetsToLoad).status == Ready
  {
  }
}
