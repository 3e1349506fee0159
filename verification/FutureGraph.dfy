/**
 The chain graph: which futures one `set` completes, and exactly when it panics. The graph may be
 arbitrary: shared targets, repeated links, self links and cycles are all allowed.
 */
module FutureGraph {
  import opened Basics
  import opened Futures

  /** `p` follows links of `h` from its first future to its last. */
  ghost predicate Path(h: Store, p: seq<FutureId>) {
    && p != []
    && (forall k :: 0 <= k < |p| ==> p[k] < |h|)
    && (forall k :: 0 <= k < |p| - 1 ==> p[k + 1] in h[p[k]].chained)
  }

  ghost predicate Reach(h: Store, from: FutureId, to: FutureId) {
    exists p :: Path(h, p) && p[0] == from && p[|p| - 1] == to
  }

  ghost predicate ReachFrom(h: Store, work: seq<Assign>, to: FutureId) {
    exists k :: 0 <= k < |work| && Reach(h, work[k].target, to)
  }

  /** Chains mention existing futures only. */
  ghost predicate Closed(h: Store) {
    forall f, k :: 0 <= f < |h| && 0 <= k < |h[f].chained| ==> h[f].chained[k] < |h|
  }

  // ---- Paths ----

  lemma ReachSelf(h: Store, f: FutureId)
    requires f < |h|
    ensures Reach(h, f, f)
  {
    assert Path(h, [f]);
  }

  lemma ReachBehind(h: Store, f: FutureId, c: FutureId, g: FutureId)
    requires f < |h| && c in h[f].chained && Reach(h, c, g)
    ensures Reach(h, f, g)
  {
    var p :| Path(h, p) && p[0] == c && p[|p| - 1] == g;
    var q := [f] + p;
    assert Path(h, q) && q[0] == f && q[|q| - 1] == g;
  }

  /** Dropping links (and completing futures) only removes paths. */
  lemma ReachShrinks(h1: Store, h2: Store, f: FutureId, g: FutureId)
    requires Grown(h1, h2) && Reach(h2, f, g)
    ensures Reach(h1, f, g)
  {
    var p :| Path(h2, p) && p[0] == f && p[|p| - 1] == g;
    assert Path(h1, p);
  }

  /** The last link of a path of more than one future. */
  lemma ReachLast(h: Store, f: FutureId, g: FutureId) returns (y: FutureId)
    requires Reach(h, f, g) && f != g
    ensures Reach(h, f, y) && y < |h| && g in h[y].chained
  {
    var p :| Path(h, p) && p[0] == f && p[|p| - 1] == g;
    y := p[|p| - 2];
    assert Path(h, p[..|p| - 1]);
    assert p[|p| - 2 + 1] in h[p[|p| - 2]].chained;
  }

  // ---- A successful walk completes exactly what it can reach ----

  lemma {:induction false} CompletedIsReachable(h: Store, work: seq<Assign>)
    ensures forall g :: g in Newly(h, SetAll(h, work).0) ==> ReachFrom(h, work, g)
    decreases Unready(h), |work|
  {
    if work != [] && work[0].target < |h| && !h[work[0].target].ready {
      var f := work[0].target;
      var h1 := MarkReady(h, work[0]);
      assert f in Unready(h) && f !in Unready(h1);
      var fan := Fan(h[f].chained, work[0].outcome);
      var r1 := SetAll(h1, fan);
      CompletedIsReachable(h1, fan);
      forall g | g in Newly(h, r1.0)
        ensures Reach(h, f, g)
      {
        if g == f {
          ReachSelf(h, f);
        } else {
          assert g in Newly(h1, r1.0);
          var k :| 0 <= k < |fan| && Reach(h1, fan[k].target, g);
          var p :| Path(h1, p) && p[0] == fan[k].target && p[|p| - 1] == g;
          assert Path(h, p);
          ReachBehind(h, f, fan[k].target, g);
        }
      }
      if r1.1 {
        var h2 := ClearChain(r1.0, f);
        assert Unready(h2) == Unready(r1.0);
        CompletedIsReachable(h2, work[1..]);
        var last := SetAll(h2, work[1..]).0;
        forall g | g in Newly(h, last)
          ensures ReachFrom(h, work, g)
        {
          if g in Newly(h, r1.0) {
            assert Reach(h, work[0].target, g);
          } else {
            assert g in Newly(h2, last);
            var k :| 0 <= k < |work[1..]| && Reach(h2, work[1..][k].target, g);
            ReachShrinks(h, h2, work[1..][k].target, g);
            assert work[k + 1] == work[1..][k];
          }
        }
      } else {
        forall g | g in Newly(h, SetAll(h, work).0)
          ensures ReachFrom(h, work, g)
        {
          assert Reach(h, work[0].target, g);
        }
      }
    }
  }

  /** The first target of a successful walk: what completing it did, and what remained to do. */
  lemma SplitFirst(h: Store, work: seq<Assign>)
    returns (h1: Store, fan: seq<Assign>, h2: Store, n1: set<FutureId>, n2: set<FutureId>)
    requires work != [] && SetAll(h, work).1
    ensures work[0].target < |h| && !h[work[0].target].ready
    ensures h1 == MarkReady(h, work[0]) && fan == Fan(h[work[0].target].chained, work[0].outcome)
    ensures SetAll(h1, fan).1 && h2 == ClearChain(SetAll(h1, fan).0, work[0].target)
    ensures SetAll(h2, work[1..]) == SetAll(h, work)
    ensures n1 == Newly(h1, SetAll(h1, fan).0) && n2 == Newly(h2, SetAll(h, work).0)
    ensures Newly(h, SetAll(h, work).0) == {work[0].target} + n1 + n2
    ensures work[0].target !in n1 && work[0].target !in n2 && n1 !! n2
    ensures forall g :: g in n1 ==> g < |h| && h1[g] == h[g]
    ensures forall g :: g in n2 ==> g < |h| && h2[g] == h[g]
    ensures forall k :: 0 <= k < |fan| ==> fan[k].target in n1
    ensures forall k :: 0 <= k < |work[1..]| ==> work[1..][k].target in n2
    ensures Unready(h1) < Unready(h) && Unready(h2) < Unready(h)
  {
    var f := work[0].target;
    h1 := MarkReady(h, work[0]);
    assert f in Unready(h) && f !in Unready(h1);
    fan := Fan(h[f].chained, work[0].outcome);
    h2 := ClearChain(SetAll(h1, fan).0, f);
    assert Unready(h2) == Unready(SetAll(h1, fan).0);
    n1, n2 := Newly(h1, SetAll(h1, fan).0), Newly(h2, SetAll(h, work).0);
    SetAllDropsChains(h1, fan);
    SetAllDropsChains(h2, work[1..]);
  }

  /** The completed futures are closed under links. */
  lemma {:induction false} CompletedIsClosed(h: Store, work: seq<Assign>)
    requires SetAll(h, work).1
    ensures forall g, c :: g in Newly(h, SetAll(h, work).0) && c in h[g].chained ==>
                             c in Newly(h, SetAll(h, work).0)
    decreases Unready(h), |work|
  {
    if work != [] {
      var h1, fan, h2, n1, n2 := SplitFirst(h, work);
      CompletedIsClosed(h1, fan);
      CompletedIsClosed(h2, work[1..]);
      forall g, c | g in Newly(h, SetAll(h, work).0) && c in h[g].chained
        ensures c in Newly(h, SetAll(h, work).0)
      {
        if g == work[0].target {
          var k :| 0 <= k < |h[g].chained| && h[g].chained[k] == c;
          assert fan[k].target == c;
        }
      }
    }
  }

  /**
   A `set` that does not panic completes exactly the futures reachable through `chained`, all with
   the same outcome and an emptied chain, and leaves every other future as it was.
   */
  lemma {:induction false} SetCompletesReachable(h: Store, f: FutureId, outcome: Outcome)
    requires SetOne(h, f, outcome).1
    ensures var h' := SetOne(h, f, outcome).0;
            |h'| == |h| &&
            forall g :: 0 <= g < |h| ==>
              if Reach(h, f, g) then !h[g].ready && h'[g] == Future(h[g].role, true, outcome, [])
              else h'[g] == h[g]
  {
    var work := [Assign(f, outcome)];
    var h' := SetOne(h, f, outcome).0;
    CompletedIsReachable(h, work);
    SetAllDropsChains(h, work);
    SetAllOneOutcome(h, work, outcome);
    assert work[0].target in Newly(h, h');
    forall g | 0 <= g < |h|
      ensures Reach(h, f, g) <==> g in Newly(h, h')
    {
      if Reach(h, f, g) {
        var p :| Path(h, p) && p[0] == f && p[|p| - 1] == g;
        PathCompleted(h, work, p, |p| - 1);
      }
      if g in Newly(h, h') {
        assert ReachFrom(h, work, g);
      }
    }
  }

  lemma {:induction false} PathCompleted(h: Store, work: seq<Assign>, p: seq<FutureId>, k: nat)
    requires SetAll(h, work).1 && Path(h, p) && k < |p|
    requires p[0] in Newly(h, SetAll(h, work).0)
    ensures p[k] in Newly(h, SetAll(h, work).0)
  {
    CompletedIsClosed(h, work);
    if k > 0 {
      PathCompleted(h, work, p, k - 1);
      assert p[k - 1 + 1] in h[p[k - 1]].chained;
    }
  }

  // ---- Exactly when a walk panics ----

  /** Everything that can be reached from the targets of `work`. */
  ghost function Below(h: Store, work: seq<Assign>): set<FutureId> {
    set g | 0 <= g < |h| && ReachFrom(h, work, g)
  }

  /** No two links of the futures in `part` are to the same future, and none is to a target. */
  ghost predicate LinksApart(h: Store, work: seq<Assign>, part: set<FutureId>) {
    && (forall g :: g in part ==> g < |h|)
    && (forall j, k :: 0 <= j < k < |work| ==> work[j].target != work[k].target)
    && (forall g, k :: g in part && 0 <= k < |work| ==> work[k].target !in h[g].chained)
    && (forall a, b, i, j :: a in part && b in part
          && 0 <= i < |h[a].chained| && 0 <= j < |h[b].chained| && h[a].chained[i] == h[b].chained[j]
          ==> a == b && i == j)
  }

  /**
   What a caller can check before the call: everything reachable from the targets exists and is
   unready, the targets are distinct, nothing reachable is chained to a target, and no two links of
   reachable futures meet. From a single target this says the reachable graph is a tree.
   */
  ghost predicate Treelike(h: Store, work: seq<Assign>) {
    && (forall k :: 0 <= k < |work| ==> work[k].target < |h|)
    && (forall g :: g in Below(h, work) ==>
          !h[g].ready && forall k :: 0 <= k < |h[g].chained| ==> h[g].chained[k] < |h|)
    && LinksApart(h, work, Below(h, work))
  }

  lemma {:induction false} SuccessMeansLinksApart(h: Store, work: seq<Assign>)
    requires SetAll(h, work).1
    ensures LinksApart(h, work, Newly(h, SetAll(h, work).0))
    decreases Unready(h), |work|
  {
    if work != [] {
      var f := work[0].target;
      var h1, fan, h2, n1, n2 := SplitFirst(h, work);
      SuccessMeansLinksApart(h1, fan);
      SuccessMeansLinksApart(h2, work[1..]);
      CompletedIsClosed(h1, fan);
      CompletedIsClosed(h2, work[1..]);
      forall i | 0 <= i < |h[f].chained|
        ensures h[f].chained[i] in n1
      {
        assert fan[i].target in n1;
      }
      SplitLinksApart(h, work, n1, n2);
    }
  }

  /** Three groups of links that land in separate places cannot meet. */
  lemma SplitLinksApart(h: Store, work: seq<Assign>, n1: set<FutureId>, n2: set<FutureId>)
    requires work != [] && work[0].target < |h|
    requires work[0].target !in n1 && work[0].target !in n2 && n1 !! n2
    requires forall k :: 0 <= k < |h[work[0].target].chained| ==> h[work[0].target].chained[k] in n1
    requires LinksApart(h, Fan(h[work[0].target].chained, work[0].outcome), n1)
    requires LinksApart(h, work[1..], n2)
    requires forall g, c :: g in n1 && c in h[g].chained ==> c in n1
    requires forall g, c :: g in n2 && c in h[g].chained ==> c in n2
    requires forall k :: 0 <= k < |work[1..]| ==> work[1..][k].target in n2
    ensures LinksApart(h, work, {work[0].target} + n1 + n2)
  {
    var f := work[0].target;
    var part := {f} + n1 + n2;
    var fan := Fan(h[f].chained, work[0].outcome);
    assert forall k :: 0 < k < |work| ==> work[k] == work[1..][k - 1];
    forall a, b, i, j | a in part && b in part
        && 0 <= i < |h[a].chained| && 0 <= j < |h[b].chained| && h[a].chained[i] == h[b].chained[j]
      ensures a == b && i == j
    {
      var c := h[a].chained[i];
      assert c in h[a].chained && c in h[b].chained;
      assert a == f ==> fan[i].target == c && c in n1;
      assert b == f ==> fan[j].target == c && c in n1;
      assert a in n2 ==> c in n2;
      assert b in n2 ==> c in n2;
    }
  }

  lemma {:induction false} TreelikeSucceeds(h: Store, work: seq<Assign>)
    requires Treelike(h, work)
    ensures SetAll(h, work).1
    decreases Unready(h), |work|
  {
    if work != [] {
      var f := work[0].target;
      ReachSelf(h, f);
      assert f in Below(h, work);
      var h1 := MarkReady(h, work[0]);
      assert f in Unready(h) && f !in Unready(h1);
      var fan := Fan(h[f].chained, work[0].outcome);
      TreelikeFan(h, work);
      TreelikeSucceeds(h1, fan);
      var h2 := ClearChain(SetAll(h1, fan).0, f);
      assert Unready(h2) == Unready(SetAll(h1, fan).0);
      TreelikeRest(h, work, h2);
      TreelikeSucceeds(h2, work[1..]);
    }
  }

  /** What lies below the children of a future lies below that future. */
  lemma FanIsBelow(h: Store, work: seq<Assign>, g: FutureId)
    requires work != [] && work[0].target < |h|
    requires var fan := Fan(h[work[0].target].chained, work[0].outcome);
             ReachFrom(MarkReady(h, work[0]), fan, g)
    ensures Reach(h, work[0].target, g) && g in Below(h, work)
    ensures ReachFrom(h, Fan(h[work[0].target].chained, work[0].outcome), g)
  {
    var f := work[0].target;
    var h1 := MarkReady(h, work[0]);
    var fan := Fan(h[f].chained, work[0].outcome);
    var k :| 0 <= k < |fan| && Reach(h1, fan[k].target, g);
    var p :| Path(h1, p) && p[0] == fan[k].target && p[|p| - 1] == g;
    assert Path(h, p);
    assert Reach(h, fan[k].target, g);
    ReachBehind(h, f, fan[k].target, g);
  }

  /** Below the first target the graph is still a tree, and does not contain that target. */
  lemma TreelikeFan(h: Store, work: seq<Assign>)
    requires work != [] && Treelike(h, work)
    ensures Treelike(MarkReady(h, work[0]), Fan(h[work[0].target].chained, work[0].outcome))
  {
    var f := work[0].target;
    var h1 := MarkReady(h, work[0]);
    var fan := Fan(h[f].chained, work[0].outcome);
    ReachSelf(h, f);
    assert f in Below(h, work);
    forall g | g in Below(h1, fan)
      ensures g in Below(h, work) && g != f
    {
      FanIsBelow(h, work, g);
      if g == f {
        TargetNotBelowFan(h, work);
      }
    }
    forall g, k | g in Below(h1, fan) && 0 <= k < |fan|
      ensures fan[k].target !in h1[g].chained
    {
      assert h[f].chained[k] == fan[k].target;
    }
  }

  lemma TargetNotBelowFan(h: Store, work: seq<Assign>)
    requires work != [] && Treelike(h, work)
    ensures !ReachFrom(h, Fan(h[work[0].target].chained, work[0].outcome), work[0].target)
  {
    var f := work[0].target;
    var fan := Fan(h[f].chained, work[0].outcome);
    ReachSelf(h, f);
    assert f in Below(h, work);
    if ReachFrom(h, fan, f) {
      var k :| 0 <= k < |fan| && Reach(h, fan[k].target, f);
      assert fan[k].target in h[f].chained;
      if fan[k].target != f {
        var y := ReachLast(h, fan[k].target, f);
        ReachBehind(h, f, fan[k].target, y);
        assert ReachFrom(h, work, y);
      }
    }
  }

  /** Once the first target is done, the rest cannot lead into what it completed. */
  lemma TreelikeRest(h: Store, work: seq<Assign>, h2: Store)
    requires work != [] && Treelike(h, work)
    requires var h1 := MarkReady(h, work[0]);
             var r1 := SetAll(h1, Fan(h[work[0].target].chained, work[0].outcome));
             r1.1 && h2 == ClearChain(r1.0, work[0].target)
    ensures Treelike(h2, work[1..])
  {
    var rest := work[1..];
    ReachSelf(h, work[0].target);
    assert work[0].target in Below(h, work);
    HeadGrows(h, work, h2);
    forall g | g in Below(h2, rest)
      ensures g in Below(h, work) && h2[g] == h[g]
    {
      RestIsUntouched(h, work, h2, g);
    }
    NarrowLinksApart(h, work, Below(h, work), h2, Below(h2, rest));
  }

  lemma NarrowLinksApart(h: Store, work: seq<Assign>, part: set<FutureId>, h2: Store, part2: set<FutureId>)
    requires work != [] && LinksApart(h, work, part)
    requires part2 <= part && |h2| == |h|
    requires forall g :: g in part2 ==> h2[g] == h[g]
    ensures LinksApart(h2, work[1..], part2)
  {
    assert forall k :: 0 <= k < |work[1..]| ==> work[1..][k] == work[k + 1];
  }

  lemma RestIsUntouched(h: Store, work: seq<Assign>, h2: Store, g: FutureId)
    requires work != [] && Treelike(h, work)
    requires var h1 := MarkReady(h, work[0]);
             var r1 := SetAll(h1, Fan(h[work[0].target].chained, work[0].outcome));
             r1.1 && h2 == ClearChain(r1.0, work[0].target)
    requires g in Below(h2, work[1..])
    ensures g in Below(h, work) && h2[g] == h[g]
  {
    ReachSelf(h, work[0].target);
    assert work[0].target in Below(h, work);
    HeadGrows(h, work, h2);
    var k, p := PathFromRest(h, work, h2, g);
    BranchesApart(h, work, k, p, |p| - 1);
    if h2[g] != h[g] {
      TouchedIsReachable(h, work, h2, g);
    }
  }

  lemma HeadGrows(h: Store, work: seq<Assign>, h2: Store)
    requires work != [] && work[0].target < |h| && !h[work[0].target].ready
    requires var r1 := SetAll(MarkReady(h, work[0]), Fan(h[work[0].target].chained, work[0].outcome));
             h2 == ClearChain(r1.0, work[0].target)
    ensures Grown(h, h2)
  {
    var h1 := MarkReady(h, work[0]);
    var r1 := SetAll(h1, Fan(h[work[0].target].chained, work[0].outcome));
    assert forall g :: 0 <= g < |h| && g != work[0].target ==> h1[g] == h[g] && h2[g] == r1.0[g];
    assert h1[work[0].target].ready;
  }

  lemma PathFromRest(h: Store, work: seq<Assign>, h2: Store, g: FutureId) returns (k: nat, p: seq<FutureId>)
    requires work != [] && Grown(h, h2) && g in Below(h2, work[1..])
    ensures 0 < k < |work| && Path(h, p) && p[0] == work[k].target && p[|p| - 1] == g
    ensures g in Below(h, work)
  {
    var j :| 0 <= j < |work[1..]| && Reach(h2, work[1..][j].target, g);
    k := j + 1;
    assert work[k] == work[1..][j];
    ReachShrinks(h, h2, work[k].target, g);
    p :| Path(h, p) && p[0] == work[k].target && p[|p| - 1] == g;
  }

  lemma TouchedIsReachable(h: Store, work: seq<Assign>, h2: Store, g: FutureId)
    requires work != [] && work[0].target < |h|
    requires h2 == ClearChain(SetAll(MarkReady(h, work[0]), Fan(h[work[0].target].chained, work[0].outcome)).0,
                              work[0].target)
    requires g < |h| && h2[g] != h[g]
    ensures Reach(h, work[0].target, g)
  {
    var h1 := MarkReady(h, work[0]);
    var fan := Fan(h[work[0].target].chained, work[0].outcome);
    if g == work[0].target {
      ReachSelf(h, g);
    } else {
      CompletedIsReachable(h1, fan);
      assert g in Newly(h1, SetAll(h1, fan).0);
      FanIsBelow(h, work, g);
    }
  }

  /** No future is reachable both from the first target and from a later one. */
  lemma {:induction false} BranchesApart(h: Store, work: seq<Assign>, k: nat, p: seq<FutureId>, n: nat)
    requires work != [] && Treelike(h, work)
    requires 0 < k < |work| && Path(h, p) && p[0] == work[k].target && n < |p|
    ensures !Reach(h, work[0].target, p[n])
  {
    var f := work[0].target;
    assert Path(h, p[..n + 1]) && p[..n + 1][n] == p[n];
    assert Reach(h, work[k].target, p[n]);
    assert p[n] in Below(h, work);
    if n > 0 {
      BranchesApart(h, work, k, p, n - 1);
      assert Path(h, p[..n]) && p[..n][n - 1] == p[n - 1];
      assert Reach(h, work[k].target, p[n - 1]);
      assert p[n - 1] in Below(h, work);
      assert p[n - 1 + 1] in h[p[n - 1]].chained;
    }
    if Reach(h, f, p[n]) {
      if p[n] != f {
        var z := ReachLast(h, f, p[n]);
        assert ReachFrom(h, work, z);
      }
    }
  }

  lemma SucceedsMeansTreelike(h: Store, f: FutureId, outcome: Outcome)
    requires SetOne(h, f, outcome).1
    ensures Treelike(h, [Assign(f, outcome)])
  {
    var work := [Assign(f, outcome)];
    var part := Newly(h, SetOne(h, f, outcome).0);
    CompletedIsBelow(h, f, outcome);
    SuccessMeansLinksApart(h, work);
    CompletedIsClosed(h, work);
    SetAllDropsChains(h, work);
    assert work[0].target in part;
    forall g, k | g in part && 0 <= k < |h[g].chained|
      ensures h[g].chained[k] < |h|
    {
      assert h[g].chained[k] in part;
    }
  }

  lemma CompletedIsBelow(h: Store, f: FutureId, outcome: Outcome)
    requires SetOne(h, f, outcome).1
    ensures Newly(h, SetOne(h, f, outcome).0) == Below(h, [Assign(f, outcome)])
  {
    var work := [Assign(f, outcome)];
    SetCompletesReachable(h, f, outcome);
    forall g | 0 <= g < |h|
      ensures ReachFrom(h, work, g) <==> Reach(h, f, g)
    {
      assert work[0].target == f;
    }
  }

  /** `set` panics unless the futures it would complete are all unready and form a tree. */
  lemma SetPanicsExactly(h: Store, f: FutureId, outcome: Outcome)
    ensures SetOne(h, f, outcome).1 <==> Treelike(h, [Assign(f, outcome)])
  {
    if SetOne(h, f, outcome).1 {
      SucceedsMeansTreelike(h, f, outcome);
    }
    if Treelike(h, [Assign(f, outcome)]) {
      TreelikeSucceeds(h, [Assign(f, outcome)]);
    }
  }

  /** Two futures chained to the same two sources is already enough: the second arrival panics. */
  lemma DiamondPanics(outcome: Outcome)
    ensures var h := [Future(Runtime, false, UNSET, [1, 2]), Future(Manual, false, UNSET, [3]),
                      Future(Manual, false, UNSET, [3]), Fresh(Manual)];
            !SetOne(h, 0, outcome).1
  {
    var h := [Future(Runtime, false, UNSET, [1, 2]), Future(Manual, false, UNSET, [3]),
              Future(Manual, false, UNSET, [3]), Fresh(Manual)];
    var work := [Assign(0, outcome)];
    assert Path(h, [0, 1]) && Path(h, [0, 2]);
    assert Reach(h, work[0].target, 1) && Reach(h, work[0].target, 2);
    assert 1 in Below(h, work) && 2 in Below(h, work);
    assert h[1].chained[0] == 3 == h[2].chained[0];
    assert !LinksApart(h, work, Below(h, work));
    if SetOne(h, 0, outcome).1 {
      SucceedsMeansTreelike(h, 0, outcome);
    }
  }

  // ---- Walks that touch different futures ----

  ghost predicate AgreeOn(h1: Store, h2: Store, fs: set<FutureId>) {
    |h1| == |h2| && forall f :: f in fs && f < |h1| ==> h1[f] == h2[f]
  }

  /**
   A successful walk depends only on the futures it completes: any store that agrees on those lets
   the same walk succeed, with the same effect there and none elsewhere.
   */
  lemma {:induction false} SetAllFrame(h: Store, g: Store, work: seq<Assign>)
    requires SetAll(h, work).1
    requires AgreeOn(h, g, Newly(h, SetAll(h, work).0))
    ensures SetAll(g, work).1
    ensures AgreeOn(SetAll(h, work).0, SetAll(g, work).0, Newly(h, SetAll(h, work).0))
    ensures forall f :: 0 <= f < |h| && f !in Newly(h, SetAll(h, work).0) ==> SetAll(g, work).0[f] == g[f]
    decreases Unready(h), |work|
  {
    if work != [] {
      var h1, fan, h2, n1, n2 := SplitFirst(h, work);
      var g1 := MarkReady(g, work[0]);
      SetAllFrame(h1, g1, fan);
      var g2 := ClearChain(SetAll(g1, fan).0, work[0].target);
      SetAllFrame(h2, g2, work[1..]);
    }
  }

  /** Two walks that succeed one after the other also succeed the other way round, with equal result. */
  lemma SetAllCommutes(h: Store, a: seq<Assign>, b: seq<Assign>)
    requires SetAll(h, a).1 && SetAll(SetAll(h, a).0, b).1
    ensures SetAll(h, b).1 && SetAll(SetAll(h, b).0, a).1
    ensures SetAll(SetAll(h, b).0, a).0 == SetAll(SetAll(h, a).0, b).0
    ensures Newly(h, SetAll(h, a).0) !! Newly(h, SetAll(h, b).0)
  {
    var ha := SetAll(h, a).0;
    var hab := SetAll(ha, b).0;
    var na, nb := Newly(h, ha), Newly(ha, hab);
    assert na !! nb;
    SetAllFrame(ha, h, b);
    var hb := SetAll(h, b).0;
    assert Newly(h, hb) == nb;
    SetAllFrame(h, hb, a);
    var hba := SetAll(hb, a).0;
    forall f | 0 <= f < |h|
      ensures hba[f] == hab[f]
    {
    }
  }

  /** Links lead to `Manual` futures only, so a walk completes its targets and `Manual` futures. */
  ghost predicate ManualChains(h: Store) {
    forall f, k :: 0 <= f < |h| && 0 <= k < |h[f].chained| ==>
      h[f].chained[k] < |h| && h[h[f].chained[k]].role == Manual
  }

  lemma {:induction false} CompletedAreManual(h: Store, work: seq<Assign>)
    requires ManualChains(h)
    ensures ManualChains(SetAll(h, work).0)
    ensures forall f :: f in Newly(h, SetAll(h, work).0) && h[f].role != Manual ==>
                          exists k :: 0 <= k < |work| && work[k].target == f
  {
    var h' := SetAll(h, work).0;
    CompletedIsReachable(h, work);
    forall f | f in Newly(h, h') && h[f].role != Manual
      ensures exists k :: 0 <= k < |work| && work[k].target == f
    {
      var k :| 0 <= k < |work| && Reach(h, work[k].target, f);
      if work[k].target != f {
        var y := ReachLast(h, work[k].target, f);
        assert false;
      }
    }
  }
}
