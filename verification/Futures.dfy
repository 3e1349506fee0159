/**
 Write-once futures with chaining, on an explicit store: a future is an index into the store, so two
 references to one future are two equal indices. `SetAll` is the recursive walk of `futureImpl.set`.
 */
module Futures {
  import opened Basics

  type FutureId = nat

  /**
   Who may complete a future. User code holds a `Settable` only for the futures it made itself
   (`Manual`). The runtime completes `Runtime` futures; the waiter of a signal receive
   (`Hidden`) is never handed out at all.
   */
  datatype Role = Manual | Runtime | Hidden

  datatype Future = Future(role: Role, ready: bool, outcome: Outcome, chained: seq<FutureId>)

  type Store = seq<Future>

  /** One pending completion: give `target` this outcome. */
  datatype Assign = Assign(target: FutureId, outcome: Outcome)

  function Fresh(role: Role): Future {
    Future(role, false, UNSET, [])
  }

  function Fan(targets: seq<FutureId>, outcome: Outcome): (work: seq<Assign>)
    ensures |work| == |targets|
    ensures forall k :: 0 <= k < |work| ==> work[k] == Assign(targets[k], outcome)
  {
    seq(|targets|, k requires 0 <= k < |targets| => Assign(targets[k], outcome))
  }

  function Unready(h: Store): set<FutureId> {
    set f | 0 <= f < |h| && !h[f].ready
  }

  function MarkReady(h: Store, a: Assign): (r: Store)
    requires a.target < |h|
  {
    h[a.target := h[a.target].(ready := true, outcome := a.outcome)]
  }

  function ClearChain(h: Store, f: FutureId): (r: Store)
    requires f < |h|
  {
    h[f := h[f].(chained := [])]
  }

  /** `h2` came from `h1` by completing futures: nothing that was ready has moved. */
  ghost predicate Grown(h1: Store, h2: Store) {
    && |h1| == |h2|
    && forall f :: 0 <= f < |h1| ==>
         && h2[f].role == h1[f].role
         && (h1[f].ready ==> h2[f] == h1[f])
         && (!h2[f].ready ==> h2[f] == h1[f])
         && (h2[f].chained == h1[f].chained || h2[f].chained == [])
  }

  /**
   Completes the targets of `work` in order. Completing a future first marks it, then completes
   everything chained to it, then drops its chain; the walk stops with `false` (the panic of the
   source) at the first target that is already ready.
   */
  function SetAll(h: Store, work: seq<Assign>): (r: (Store, bool))
    ensures Grown(h, r.0)
    ensures Unready(r.0) <= Unready(h)
    decreases Unready(h), |work|
  {
    if work == [] then (h, true)
    else
      var f := work[0].target;
      if f >= |h| || h[f].ready then (h, false)
      else
        var h1 := MarkReady(h, work[0]);
        assert Unready(h1) < Unready(h) by {
          assert f in Unready(h) && f !in Unready(h1);
        }
        var r1 := SetAll(h1, Fan(h[f].chained, work[0].outcome));
        if !r1.1 then r1
        else
          var h2 := ClearChain(r1.0, f);
          assert Unready(h2) == Unready(r1.0);
          SetAll(h2, work[1..])
  }

  function SetOne(h: Store, f: FutureId, outcome: Outcome): (Store, bool) {
    SetAll(h, [Assign(f, outcome)])
  }

  /** The futures a walk from `h1` to `h2` completed. */
  ghost function Newly(h1: Store, h2: Store): set<FutureId> {
    set f | 0 <= f < |h1| && f < |h2| && !h1[f].ready && h2[f].ready
  }

  // ---- Running several walks one after the other ----

  lemma {:induction false} SetAllConcat(h: Store, a: seq<Assign>, b: seq<Assign>)
    ensures SetAll(h, a + b) == (var r := SetAll(h, a); if r.1 then SetAll(r.0, b) else r)
    decreases Unready(h), |a|
  {
    if a == [] {
      assert a + b == b;
    } else {
      var f := a[0].target;
      assert (a + b)[0] == a[0];
      assert (a + b)[1..] == a[1..] + b;
      if f < |h| && !h[f].ready {
        var h1 := MarkReady(h, a[0]);
        assert f in Unready(h) && f !in Unready(h1);
        var r1 := SetAll(h1, Fan(h[f].chained, a[0].outcome));
        if r1.1 {
          var h2 := ClearChain(r1.0, f);
          assert Unready(h2) == Unready(r1.0);
          SetAllConcat(h2, a[1..], b);
        }
      }
    }
  }

  // ---- What a successful walk does ----

  /** Every future a successful walk completed ends with an empty chain. */
  lemma {:induction false} SetAllDropsChains(h: Store, work: seq<Assign>)
    requires SetAll(h, work).1
    ensures forall f :: f in Newly(h, SetAll(h, work).0) ==> SetAll(h, work).0[f].chained == []
    ensures forall k :: 0 <= k < |work| ==> work[k].target in Newly(h, SetAll(h, work).0)
    ensures forall k :: 0 <= k < |work| ==> SetAll(h, work).0[work[k].target].outcome == work[k].outcome
    decreases Unready(h), |work|
  {
    if work != [] {
      var f := work[0].target;
      var h1 := MarkReady(h, work[0]);
      assert f in Unready(h) && f !in Unready(h1);
      SetAllDropsChains(h1, Fan(h[f].chained, work[0].outcome));
      var h2 := ClearChain(SetAll(h1, Fan(h[f].chained, work[0].outcome)).0, f);
      assert Unready(h2) == Unready(SetAll(h1, Fan(h[f].chained, work[0].outcome)).0);
      SetAllDropsChains(h2, work[1..]);
      forall k | 0 <= k < |work|
        ensures work[k].target in Newly(h, SetAll(h, work).0)
        ensures SetAll(h, work).0[work[k].target].outcome == work[k].outcome
      {
        if k > 0 {
          assert work[1..][k - 1] == work[k];
        }
      }
    }
  }

  /** A walk started with one outcome hands out that outcome only, also when it stops early. */
  lemma {:induction false} SetAllOneOutcome(h: Store, work: seq<Assign>, outcome: Outcome)
    requires forall k :: 0 <= k < |work| ==> work[k].outcome == outcome
    ensures forall f :: f in Newly(h, SetAll(h, work).0) ==> SetAll(h, work).0[f].outcome == outcome
    decreases Unready(h), |work|
  {
    if work != [] && work[0].target < |h| && !h[work[0].target].ready {
      var f := work[0].target;
      var h1 := MarkReady(h, work[0]);
      assert f in Unready(h) && f !in Unready(h1);
      var fan := Fan(h[f].chained, work[0].outcome);
      SetAllOneOutcome(h1, fan, outcome);
      if SetAll(h1, fan).1 {
        var h2 := ClearChain(SetAll(h1, fan).0, f);
        assert Unready(h2) == Unready(SetAll(h1, fan).0);
        SetAllOneOutcome(h2, work[1..], outcome);
      }
    }
  }
}
