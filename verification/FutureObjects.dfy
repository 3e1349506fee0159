/**
 Futures as the linked, mutable objects they are. `Set` walks the links and updates objects in place;
 it is proved equal to the walk `SetOne` on the store that the objects make up.
 */
module FutureObjects {
  import opened Basics
  import opened Futures
  import opened FutureGraph
  import opened Interpreter

  class FutureImpl {
    const role: Role
    var ready: bool
    var outcome: Outcome
    var chained: seq<FutureImpl>

    constructor (role: Role)
      ensures this.role == role && !ready && outcome == UNSET && chained == []
    {
      this.role := role;
      ready, outcome, chained := false, UNSET, [];
    }

    /**
     Completes this future and everything chained to it; false is the panic, which leaves behind what
     was already done. `all` are the futures of the execution.
     */
    method Set(ghost all: seq<FutureImpl>, outcome: Outcome) returns (ok: bool)
      requires Linked(all) && this in all
      modifies all
      ensures Linked(all)
      ensures (StoreOf(all), ok) == SetOne(old(StoreOf(all)), IndexOf(all, this), outcome)
      decreases Unready(StoreOf(all)), 0
    {
      if ready {
        return false;
      }
      SetOneUnfolds(StoreOf(all), IndexOf(all, this), outcome);
      Resolve(all, outcome);
      ok := SetEach(all, chained, outcome);
      if ok {
        DropChain(all);
      }
    }

    method Resolve(ghost all: seq<FutureImpl>, outcome: Outcome)
      requires Linked(all) && this in all
      modifies this
      ensures Linked(all) && chained == old(chained)
      ensures StoreOf(all) == MarkReady(old(StoreOf(all)), Assign(IndexOf(all, this), outcome))
    {
      ready := true;
      this.outcome := outcome;
    }

    method DropChain(ghost all: seq<FutureImpl>)
      requires Linked(all) && this in all
      modifies this
      ensures Linked(all)
      ensures StoreOf(all) == ClearChain(old(StoreOf(all)), IndexOf(all, this))
    {
      chained := [];
      assert Cell(all, this).chained == [];
    }

    /** Completes this future when the other one is completed; false is the panic. */
    method Chain(ghost all: seq<FutureImpl>, other: FutureImpl) returns (ok: bool)
      requires Linked(all) && this in all && other in all
      modifies all
      ensures Linked(all)
      ensures var h, f, g := old(StoreOf(all)), IndexOf(all, this), IndexOf(all, other);
              (StoreOf(all), ok) == (if h[f].ready then (h, false)
                                     else if h[g].ready then SetOne(h, f, h[g].outcome)
                                     else (ChainTo(h, g, f), true))
    {
      if ready {
        return false;
      }
      if other.ready {
        ok := Set(all, other.outcome);
        return;
      }
      ghost var h := StoreOf(all);
      other.chained := other.chained + [this];
      ok := true;
      assert Cell(all, other).chained == h[IndexOf(all, other)].chained + [IndexOf(all, this)];
      assert StoreOf(all) == ChainTo(h, IndexOf(all, other), IndexOf(all, this));
    }
  }

  /** The loop of `Set` over the chained futures. */
  method SetEach(ghost all: seq<FutureImpl>, targets: seq<FutureImpl>, outcome: Outcome) returns (ok: bool)
    requires Linked(all) && forall f :: f in targets ==> f in all
    modifies all
    ensures Linked(all)
    ensures (StoreOf(all), ok) == SetAll(old(StoreOf(all)), Fan(IdsOf(all, targets), outcome))
    decreases Unready(StoreOf(all)), 1
  {
    ghost var ids, h := IdsOf(all, targets), StoreOf(all);
    ghost var now := h;
    assert ids[0..] == ids;
    for i := 0 to |targets|
      invariant Linked(all) && now == StoreOf(all) && Unready(now) <= Unready(h)
      invariant SetAll(h, Fan(ids, outcome)) == SetAll(now, Fan(ids[i..], outcome))
    {
      SetAllHead(now, ids[i..], outcome);
      assert ids[i..][1..] == ids[i + 1..];
      ok := targets[i].Set(all, outcome);
      now := StoreOf(all);
      if !ok {
        return;
      }
    }
    ok := true;
  }

  /** The objects are distinct and link only to each other. */
  ghost predicate Linked(all: seq<FutureImpl>)
    reads all
  {
    && (forall i, j :: 0 <= i < j < |all| ==> all[i] != all[j])
    && (forall f, g :: f in all && g in f.chained ==> g in all)
  }

  ghost function IndexOf(all: seq<FutureImpl>, f: FutureImpl): (i: nat)
    requires f in all
    ensures i < |all| && all[i] == f
  {
    var i :| 0 <= i < |all| && all[i] == f;
    i
  }

  ghost function IdsOf(all: seq<FutureImpl>, fs: seq<FutureImpl>): (ids: seq<FutureId>)
    requires forall f :: f in fs ==> f in all
    ensures |ids| == |fs|
    ensures forall k :: 0 <= k < |fs| ==> ids[k] == IndexOf(all, fs[k])
  {
    seq(|fs|, k requires 0 <= k < |fs| => IndexOf(all, fs[k]))
  }

  ghost function Cell(all: seq<FutureImpl>, f: FutureImpl): Future
    requires Linked(all) && f in all
    reads all
  {
    Future(f.role, f.ready, f.outcome, IdsOf(all, f.chained))
  }

  /** The store that the objects make up. */
  ghost function StoreOf(all: seq<FutureImpl>): (h: Store)
    requires Linked(all)
    reads all
    ensures |h| == |all|
    ensures forall i :: 0 <= i < |all| ==> h[i] == Cell(all, all[i])
  {
    seq(|all|, i requires 0 <= i < |all| && Linked(all) reads all => Cell(all, all[i]))
  }

  /** A walk from one future: mark it, complete what is chained to it, drop the chain. */
  lemma SetOneUnfolds(h: Store, f: FutureId, outcome: Outcome)
    requires f < |h| && !h[f].ready
    ensures Unready(MarkReady(h, Assign(f, outcome))) < Unready(h)
    ensures var r := SetAll(MarkReady(h, Assign(f, outcome)), Fan(h[f].chained, outcome));
            SetOne(h, f, outcome) == (if r.1 then (ClearChain(r.0, f), true) else r)
  {
    var work := [Assign(f, outcome)];
    assert f in Unready(h) && f !in Unready(MarkReady(h, work[0]));
    assert work[1..] == [];
    assert forall g :: SetAll(g, work[1..]) == (g, true);
  }

  /** The first chained future of a walk, then the others. */
  lemma SetAllHead(h: Store, ids: seq<FutureId>, outcome: Outcome)
    requires ids != []
    ensures var r := SetOne(h, ids[0], outcome);
            SetAll(h, Fan(ids, outcome)) == (if r.1 then SetAll(r.0, Fan(ids[1..], outcome)) else r)
  {
    SetAllConcat(h, [Assign(ids[0], outcome)], Fan(ids[1..], outcome));
    assert [Assign(ids[0], outcome)] + Fan(ids[1..], outcome) == Fan(ids, outcome);
  }
}
