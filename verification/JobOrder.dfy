/**
 The order of the jobs of an activation does not matter, as far as it is not meaningful: signals of one
 name, updates and queries keep their order, everything else may be reordered freely.
 */
module JobOrder {
  import opened Basics
  import opened Futures
  import opened FutureGraph
  import opened Interpreter
  import opened Scheduling
  import opened Activation
  import opened Invariants
  import opened Preservation
  import opened Runs
  import opened Progress
  import opened Guarantees

  /** A reordering that keeps the order of same-name signals, of updates and of queries. */
  ghost predicate Reordering(a: seq<Job>, b: seq<Job>) {
    && (forall n :: SignalInputs(a, n) == SignalInputs(b, n))
    && Updates(a) == Updates(b)
    && Queries(a) == Queries(b)
    && multiset(Pending(a)) == multiset(Pending(b))
  }

  // ---- Signals ----

  function WakeFirst(h: Store, c: Channel, input: seq<Payload>): Store {
    if c.waiters == [] || c.waiters[0] >= |h| then h
    else h[c.waiters[0] := Future(Hidden, true, Outcome(SignalValue(input), None), [])]
  }

  function Given(c: Channel, input: seq<Payload>): Channel {
    if c.waiters == [] then Channel(c.buffer + [input], [], c.delivered + [input], c.received, c.receivers)
    else Channel(c.buffer, c.waiters[1..], c.delivered + [input], c.received + [input], c.receivers + [Some(c.waiters[0])])
  }

  /** In a reachable state a delivery has this closed form. */
  lemma DeliverIs(s: Exec, n: string, x: seq<Payload>)
    requires Integrity(s)
    ensures Deliver(s, n, x) == s.(futures := WakeFirst(s.futures, ChannelOf(s, n), x),
                                   channels := s.channels[n := Given(ChannelOf(s, n), x)])
  {
    DeliverSkipsNobody(s, n, x);
    OldWaiters(s, n);
    if ChannelOf(s, n).waiters != [] {
      assert WaiterOk(s.futures, ChannelOf(s, n).waiters[0]);
    }
  }

  lemma DeliverTwo(s: Exec, n: string, x: seq<Payload>, m: string, y: seq<Payload>)
    requires Integrity(s) && n != m
    ensures Deliver(Deliver(s, n, x), m, y)
         == s.(futures := WakeFirst(WakeFirst(s.futures, ChannelOf(s, n), x), ChannelOf(s, m), y),
               channels := s.channels[n := Given(ChannelOf(s, n), x)][m := Given(ChannelOf(s, m), y)])
  {
    DeliverKeeps(s, n, x);
    DeliverIs(s, n, x);
    DeliverIs(Deliver(s, n, x), m, y);
    assert ChannelOf(Deliver(s, n, x), m) == ChannelOf(s, m);
  }

  lemma WaitersApart(s: Exec, n: string, m: string)
    requires Integrity(s) && n != m && ChannelOf(s, n).waiters != [] && ChannelOf(s, m).waiters != []
    ensures ChannelOf(s, n).waiters[0] != ChannelOf(s, m).waiters[0]
  {
    assert n in s.channels && m in s.channels;
  }

  /** Signals of different names can be delivered in either order. */
  lemma DeliverCommutes(s: Exec, n: string, x: seq<Payload>, m: string, y: seq<Payload>)
    requires Integrity(s) && n != m
    ensures Deliver(Deliver(s, n, x), m, y) == Deliver(Deliver(s, m, y), n, x)
  {
    var cn, cm := ChannelOf(s, n), ChannelOf(s, m);
    if cn.waiters != [] && cm.waiters != [] {
      WaitersApart(s, n, m);
    }
    WakesCommute(s.futures, cn, x, cm, y);
    GivenCommute(s.channels, n, Given(cn, x), m, Given(cm, y));
    DeliverTwo(s, n, x, m, y);
    DeliverTwo(s, m, y, n, x);
  }

  lemma GivenCommute(channels: map<string, Channel>, n: string, cn: Channel, m: string, cm: Channel)
    requires n != m
    ensures channels[n := cn][m := cm] == channels[m := cm][n := cn]
  {
  }

  lemma WakesCommute(h: Store, cn: Channel, x: seq<Payload>, cm: Channel, y: seq<Payload>)
    requires cn.waiters != [] && cm.waiters != [] ==> cn.waiters[0] != cm.waiters[0]
    ensures WakeFirst(WakeFirst(h, cn, x), cm, y) == WakeFirst(WakeFirst(h, cm, y), cn, x)
  {
  }

  /** The first job is delivered before or after a prefix of other names. */
  lemma {:induction false} DeliverPast(s: Exec, job: Job, prefix: seq<Job>)
    requires Integrity(s) && job.SignalWorkflow?
    requires forall j :: j in prefix ==> j.SignalWorkflow? && j.name != job.name
    ensures DeliverAll(s, prefix + [job]) == DeliverAll(Deliver(s, job.name, job.input), prefix)
    decreases |prefix|
  {
    if prefix == [] {
      assert prefix + [job] == [job] && [job][1..] == [];
    } else {
      var j := prefix[0];
      var s1 := Deliver(s, j.name, j.input);
      assert (prefix + [job])[0] == j && (prefix + [job])[1..] == prefix[1..] + [job];
      DeliverKeeps(s, j.name, j.input);
      DeliverPast(s1, job, prefix[1..]);
      DeliverCommutes(s, job.name, job.input, j.name, j.input);
    }
  }

  lemma {:induction false} DeliverAllConcat(s: Exec, a: seq<Job>, b: seq<Job>)
    requires forall j :: j in a || j in b ==> j.SignalWorkflow?
    ensures forall j :: j in a + b ==> j.SignalWorkflow?
    ensures DeliverAll(s, a + b) == DeliverAll(DeliverAll(s, a), b)
    decreases |a|
  {
    if a == [] {
      assert a + b == b;
    } else {
      assert (a + b)[0] == a[0] && (a + b)[1..] == a[1..] + b;
      DeliverAllConcat(Deliver(s, a[0].name, a[0].input), a[1..], b);
    }
  }

  /** Where the first signal of a name is, when there is one. */
  lemma {:induction false} FirstOfName(jobs: seq<Job>, n: string) returns (k: nat)
    requires SignalInputs(jobs, n) != [] && forall j :: j in jobs ==> j.SignalWorkflow?
    ensures k < |jobs| && jobs[k].name == n && jobs[k].input == SignalInputs(jobs, n)[0]
    ensures forall i :: 0 <= i < k ==> jobs[i].name != n
    ensures SignalInputs(jobs[..k], n) == []
  {
    if jobs[0].name == n {
      k := 0;
    } else {
      k := FirstOfName(jobs[1..], n);
      k := k + 1;
      assert jobs[..k][1..] == jobs[1..][..k - 1];
    }
  }

  /** A signal can be delivered first when no earlier one has its name. */
  lemma DeliverFirst(s: Exec, jobs: seq<Job>, k: nat)
    requires Integrity(s) && k < |jobs| && forall j :: j in jobs ==> j.SignalWorkflow?
    requires forall i :: 0 <= i < k ==> jobs[i].name != jobs[k].name
    ensures DeliverAll(s, jobs)
         == DeliverAll(Deliver(s, jobs[k].name, jobs[k].input), jobs[..k] + jobs[k + 1..])
  {
    var job, front, back := jobs[k], jobs[..k], jobs[k + 1..];
    assert jobs == front + [job] + back;
    DeliverAllConcat(s, front + [job], back);
    DeliverPast(s, job, front);
    DeliverAllConcat(Deliver(s, job.name, job.input), front, back);
  }

  lemma WithoutSignal(a: seq<Job>, b: seq<Job>, k: nat, n: string)
    requires a != [] && k < |b| && b[k] == a[0]
    requires SignalInputs(a, n) == SignalInputs(b, n)
    requires SignalInput(a[0], n) != [] ==> SignalInputs(b[..k], n) == []
    ensures SignalInputs(a[1..], n) == SignalInputs(b[..k] + b[k + 1..], n)
  {
    var front, back := b[..k], b[k + 1..];
    SplitSignals(b, k, n);
    SignalInputsConcat(front, back, n);
    Cancel(SignalInput(a[0], n), SignalInputs(a[1..], n), SignalInputs(front, n), SignalInputs(back, n));
  }

  lemma SplitSignals(b: seq<Job>, k: nat, n: string)
    requires k < |b|
    ensures SignalInputs(b, n) == SignalInputs(b[..k], n) + (SignalInput(b[k], n) + SignalInputs(b[k + 1..], n))
  {
    assert b == b[..k] + b[k..] && b[k..][0] == b[k] && b[k..][1..] == b[k + 1..];
    SignalInputsConcat(b[..k], b[k..], n);
  }

  lemma Cancel<T>(i: seq<T>, rest: seq<T>, front: seq<T>, back: seq<T>)
    requires i + rest == front + (i + back) && (i != [] ==> front == [])
    ensures rest == front + back
  {
    if i == [] {
      assert i + rest == rest && i + back == back;
    } else {
      assert (i + rest)[|i|..] == rest;
      assert front + (i + back) == i + back && (i + back)[|i|..] == back;
      assert front + back == back;
    }
  }

  lemma {:induction false} SignalsInOrder(s: Exec, a: seq<Job>, b: seq<Job>)
    requires Integrity(s)
    requires forall j :: j in a || j in b ==> j.SignalWorkflow?
    requires forall n :: SignalInputs(a, n) == SignalInputs(b, n)
    ensures DeliverAll(s, a) == DeliverAll(s, b)
    decreases |a|
  {
    assert b != [] ==> SignalInputs(b, b[0].name) != [];
    if a != [] {
      var job := a[0];
      var k := FindSignal(a, b);
      DeliverFirst(s, b, k);
      DeliverKeeps(s, job.name, job.input);
      SignalsInOrder(Deliver(s, job.name, job.input), a[1..], b[..k] + b[k + 1..]);
    }
  }

  /** The first signal of `a` is the first of its name in `b`. */
  lemma FindSignal(a: seq<Job>, b: seq<Job>) returns (k: nat)
    requires a != [] && forall j :: j in a || j in b ==> j.SignalWorkflow?
    requires forall n :: SignalInputs(a, n) == SignalInputs(b, n)
    ensures k < |b| && b[k] == a[0] && forall i :: 0 <= i < k ==> b[i].name != a[0].name
    ensures forall n :: SignalInputs(a[1..], n) == SignalInputs(b[..k] + b[k + 1..], n)
  {
    var job := a[0];
    assert SignalInputs(a, job.name) != [];
    k := FirstOfName(b, job.name);
    assert b[k] == job;
    forall n
      ensures SignalInputs(a[1..], n) == SignalInputs(b[..k] + b[k + 1..], n)
    {
      WithoutSignal(a, b, k, n);
    }
  }

  lemma SameSignals(a: seq<Job>, b: seq<Job>)
    requires Reordering(a, b)
    ensures forall n :: SignalInputs(Signals(a), n) == SignalInputs(Signals(b), n)
  {
    forall n
      ensures SignalInputs(Signals(a), n) == SignalInputs(Signals(b), n)
    {
      SignalsAreSignals(a, n);
      SignalsAreSignals(b, n);
    }
  }

  // ---- Resolutions ----

  /** Applies the jobs one after the other; None when one of them does not apply. */
  function ApplyAll(s: Exec, jobs: seq<Job>): Option<Exec>
    decreases |jobs|
  {
    if jobs == [] then Some(s)
    else
      match TryApply(s, jobs[0])
      case Applied(s') => ApplyAll(s', jobs[1..])
      case _ => None
  }

  predicate DistinctSequences(jobs: seq<Job>) {
    && (forall i :: 0 <= i < |jobs| ==> IsResolution(jobs[i]))
    && (forall i, j :: 0 <= i < j < |jobs| ==> jobs[i].sequence != jobs[j].sequence)
  }

  predicate IsResolution(job: Job) {
    job.FireTimer? || job.ResolveActivity? || job.ResolveChildStart? || job.ResolveChild?
  }

  /** Every job applies, without error or panic, to an outstanding sequence of its own. */
  ghost predicate AllApply(s: Exec, jobs: seq<Job>) {
    DistinctSequences(jobs) && ApplyAll(s, jobs).Some?
  }

  /** A resolution leaves the futures of every other operation alone. */
  lemma OthersUntouched(h: Store, operations: map<nat, Operation>, j: Job, q: nat, f: FutureId)
    requires ManualChains(h) && OperationsOk(h, operations) && PlanFor(h, operations, j).Apply?
    requires q in operations && q != j.sequence && f in Slots(operations[q])
    ensures f < |h| && SetAll(h, PlanFor(h, operations, j).work).0[f] == h[f]
  {
    var work := PlanFor(h, operations, j).work;
    PlanTargets(h, operations, j);
    CompletedAreManual(h, work);
    assert OperationOk(h, operations[q]);
    assert forall i :: 0 <= i < |work| ==> work[i].target in Targets(work);
    assert f !in Slots(operations[j.sequence]);
    assert f !in Newly(h, SetAll(h, work).0);
  }

  /** A plan depends on the matched operation and, for a child result, on its start only. */
  lemma PlanDependsOn(h1: Store, o1: map<nat, Operation>, h2: Store, o2: map<nat, Operation>, k: Job)
    requires IsResolution(k) && (k.sequence in o1 <==> k.sequence in o2)
    requires k.sequence in o1 ==> o1[k.sequence] == o2[k.sequence]
    requires k.sequence in o1 && o1[k.sequence].kind.Child? ==>
               var f := o1[k.sequence].kind.started; f < |h1| && f < |h2| && h1[f] == h2[f]
    ensures PlanFor(h1, o1, k) == PlanFor(h2, o2, k)
  {
  }

  /** A resolution does not change what another one, for another sequence, will do. */
  lemma PlanStable(s: Exec, j: Job, k: Job)
    requires Integrity(s) && IsResolution(j) && IsResolution(k) && j.sequence != k.sequence
    requires TryApply(s, j).Applied?
    ensures var s' := TryApply(s, j).state;
            PlanFor(s'.futures, s'.table.operations, k) == PlanFor(s.futures, s.table.operations, k)
  {
    var operations, s' := s.table.operations, TryApply(s, j).state;
    if k.sequence in operations && operations[k.sequence].kind.Child? {
      OthersUntouched(s.futures, operations, j, k.sequence, operations[k.sequence].kind.started);
    }
    PlanDependsOn(s'.futures, s'.table.operations, s.futures, operations, k);
  }

  /** What applying a job comes to, given its plan. */
  lemma ApplyIs(s: Exec, j: Job)
    requires PlanFor(s.futures, s.table.operations, j).Apply?
    requires SetAll(s.futures, PlanFor(s.futures, s.table.operations, j).work).1
    ensures var plan := PlanFor(s.futures, s.table.operations, j);
            TryApply(s, j) == Applied(s.(futures := SetAll(s.futures, plan.work).0,
                                         table := if plan.retire then Retire(s.table, j.sequence) else s.table))
  {
  }

  lemma RetireCommutes(table: Table, q: nat, r: nat)
    requires q != r
    ensures Retire(Retire(table, q), r) == Retire(Retire(table, r), q)
  {
    assert table.operations - {q} - {r} == table.operations - {r} - {q};
    assert table.resolved + multiset{q} + multiset{r} == table.resolved + multiset{r} + multiset{q};
  }

  /** Resolutions of different sequences can be applied in either order. */
  lemma TryApplyCommutes(s: Exec, j: Job, k: Job)
    requires Integrity(s) && IsResolution(j) && IsResolution(k) && j.sequence != k.sequence
    requires TryApply(s, j).Applied? && TryApply(TryApply(s, j).state, k).Applied?
    ensures TryApply(s, k).Applied?
    ensures TryApply(TryApply(s, k).state, j) == TryApply(TryApply(s, j).state, k)
  {
    var pj := PlanFor(s.futures, s.table.operations, j);
    var pk := PlanFor(s.futures, s.table.operations, k);
    PlanStable(s, j, k);
    SetAllCommutes(s.futures, pj.work, pk.work);
    ApplyIs(s, j);
    ApplyIs(TryApply(s, j).state, k);
    ApplyIs(s, k);
    PlanStable(s, k, j);
    ApplyIs(TryApply(s, k).state, j);
    if pj.retire && pk.retire {
      RetireCommutes(s.table, j.sequence, k.sequence);
    }
  }

  /** Any of the jobs can be applied first. */
  lemma {:induction false} ApplyFirst(s: Exec, jobs: seq<Job>, k: nat)
    requires Integrity(s) && AllApply(s, jobs) && k < |jobs|
    ensures TryApply(s, jobs[k]).Applied?
    ensures ApplyAll(TryApply(s, jobs[k]).state, jobs[..k] + jobs[k + 1..]) == ApplyAll(s, jobs)
    decreases k
  {
    if k == 0 {
      assert jobs[..0] + jobs[1..] == jobs[1..];
    } else {
      TryApplyKeeps(s, jobs[0]);
      TailDistinct(jobs);
      ApplyFirst(TryApply(s, jobs[0]).state, jobs[1..], k - 1);
      TryApplyCommutes(s, jobs[0], jobs[k]);
      RestOf(jobs, k);
    }
  }

  lemma TailDistinct(jobs: seq<Job>)
    requires jobs != [] && DistinctSequences(jobs)
    ensures DistinctSequences(jobs[1..])
    ensures forall k :: 0 < k < |jobs| ==> jobs[1..][k - 1] == jobs[k] && jobs[k].sequence != jobs[0].sequence
  {
  }

  lemma RestOf(jobs: seq<Job>, k: nat)
    requires 0 < k < |jobs|
    ensures var rest := jobs[..k] + jobs[k + 1..];
            rest[0] == jobs[0] && rest[1..] == jobs[1..][..k - 1] + jobs[1..][k..]
  {
  }

  lemma WithoutJob(a: seq<Job>, b: seq<Job>, k: nat)
    requires b != [] && multiset(a) == multiset(b) && k < |a| && a[k] == b[0]
    ensures multiset(a[..k] + a[k + 1..]) == multiset(b[1..])
  {
    var rest := a[..k] + a[k + 1..];
    assert a == a[..k] + [a[k]] + a[k + 1..];
    assert b == [b[0]] + b[1..];
    assert multiset(a) == multiset(rest) + multiset{a[k]};
    assert multiset(b) == multiset(b[1..]) + multiset{b[0]};
    assert multiset(rest) == multiset(a) - multiset{a[k]};
  }

  lemma WithoutJobDistinct(a: seq<Job>, k: nat)
    requires DistinctSequences(a) && k < |a|
    ensures DistinctSequences(a[..k] + a[k + 1..])
  {
    var r := a[..k] + a[k + 1..];
    assert forall i :: 0 <= i < |r| ==> r[i] == if i < k then a[i] else a[i + 1];
  }

  /** Resolutions that all apply have one joint effect, in whatever order. */
  lemma {:induction false} ApplyInAnyOrder(s: Exec, a: seq<Job>, b: seq<Job>)
    requires Integrity(s) && AllApply(s, a) && multiset(a) == multiset(b)
    ensures ApplyAll(s, b) == ApplyAll(s, a)
    decreases |b|
  {
    if b == [] {
      assert |multiset(a)| == |a|;
    } else {
      assert b[0] in multiset(a);
      var k :| 0 <= k < |a| && a[k] == b[0];
      ApplyFirst(s, a, k);
      WithoutJob(a, b, k);
      WithoutJobDistinct(a, k);
      TryApplyKeeps(s, b[0]);
      ApplyInAnyOrder(TryApply(s, b[0]).state, a[..k] + a[k + 1..], b[1..]);
    }
  }

  /** When all jobs apply, one pass does it. */
  lemma {:induction false} PassAppliesAll(s: Exec, jobs: seq<Job>)
    requires ApplyAll(s, jobs).Some?
    ensures Pass(s, jobs) == PassDone(ApplyAll(s, jobs).value, [], jobs != [])
    decreases |jobs|
  {
    if jobs != [] {
      PassAppliesAll(TryApply(s, jobs[0]).state, jobs[1..]);
    }
  }

  lemma LoopAppliesAll(env: Env, s: Exec, jobs: seq<Job>, fuel: nat)
    requires s.current == None && ApplyAll(s, jobs).Some?
    ensures PendingLoop(env, s, jobs, fuel) == LoopDone(ApplyAll(s, jobs).value, if jobs == [] then 0 else 1)
  {
    PassAppliesAll(s, jobs);
  }

  lemma PreparedInAnyOrder(env: Env, s: Exec, a: seq<Job>, b: seq<Job>, fuel: nat)
    requires Integrity(s) && Reordering(a, b)
    ensures Prepared(env, s, a, fuel) == Prepared(env, s, b, fuel)
  {
    SameSignals(a, b);
    SignalsInOrder(s, Signals(a), Signals(b));
  }

  /**
   Job-order independence: when every resolution applies, without error or panic, to a sequence of its
   own at the start of the pending loop, then any reordering of the jobs gives the same result. The
   same commands are returned and the execution ends in the same state.
   */
  lemma JobOrderIndependence(env: Env, s: Exec, a: seq<Job>, b: seq<Job>, fuel: nat)
    requires Sound(s) && Reordering(a, b)
    requires var p := Prepared(env, s, a, fuel); p.Settled? ==> AllApply(p.state, Pending(a))
    ensures Activate(env, s, a, fuel) == Activate(env, s, b, fuel)
  {
    PreparedInAnyOrder(env, s, a, b, fuel);
    var p := Prepared(env, s, a, fuel);
    if p.Settled? {
      PreparedKeeps(env, s, a, fuel);
      PreparedIsIdle(env, s, a, fuel);
      ApplyInAnyOrder(p.state, Pending(a), Pending(b));
      LoopAppliesAll(env, p.state, Pending(a), fuel);
      LoopAppliesAll(env, p.state, Pending(b), fuel);
      assert |Pending(a)| == |multiset(Pending(a))| == |Pending(b)|;
    }
  }

  /**
   Without sequences of their own the order does matter: a child's start and its result are fine in
   this order, while the other order is an error.
   */
  lemma ChildStartMustComeFirst(s: Exec, q: nat, runId: string, result: Option<ChildResolution>)
    requires Integrity(s) && q in s.table.operations && s.table.operations[q].kind.Child?
    requires !s.futures[s.table.operations[q].kind.started].ready
    ensures Pass(s, [ResolveChild(q, result), ResolveChildStart(q, StartSucceeded(runId))]).PassFailed?
    ensures TryApply(s, ResolveChildStart(q, StartSucceeded(runId))).Applied? ==>
              TryApply(TryApply(s, ResolveChildStart(q, StartSucceeded(runId))).state, ResolveChild(q, result))
              != Failed
  {
    var start, done := ResolveChildStart(q, StartSucceeded(runId)), ResolveChild(q, result);
    var f := s.table.operations[q].kind.started;
    assert OperationOk(s.futures, s.table.operations[q]);
    assert PlanFor(s.futures, s.table.operations, done) == Refuse;
    if TryApply(s, start).Applied? {
      var work := PlanFor(s.futures, s.table.operations, start).work;
      SetAllDropsChains(s.futures, work);
      assert work[0].target == f;
    }
  }
}
