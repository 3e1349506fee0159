/**
 What a successful activation does with each of its jobs: none is lost or taken twice, every resolution
 retires its operation, and every query is answered at the end, in order.
 */
module JobAccounts {
  import opened Basics
  import opened Futures
  import opened Interpreter
  import opened Scheduling
  import opened Activation
  import opened Invariants
  import opened Runs
  import opened Progress
  import opened Guarantees

  // ---- Sorting ----

  /** `part` are some of the jobs, in the same order. */
  ghost predicate InOrderIn(part: seq<Job>, jobs: seq<Job>)
    decreases |jobs|
  {
    if part == [] then true
    else jobs != [] && (if part[0] == jobs[0] then InOrderIn(part[1..], jobs[1..]) else InOrderIn(part, jobs[1..]))
  }

  /** A list of later jobs, with or without the first one. */
  lemma HeadInOrder(rest: seq<Job>, jobs: seq<Job>, first: bool)
    requires jobs != [] && InOrderIn(rest, jobs[1..]) && (!first ==> jobs[0] !in rest)
    ensures InOrderIn((if first then [jobs[0]] else []) + rest, jobs)
  {
    if first {
      assert ([jobs[0]] + rest)[1..] == rest;
    } else {
      assert [] + rest == rest;
    }
  }

  lemma {:induction false} SignalsInOrder(jobs: seq<Job>)
    ensures InOrderIn(Signals(jobs), jobs) && forall j :: j in Signals(jobs) ==> j.SignalWorkflow?
  {
    if jobs != [] {
      SignalsInOrder(jobs[1..]);
      HeadInOrder(Signals(jobs[1..]), jobs, jobs[0].SignalWorkflow?);
    }
  }

  lemma {:induction false} QueriesInOrder(jobs: seq<Job>)
    ensures InOrderIn(Queries(jobs), jobs) && forall j :: j in Queries(jobs) ==> j.QueryWorkflow?
  {
    if jobs != [] {
      QueriesInOrder(jobs[1..]);
      HeadInOrder(Queries(jobs[1..]), jobs, jobs[0].QueryWorkflow?);
    }
  }

  lemma {:induction false} UpdatesInOrder(jobs: seq<Job>)
    ensures InOrderIn(Updates(jobs), jobs) && forall j :: j in Updates(jobs) ==> j.DoUpdate?
  {
    if jobs != [] {
      UpdatesInOrder(jobs[1..]);
      HeadInOrder(Updates(jobs[1..]), jobs, jobs[0].DoUpdate?);
    }
  }

  lemma {:induction false} PendingInOrder(jobs: seq<Job>)
    ensures InOrderIn(Pending(jobs), jobs) && forall j :: j in Pending(jobs) ==> IsPending(j)
  {
    if jobs != [] {
      PendingInOrder(jobs[1..]);
      HeadInOrder(Pending(jobs[1..]), jobs, IsPending(jobs[0]));
    }
  }

  lemma {:induction false} SortedOnce(jobs: seq<Job>, j: Job)
    ensures multiset(jobs)[j] == multiset(Signals(jobs))[j] + multiset(Queries(jobs))[j] + multiset(Updates(jobs))[j]
                                 + multiset(Pending(jobs))[j]
  {
    if jobs != [] {
      SortedOnce(jobs[1..], j);
      assert jobs == [jobs[0]] + jobs[1..];
    }
  }

  /** Each job is sorted into exactly one of four lists by its kind, and each list keeps the order. */
  lemma SortingLosesNothing(jobs: seq<Job>)
    ensures forall j: Job :: multiset(jobs)[j] == multiset(Signals(jobs))[j] + multiset(Queries(jobs))[j]
                                                  + multiset(Updates(jobs))[j] + multiset(Pending(jobs))[j]
    ensures forall j :: j in Signals(jobs) ==> j.SignalWorkflow?
    ensures forall j :: j in Queries(jobs) ==> j.QueryWorkflow?
    ensures forall j :: j in Updates(jobs) ==> j.DoUpdate?
    ensures forall j :: j in Pending(jobs) ==> !j.SignalWorkflow? && !j.QueryWorkflow? && !j.DoUpdate?
    ensures InOrderIn(Signals(jobs), jobs) && InOrderIn(Queries(jobs), jobs)
    ensures InOrderIn(Updates(jobs), jobs) && InOrderIn(Pending(jobs), jobs)
  {
    SignalsInOrder(jobs);
    QueriesInOrder(jobs);
    UpdatesInOrder(jobs);
    PendingInOrder(jobs);
    forall j: Job
      ensures multiset(jobs)[j] == multiset(Signals(jobs))[j] + multiset(Queries(jobs))[j] + multiset(Updates(jobs))[j]
                                   + multiset(Pending(jobs))[j]
    {
      SortedOnce(jobs, j);
    }
  }

  // ---- Resolutions ----

  /** Whether this job retires operation `q`: every resolution does but the start of a child that went well. */
  predicate Retires(job: Job, q: nat) {
    IsResolution(job) && job.sequence == q && !(job.ResolveChildStart? && job.start.StartSucceeded?)
  }

  /** How many of the jobs retire operation `q`. */
  function TimesRetired(jobs: seq<Job>, q: nat): nat {
    if jobs == [] then 0 else (if Retires(jobs[0], q) then 1 else 0) + TimesRetired(jobs[1..], q)
  }

  lemma TryApplyRetires(s: Exec, job: Job, q: nat)
    requires TryApply(s, job).Applied?
    ensures TryApply(s, job).state.table.resolved[q] == s.table.resolved[q] + (if Retires(job, q) then 1 else 0)
    ensures IsResolution(job)
  {
  }

  lemma TimesCons(job: Job, rest: seq<Job>, q: nat)
    ensures TimesRetired([job] + rest, q) == (if Retires(job, q) then 1 else 0) + TimesRetired(rest, q)
  {
    assert ([job] + rest)[1..] == rest;
  }

  /** A pass retires exactly what it does not leave over. */
  lemma {:induction false} PassRetires(s: Exec, pending: seq<Job>, q: nat)
    requires Pass(s, pending).PassDone?
    ensures var r := Pass(s, pending);
            r.state.table.resolved[q] + TimesRetired(r.remaining, q) == s.table.resolved[q] + TimesRetired(pending, q)
    decreases |pending|
  {
    if pending != [] {
      var r := TryApply(s, pending[0]);
      if r.Applied? {
        TryApplyRetires(s, pending[0], q);
        PassRetires(r.state, pending[1..], q);
      } else {
        PassRetires(s, pending[1..], q);
        TimesCons(pending[0], Pass(s, pending[1..]).remaining, q);
      }
    }
  }

  /** A pass only gets through jobs that are resolutions. */
  lemma {:induction false} PassChecks(s: Exec, pending: seq<Job>)
    requires Pass(s, pending).PassDone?
    ensures forall j :: j in pending ==> IsResolution(j)
    decreases |pending|
  {
    if pending != [] {
      UnmatchedExactly(s, pending[0]);
      var r := TryApply(s, pending[0]);
      if r.Applied? {
        TryApplyRetires(s, pending[0], 0);
      }
      PassChecks(if r.Applied? then r.state else s, pending[1..]);
    }
  }

  ghost predicate LoopRetired(s: Exec, r: LoopResult, pending: seq<Job>, q: nat) {
    r.LoopDone? ==> r.state.table.resolved[q] == s.table.resolved[q] + TimesRetired(pending, q)
  }

  lemma {:induction false} LoopRetires(env: Env, s: Exec, pending: seq<Job>, fuel: nat, q: nat)
    requires s.current == None
    ensures LoopRetired(s, PendingLoop(env, s, pending, fuel), pending, q)
    decreases |pending|, if Resting(s) then 0 else 1
  {
    if pending != [] && Pass(s, pending).PassDone? {
      PassKeepsCurrent(s, pending);
      PassRetires(s, pending, q);
      var p := Pass(s, pending);
      if p.remaining != [] {
        var d := Drive(env, p.state, fuel);
        if d.Settled? && (p.applied || !SameProgress(p.state, d.state)) {
          DriveQuiesces(env, p.state, fuel);
          DriveDriven(env, p.state, fuel);
          if !p.applied && Resting(s) {
            DriveIdle(env, p.state, fuel);
          }
          LoopRetires(env, d.state, p.remaining, fuel, q);
        }
      }
    }
  }

  lemma {:induction false} RetiredIsPending(jobs: seq<Job>, q: nat)
    ensures TimesRetired(Pending(jobs), q) == TimesRetired(jobs, q)
  {
    if jobs != [] {
      RetiredIsPending(jobs[1..], q);
      if IsPending(jobs[0]) {
        TimesCons(jobs[0], Pending(jobs[1..]), q);
      } else {
        assert Pending(jobs) == Pending(jobs[1..]);
      }
    }
  }

  lemma {:induction false} StartUpdatesTable(env: Env, s: Exec, jobs: seq<Job>)
    requires forall j :: j in jobs ==> j.DoUpdate?
    ensures StartUpdates(env, s, jobs).table == s.table
    decreases |jobs|
  {
    if jobs != [] {
      StartUpdatesTable(env, StartUpdate(env, s, jobs[0]), jobs[1..]);
    }
  }

  lemma {:induction false} DeliverAllTable(s: Exec, jobs: seq<Job>)
    requires forall j :: j in jobs ==> j.SignalWorkflow?
    ensures DeliverAll(s, jobs).table == s.table
    decreases |jobs|
  {
    if jobs != [] {
      DeliverAllTable(Deliver(s, jobs[0].name, jobs[0].input), jobs[1..]);
    }
  }

  /**
   A successful activation has applied every resolution it was given, each once: the operations that it
   retired are exactly those that its jobs name.
   */
  lemma EveryResolutionApplies(env: Env, s: Exec, jobs: seq<Job>, fuel: nat, q: nat)
    requires s.current == None && Activate(env, s, jobs, fuel).Activated?
    ensures Activate(env, s, jobs, fuel).state.table.resolved[q] == s.table.resolved[q] + TimesRetired(jobs, q)
    ensures forall j :: j in jobs ==> j.SignalWorkflow? || j.QueryWorkflow? || j.DoUpdate? || IsResolution(j)
  {
    var s0 := DeliverAll(s, Signals(jobs));
    var b := Bootstrap(env, s0, fuel);
    var ready := Prepared(env, s, jobs, fuel).state;
    DeliverAllTable(s, Signals(jobs));
    DriveDriven(env, s0, fuel);
    StartUpdatesTable(env, b.state, Updates(jobs));
    PreparedIsIdle(env, s, jobs, fuel);
    LoopRetires(env, ready, Pending(jobs), fuel, q);
    PassChecks(ready, Pending(jobs));
    var l := PendingLoop(env, ready, Pending(jobs), fuel);
    DriveDriven(env, l.state, fuel);
    AllAnswered(env, Drive(env, l.state, fuel).state, Queries(jobs));
    RetiredIsPending(jobs, q);
    PendingKeeps(jobs);
  }

  lemma {:induction false} PendingKeeps(jobs: seq<Job>)
    ensures forall j :: j in jobs && IsPending(j) ==> j in Pending(jobs)
  {
    if jobs != [] {
      PendingKeeps(jobs[1..]);
      assert forall j :: j in jobs ==> j == jobs[0] || j in jobs[1..];
    }
  }

  // ---- Queries ----

  /**
   The answers to these queries one after the other: what the handler registered for each says of the
   futures and signals in view, or none without a handler. A handler may change the memory for the next.
   */
  function AnswersOf(env: Env, handlers: map<string, Handler>, view: View, mem: Mem, jobs: seq<Job>)
    : (seq<Command>, Mem)
    decreases |jobs|
  {
    if jobs == [] || !jobs[0].QueryWorkflow? then ([], mem)
    else if jobs[0].query !in handlers then
      var rest := AnswersOf(env, handlers, view, mem, jobs[1..]);
      ([QueryResponse(jobs[0].queryId, None)] + rest.0, rest.1)
    else
      var r := env.answer(mem, view, handlers[jobs[0].query], jobs[0].arguments);
      var rest := AnswersOf(env, handlers, view, r.0, jobs[1..]);
      ([QueryResponse(jobs[0].queryId, r.1)] + rest.0, rest.1)
  }

  lemma {:induction false} AllAnswered(env: Env, s: Exec, jobs: seq<Job>)
    requires forall j :: j in jobs ==> j.QueryWorkflow?
    ensures var s' := AnswerQueries(env, s, jobs);
            var answers := AnswersOf(env, s.handlers.queries, View(s.futures, s.channels), s.mem, jobs);
            && s'.out.commands == s.out.commands + answers.0 && s'.mem == answers.1
            && s'.table == s.table && s'.futures == s.futures && s'.channels == s.channels && s'.handlers == s.handlers
    decreases |jobs|
  {
    if jobs != [] {
      AllAnswered(env, AnswerQuery(env, s, jobs[0]), jobs[1..]);
    }
  }

  /**
   The last commands of a successful activation are the answers to its queries, one each and in job order.
   They see the futures, signals and handlers that the activation ends with, and leave it their memory.
   */
  lemma QueriesSeeTheEnd(env: Env, s: Exec, jobs: seq<Job>, fuel: nat) returns (front: seq<Command>, mem: Mem)
    requires s.current == None && Activate(env, s, jobs, fuel).Activated?
    ensures var r := Activate(env, s, jobs, fuel);
            var s' := r.state;
            var answers := AnswersOf(env, s'.handlers.queries, View(s'.futures, s'.channels), mem, Queries(jobs));
            r.commands == front + answers.0 && s'.mem == answers.1
  {
    PreparedIsIdle(env, s, jobs, fuel);
    var l := PendingLoop(env, Prepared(env, s, jobs, fuel).state, Pending(jobs), fuel);
    var d := Drive(env, l.state, fuel).state;
    front, mem := d.out.commands, d.mem;
    AllAnswered(env, d, Queries(jobs));
  }

  // ---- The course of an activation ----

  /** An execution that was not started, or was stopped, refuses every activation unchanged. */
  lemma StoppedRefuses(env: Env, s: Exec, jobs: seq<Job>, fuel: nat)
    requires s.current == None && (s.life.stopped || !s.life.started)
    ensures Activate(env, s, jobs, fuel) == ActivationFailed(s)
  {
  }

  /**
   Before the first update is looked at the workflow has run to rest once, so its handlers are registered;
   in later activations nothing but signals comes before updates.
   */
  lemma HandlersRegisterFirst(env: Env, s: Exec, jobs: seq<Job>, fuel: nat)
    requires s.current == None && Activate(env, s, jobs, fuel).Activated?
    ensures var before := Bootstrap(env, DeliverAll(s, Signals(jobs)), fuel).state;
            && before.life.bootstrapped
            && (if s.life.bootstrapped then before == DeliverAll(s, Signals(jobs))
                else before.terminal || forall c :: 0 <= c < |before.coroutines| ==> Parked(before, before.coroutines[c]))
            && Prepared(env, s, jobs, fuel) == Settled(StartUpdates(env, before, Updates(jobs)))
  {
    var s0 := DeliverAll(s, Signals(jobs));
    if !s.life.bootstrapped {
      DriveQuiesces(env, s0, fuel);
      var d := Drive(env, s0, fuel).state;
      var before := Bootstrap(env, s0, fuel).state;
      if !d.terminal {
        assert forall c :: 0 <= c < |d.coroutines| ==> Parked(d, d.coroutines[c]) && before.coroutines[c] == d.coroutines[c];
      }
    }
  }

  /**
   With jobs left over, the loop gives up exactly when nothing applied and the `drive` after the pass
   scheduled nothing: same last number and same number of operations. Otherwise it tries what is left.
   */
  lemma GivesUpExactly(env: Env, s: Exec, pending: seq<Job>, fuel: nat)
    requires s.current == None && Pass(s, pending).PassDone? && Pass(s, pending).remaining != []
    requires Drive(env, Pass(s, pending).state, fuel).Settled?
    ensures var p := Pass(s, pending);
            var d := Drive(env, p.state, fuel).state;
            && d.current == None
            && PendingLoop(env, s, pending, fuel)
               == (if !p.applied && d.table.nextSequence == p.state.table.nextSequence
                      && |d.table.operations| == |p.state.table.operations|
                   then LoopFailed(d, 1)
                   else match PendingLoop(env, d, p.remaining, fuel)
                        case LoopStarved => LoopStarved
                        case LoopFailed(e, n) => LoopFailed(e, n + 1)
                        case LoopBroken(e, n) => LoopBroken(e, n + 1)
                        case LoopDone(e, n) => LoopDone(e, n + 1))
  {
    PassKeepsCurrent(s, pending);
    DriveQuiesces(env, Pass(s, pending).state, fuel);
  }
}
