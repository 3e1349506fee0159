/** Accepted updates run before any ordinary workflow code of the activation. */
module UpdatePriority {
  import opened Basics
  import opened Futures
  import opened Interpreter
  import opened Scheduling
  import opened Activation
  import opened Invariants
  import opened Preservation
  import opened Runs
  import opened Progress
  import opened Guarantees

  // ---- What a slice leaves alone ----

  /** Another coroutine ran: `c` may have changed, nobody was resumed, new coroutines may follow. */
  ghost predicate OnlyTouches(s1: Exec, s2: Exec, c: nat) {
    && |s1.coroutines| <= |s2.coroutines|
    && (forall d :: 0 <= d < |s1.coroutines| && d != c ==> s2.coroutines[d] == s1.coroutines[d])
    && c < |s1.coroutines| && s2.coroutines[c].kind == s1.coroutines[c].kind
    && s1.out.trace <= s2.out.trace
    && (forall k :: |s1.out.trace| <= k < |s2.out.trace| ==> !s2.out.trace[k].Resumed?)
    && (s1.coroutines[c].kind != Root ==> s2.terminal == s1.terminal)
  }

  lemma OnlyTouchesTrans(s1: Exec, s2: Exec, s3: Exec, c: nat)
    requires OnlyTouches(s1, s2, c) && OnlyTouches(s2, s3, c)
    ensures OnlyTouches(s1, s3, c)
  {
  }

  lemma PerformScheduleTouches(env: Env, s: Exec, c: nat, action: Action)
    requires c < |s.coroutines|
    ensures OnlyTouches(s, PerformSchedule(env, s, c, action), c)
  {
  }

  lemma PerformLocalTouches(s: Exec, c: nat, action: Action)
    requires c < |s.coroutines|
    ensures OnlyTouches(s, PerformLocal(s, c, action), c)
  {
  }

  lemma WaitTouches(s: Exec, c: nat, f: FutureId, name: string)
    requires c < |s.coroutines|
    ensures OnlyTouches(s, PerformGet(s, c, f).0, c) && OnlyTouches(s, PerformReceive(s, c, name).0, c)
  {
  }

  lemma EndTouches(s: Exec, c: nat, outcome: Outcome)
    requires c < |s.coroutines|
    ensures OnlyTouches(s, PerformReturn(s, c, outcome), c)
    ensures s.coroutines[c].kind == Root ==> OnlyTouches(s, FailExecution(s, CoroutinePanicked), c)
  {
  }

  lemma PerformTouches(env: Env, s: Exec, c: nat, action: Action)
    requires c < |s.coroutines|
    ensures OnlyTouches(s, Perform(env, s, c, action).0, c)
  {
    match action
    case NewTimer(_) => PerformScheduleTouches(env, s, c, action);
    case ExecuteActivity(_) => PerformScheduleTouches(env, s, c, action);
    case ExecuteLocalActivity(_) => PerformScheduleTouches(env, s, c, action);
    case ExecuteChild(_) => PerformScheduleTouches(env, s, c, action);
    case Get(f) => WaitTouches(s, c, f, "");
    case Receive(name) => WaitTouches(s, c, 0, name);
    case Return(outcome) => EndTouches(s, c, outcome);
    case Panic => EndTouches(s, c, UNSET);
    case _ => PerformLocalTouches(s, c, action);
  }

  lemma {:induction false} SliceTouches(env: Env, s: Exec, c: nat, fuel: nat)
    requires c < |s.coroutines| && Slice(env, s, c, fuel).Sliced?
    ensures OnlyTouches(s, Slice(env, s, c, fuel).state, c)
    decreases fuel
  {
    var move := env.step(s.mem, s.coroutines[c].local, ResponseFor(s, c));
    var s1 := Advance(s, c, move);
    PerformTouches(env, s1, c, move.action);
    var (s', end) := Perform(env, s1, c, move.action);
    OnlyTouchesTrans(s, s1, s', c);
    if end == Continue {
      SliceTouches(env, s', c, fuel - 1);
      OnlyTouchesTrans(s, s', Slice(env, s', c, fuel - 1).state, c);
    }
  }

  // ---- The high-priority pass ----

  /** A coroutine that has not run yet. */
  predicate Unstarted(co: Coroutine) {
    co.highPriority && !co.done && co.waiting == None
  }

  ghost predicate Before(part: seq<Event>, k: nat, b: nat) {
    exists j :: 0 <= j < k && j < |part| && part[j] == Resumed(b)
  }

  /** What the pass has done when it reaches coroutine `i`: only high-priority ones before `i` ran. */
  ghost predicate PassSoFar(part: seq<Event>, first: nat, i: nat, coroutines: seq<Coroutine>) {
    && (forall k :: 0 <= k < |part| && part[k].Resumed? ==>
          part[k].coroutine < i && part[k].coroutine < |coroutines| && coroutines[part[k].coroutine].highPriority)
    && (forall b :: first <= b < i ==> Before(part, |part|, b))
    && (forall k, b :: 0 <= k < |part| && part[k].Resumed? && first <= b < part[k].coroutine ==> Before(part, k, b))
  }

  /**
   `part` of the trace begins with a stretch in which only high-priority coroutines run, and in which
   each of the coroutines `first..last` runs, in this order.
   */
  ghost predicate HandlersFirst(part: seq<Event>, first: nat, last: nat, coroutines: seq<Coroutine>) {
    exists cut :: 0 <= cut <= |part| && PassSoFar(part[..cut], first, last, coroutines)
  }

  lemma PassResumes(part: seq<Event>, more: seq<Event>, first: nat, i: nat, coroutines: seq<Coroutine>)
    requires PassSoFar(part, first, i, coroutines) && i < |coroutines| && coroutines[i].highPriority
    requires forall k :: 0 <= k < |more| ==> !more[k].Resumed?
    ensures PassSoFar(part + [Resumed(i)] + more, first, i + 1, coroutines)
  {
    var part' := part + [Resumed(i)] + more;
    assert part'[|part|] == Resumed(i);
    forall k, b | 0 <= k <= |part| && Before(part, k, b)
      ensures Before(part', k, b) && Before(part', |part'|, b)
    {
      var j :| 0 <= j < k && j < |part| && part[j] == Resumed(b);
      assert part'[j] == Resumed(b);
    }
    forall b | first <= b < i + 1
      ensures Before(part', |part'|, b)
    {
      if b < i {
        assert Before(part, |part|, b);
      }
    }
    forall k, b | 0 <= k < |part'| && part'[k].Resumed? && first <= b < part'[k].coroutine
      ensures Before(part', k, b)
    {
      if k < |part| {
        assert part'[k] == part[k];
        assert Before(part, k, b);
      } else {
        assert k == |part|;
        assert Before(part, |part|, b);
      }
    }
  }

  lemma HandlersFirstExtends(part: seq<Event>, whole: seq<Event>, first: nat, last: nat,
                             c1: seq<Coroutine>, c2: seq<Coroutine>)
    requires HandlersFirst(part, first, last, c1) && part <= whole && CoroutinesLater(c1, c2)
    ensures HandlersFirst(whole, first, last, c2)
  {
    var cut :| 0 <= cut <= |part| && PassSoFar(part[..cut], first, last, c1);
    assert whole[..cut] == part[..cut];
    assert PassSoFar(whole[..cut], first, last, c2);
  }

  /** So an ordinary coroutine runs only after all the handlers have had their first slice. */
  lemma OrdinaryRunsLater(part: seq<Event>, first: nat, last: nat, coroutines: seq<Coroutine>, k: nat, b: nat)
    requires HandlersFirst(part, first, last, coroutines) && first <= b < last
    requires k < |part| && part[k].Resumed? && part[k].coroutine < |coroutines|
    requires !coroutines[part[k].coroutine].highPriority
    ensures Before(part, k, b)
  {
    var cut :| 0 <= cut <= |part| && PassSoFar(part[..cut], first, last, coroutines);
    assert forall m :: 0 <= m < cut ==> part[..cut][m] == part[m];
    assert Before(part[..cut], |part[..cut]|, b);
    var j :| 0 <= j < cut && part[..cut][j] == Resumed(b);
    assert part[j] == Resumed(b);
  }

  /** A high-priority turn neither ends the workflow nor lets `drive` return, except by an error. */
  lemma HighTurn(env: Env, s: Exec, i: nat, fuel: nat)
    requires Live(s) && i < |s.coroutines| && s.coroutines[i].highPriority && !s.coroutines[i].done
    ensures var r := Turn(env, s, i, fuel);
            && (r.TurnReturns? ==> r.result.Errored?)
            && (r.TurnGoes? ==>
                  && Live(r.state) && CoroutinesLater(s.coroutines, r.state.coroutines)
                  && (forall d :: 0 <= d < |s.coroutines| && d != i ==> r.state.coroutines[d] == s.coroutines[d])
                  && s.out.trace + [Resumed(i)] <= r.state.out.trace
                  && forall k :: |s.out.trace| < k < |r.state.out.trace| ==> !r.state.out.trace[k].Resumed?)
  {
    TurnKeeps(env, s, i, fuel);
    TurnDriven(env, s, i, fuel);
    var entered := Enter(s, i);
    var r := Slice(env, entered, i, fuel);
    if r.Sliced? {
      SliceTouches(env, entered, i, fuel);
      SliceDriven(env, entered, i, fuel);
      assert s.coroutines[i].kind != Root;
    }
  }

  /** The pass has reached coroutine `i` and the handlers from there on have not run yet. */
  ghost predicate InPass(s: Exec, i: nat, n: nat, start: nat, first: nat) {
    && Live(s) && i <= n <= |s.coroutines| && first <= n && start <= |s.out.trace|
    && PassSoFar(s.out.trace[start..], first, i, s.coroutines)
    && forall b :: first <= b < n && i <= b ==> Unstarted(s.coroutines[b])
  }

  ghost predicate PassResult(r: DriveResult, n: nat, start: nat, first: nat) {
    r.Settled? ==>
      start <= |r.state.out.trace| && HandlersFirst(r.state.out.trace[start..], first, n, r.state.coroutines)
  }

  lemma {:induction false} HighPass(
    env: Env, s: Exec, i: nat, n: nat, progressed: bool, fuel: nat, start: nat, first: nat)
    requires InPass(s, i, n, start, first)
    ensures PassResult(DriveFrom(env, s, true, i, n, progressed, fuel), n, start, first)
    decreases fuel
  {
    if fuel > 0 {
      if i == n {
        PassEnd(env, s, n, progressed, fuel, start, first);
      } else if s.coroutines[i].highPriority && Runnable(s, i) {
        var r := Turn(env, s, i, fuel - 1);
        HighPassTurn(env, s, i, n, fuel - 1, start, first);
        if r.TurnGoes? {
          HighPass(env, r.state, i + 1, n, true, fuel - 1, start, first);
        }
      } else {
        assert i < first;
        HighPass(env, s, i + 1, n, progressed, fuel - 1, start, first);
      }
    }
  }

  lemma HighPassTurn(env: Env, s: Exec, i: nat, n: nat, fuel: nat, start: nat, first: nat)
    requires InPass(s, i, n, start, first) && i < n && s.coroutines[i].highPriority && Runnable(s, i)
    ensures var r := Turn(env, s, i, fuel);
            && (r.TurnReturns? ==> r.result.Errored?)
            && (r.TurnGoes? ==> InPass(r.state, i + 1, n, start, first))
  {
    HighTurn(env, s, i, fuel);
    var r := Turn(env, s, i, fuel);
    if r.TurnGoes? {
      HighPassStep(s, r.state, i, start, first);
    }
  }

  lemma PassEnd(env: Env, s: Exec, n: nat, progressed: bool, fuel: nat, start: nat, first: nat)
    requires InPass(s, n, n, start, first)
    ensures PassResult(DriveFrom(env, s, true, n, n, progressed, fuel), n, start, first)
  {
    DriveFromDriven(env, s, true, n, n, progressed, fuel);
    var r := DriveFrom(env, s, true, n, n, progressed, fuel);
    if r.Settled? {
      var part := s.out.trace[start..];
      assert part <= r.state.out.trace[start..] && part[..|part|] == part;
      HandlersFirstExtends(part, r.state.out.trace[start..], first, n, s.coroutines, r.state.coroutines);
    }
  }

  lemma HighPassStep(s: Exec, s': Exec, i: nat, start: nat, first: nat)
    requires i < |s.coroutines| && s.coroutines[i].highPriority && start <= |s.out.trace|
    requires PassSoFar(s.out.trace[start..], first, i, s.coroutines)
    requires CoroutinesLater(s.coroutines, s'.coroutines)
    requires s.out.trace + [Resumed(i)] <= s'.out.trace
    requires forall k :: |s.out.trace| < k < |s'.out.trace| ==> !s'.out.trace[k].Resumed?
    ensures PassSoFar(s'.out.trace[start..], first, i + 1, s'.coroutines)
  {
    var t, t' := s.out.trace, s'.out.trace;
    var more := t'[|t| + 1..];
    assert t' == t + [Resumed(i)] + more;
    assert t'[start..] == t[start..] + [Resumed(i)] + more;
    assert forall k :: 0 <= k < |more| ==> more[k] == t'[|t| + 1 + k];
    PassResumes(t[start..], more, first, i, s.coroutines);
  }

  // ---- The activation ----

  /** What starting an update looks at, next to the memory of the workflow: none of it changes meanwhile. */
  datatype Scene = Scene(env: Env, handlers: map<string, UpdateHandler>, futures: Store, channels: map<string, Channel>)

  function SceneOf(env: Env, s: Exec): Scene {
    Scene(env, s.handlers.updates, s.futures, s.channels)
  }

  /** There is a handler, and it takes the arguments. */
  predicate Takes(x: Scene, job: Job)
    requires job.DoUpdate?
  {
    job.update in x.handlers && x.env.decode(x.handlers[job.update].handler, job.arguments).Some?
  }

  /** The validator is to run and there is one. */
  predicate IsValidated(x: Scene, job: Job)
    requires job.DoUpdate? && Takes(x, job)
  {
    job.runValidator && x.handlers[job.update].validator.Some?
  }

  /** What the validator says, and the memory it leaves. */
  function Verdict(x: Scene, mem: Mem, job: Job): (Mem, bool)
    requires job.DoUpdate? && Takes(x, job)
  {
    if IsValidated(x, job) then
      x.env.validate(mem, View(x.futures, x.channels), x.handlers[job.update].validator.value,
                     x.env.decode(x.handlers[job.update].handler, job.arguments).value)
    else (mem, true)
  }

  /** An update is acceptable when it is registered, decodable and passes its validator. */
  predicate Acceptable(x: Scene, mem: Mem, job: Job)
    requires job.DoUpdate?
  {
    Takes(x, job) && Verdict(x, mem, job).1
  }

  function MemAfter(x: Scene, mem: Mem, job: Job): Mem
    requires job.DoUpdate?
  {
    if Takes(x, job) then Verdict(x, mem, job).0 else mem
  }

  /** An accepted update and the body that is to run for it. */
  datatype Begun = Begun(protocolId: string, body: Local)

  function BegunBy(x: Scene, mem: Mem, job: Job): seq<Begun>
    requires job.DoUpdate?
  {
    if Acceptable(x, mem, job)
    then [Begun(job.protocolId, x.env.decode(x.handlers[job.update].handler, job.arguments).value)] else []
  }

  function ReplyTo(x: Scene, mem: Mem, job: Job): Command
    requires job.DoUpdate?
  {
    UpdateResponse(job.protocolId, if Acceptable(x, mem, job) then Accepted else Rejected)
  }

  /** The acceptable updates among `jobs`, in job order; validators may change the memory on the way. */
  function AllBegun(x: Scene, mem: Mem, jobs: seq<Job>): seq<Begun>
    requires forall j :: j in jobs ==> j.DoUpdate?
    decreases |jobs|
  {
    if jobs == [] then [] else BegunBy(x, mem, jobs[0]) + AllBegun(x, MemAfter(x, mem, jobs[0]), jobs[1..])
  }

  /** One reply per update, in job order. */
  function AllReplies(x: Scene, mem: Mem, jobs: seq<Job>): (replies: seq<Command>)
    requires forall j :: j in jobs ==> j.DoUpdate?
    ensures |replies| == |jobs|
    decreases |jobs|
  {
    if jobs == [] then [] else [ReplyTo(x, mem, jobs[0])] + AllReplies(x, MemAfter(x, mem, jobs[0]), jobs[1..])
  }

  /** `c2` is `c1` followed by one unstarted handler for each accepted update, with its decoded arguments. */
  ghost predicate Bodies(c1: seq<Coroutine>, c2: seq<Coroutine>, begun: seq<Begun>) {
    && |c2| == |c1| + |begun| && c1 <= c2
    && forall b :: |c1| <= b < |c2| ==>
         && c2[b].kind == UpdateBody(begun[b - |c1|].protocolId) && c2[b].local == begun[b - |c1|].body
         && c2[b].resume == Answered(Begin) && Unstarted(c2[b])
  }

  /**
   An update is accepted, and its handler added with the decoded arguments, exactly when it is
   acceptable; otherwise it is rejected and nothing is added.
   */
  lemma AcceptedExactly(env: Env, s: Exec, job: Job)
    requires job.DoUpdate?
    ensures var s' := StartUpdate(env, s, job);
            var x := SceneOf(env, s);
            && s'.out.commands == s.out.commands + [ReplyTo(x, s.mem, job)]
            && Bodies(s.coroutines, s'.coroutines, BegunBy(x, s.mem, job))
            && s'.mem == MemAfter(x, s.mem, job) && SceneOf(env, s') == x
            && s'.table == s.table && s'.terminal == s.terminal
  {
  }

  lemma BodiesTrans(c1: seq<Coroutine>, c2: seq<Coroutine>, c3: seq<Coroutine>, a: seq<Begun>, b: seq<Begun>)
    requires Bodies(c1, c2, a) && Bodies(c2, c3, b)
    ensures Bodies(c1, c3, a + b)
  {
  }

  /** Starting updates replies to each and appends one handler per acceptable update, in job order. */
  lemma {:induction false} BodiesInJobOrder(env: Env, s: Exec, jobs: seq<Job>)
    requires forall j :: j in jobs ==> j.DoUpdate?
    ensures var s' := StartUpdates(env, s, jobs);
            && s'.terminal == s.terminal
            && s'.out.commands == s.out.commands + AllReplies(SceneOf(env, s), s.mem, jobs)
            && Bodies(s.coroutines, s'.coroutines, AllBegun(SceneOf(env, s), s.mem, jobs))
    decreases |jobs|
  {
    if jobs != [] {
      var x := SceneOf(env, s);
      var s1 := StartUpdate(env, s, jobs[0]);
      AcceptedExactly(env, s, jobs[0]);
      BodiesInJobOrder(env, s1, jobs[1..]);
      BodiesTrans(s.coroutines, s1.coroutines, StartUpdates(env, s1, jobs[1..]).coroutines,
                  BegunBy(x, s.mem, jobs[0]), AllBegun(x, s1.mem, jobs[1..]));
    }
  }

  lemma DriveHandlersFirst(env: Env, s: Exec, fuel: nat, first: nat)
    requires Live(s) && first <= |s.coroutines|
    requires forall b :: first <= b < |s.coroutines| ==> Unstarted(s.coroutines[b])
    ensures PassResult(Drive(env, s, fuel), |s.coroutines|, |s.out.trace|, first)
  {
    if !s.terminal {
      assert s.out.trace[|s.out.trace|..] == [];
      HighPass(env, s, 0, |s.coroutines|, false, fuel, |s.out.trace|, first);
    }
  }

  lemma ResultExtends(s: Exec, s': Exec, n: nat, start: nat, first: nat)
    requires PassResult(Settled(s), n, start, first) && Grows(s, s')
    ensures PassResult(Settled(s'), n, start, first)
  {
    assert s.out.trace[start..] <= s'.out.trace[start..];
    HandlersFirstExtends(s.out.trace[start..], s'.out.trace[start..], first, n, s.coroutines, s'.coroutines);
  }

  /** The drive at the end of an activation, from a state whose handlers have not run yet. */
  lemma FinishHandlersFirst(env: Env, s: Exec, queries: seq<Job>, fuel: nat, first: nat)
    requires Live(s) && first <= |s.coroutines| && forall j :: j in queries ==> j.QueryWorkflow?
    requires forall b :: first <= b < |s.coroutines| ==> Unstarted(s.coroutines[b])
    requires Activation.Finish(env, s, queries, fuel).Activated?
    ensures PassResult(Settled(Activation.Finish(env, s, queries, fuel).state), |s.coroutines|, |s.out.trace|, first)
  {
    var d := Drive(env, s, fuel);
    DriveHandlersFirst(env, s, fuel, first);
    AnswerQueriesLater(env, d.state, queries);
    var r := Activation.Finish(env, s, queries, fuel);
    assert Grows(d.state, r.state);
    ResultExtends(d.state, r.state, |s.coroutines|, |s.out.trace|, first);
  }

  /** The rest of an activation, from a state whose handlers have not run yet. */
  lemma RestHandlersFirst(env: Env, s: Exec, pending: seq<Job>, queries: seq<Job>, fuel: nat, first: nat)
    requires Live(s) && s.current == None && first <= |s.coroutines|
    requires forall j :: j in queries ==> j.QueryWorkflow?
    requires forall b :: first <= b < |s.coroutines| ==> Unstarted(s.coroutines[b])
    requires var l := PendingLoop(env, s, pending, fuel);
             l.LoopDone? && Activation.Finish(env, l.state, queries, fuel).Activated?
    ensures var l := PendingLoop(env, s, pending, fuel);
            PassResult(Settled(Activation.Finish(env, l.state, queries, fuel).state),
                       |s.coroutines|, |s.out.trace|, first)
  {
    var l := PendingLoop(env, s, pending, fuel);
    var p := Pass(s, pending);
    if pending == [] {
      FinishHandlersFirst(env, s, queries, fuel, first);
    } else {
      PassKeeps(s, pending);
      PassLater(s, pending);
      PassKeepsTerminal(s, pending);
      PassKeepsCurrent(s, pending);
      if p.remaining == [] {
        FinishHandlersFirst(env, p.state, queries, fuel, first);
      } else {
        var d := Drive(env, p.state, fuel).state;
        DriveHandlersFirst(env, p.state, fuel, first);
        DriveQuiesces(env, p.state, fuel);
        if !p.applied && Resting(s) {
          DriveIdle(env, p.state, fuel);
        }
        PendingLoopLater(env, d, p.remaining, fuel);
        FinishLater(env, l.state, queries, fuel);
        var r := Activation.Finish(env, l.state, queries, fuel);
        GrowsTrans(d, l.state, r.state.(out := r.state.out.(sent := l.state.out.sent)));
        ResultExtends(d, r.state, |s.coroutines|, |s.out.trace|, first);
      }
    }
  }

  lemma {:induction false} PassKeepsTerminal(s: Exec, pending: seq<Job>)
    ensures Pass(s, pending).state.terminal == s.terminal
    decreases |pending|
  {
    if pending != [] {
      var r := TryApply(s, pending[0]);
      if r.Applied? {
        PassKeepsTerminal(r.state, pending[1..]);
      } else if r.Unmatched? {
        PassKeepsTerminal(s, pending[1..]);
      }
    }
  }

  /**
   In a successful activation that finds the workflow running, the handler of each accepted update gets
   its first slice, in job order, before any ordinary coroutine runs again.
   */
  lemma UpdatesRunFirst(env: Env, s: Exec, jobs: seq<Job>, fuel: nat)
    requires Sound(s) && Activate(env, s, jobs, fuel).Activated?
    requires !Prepared(env, s, jobs, fuel).state.terminal
    ensures var before := Bootstrap(env, DeliverAll(s, Signals(jobs)), fuel).state;
            var ready := Prepared(env, s, jobs, fuel).state;
            var after := Activate(env, s, jobs, fuel).state;
            var x := SceneOf(env, before);
            && ready.out.commands == before.out.commands + AllReplies(x, before.mem, Updates(jobs))
            && Bodies(before.coroutines, ready.coroutines, AllBegun(x, before.mem, Updates(jobs)))
            && ready.out.trace <= after.out.trace
            && HandlersFirst(after.out.trace[|ready.out.trace|..], |before.coroutines|, |ready.coroutines|,
                             after.coroutines)
  {
    var before := Bootstrap(env, DeliverAll(s, Signals(jobs)), fuel).state;
    var ready := Prepared(env, s, jobs, fuel).state;
    BodiesInJobOrder(env, before, Updates(jobs));
    PreparedKeeps(env, s, jobs, fuel);
    PreparedIsIdle(env, s, jobs, fuel);
    RestHandlersFirst(env, ready, Pending(jobs), Queries(jobs), fuel, |before.coroutines|);
    PendingLoopLater(env, ready, Pending(jobs), fuel);
    var l := PendingLoop(env, ready, Pending(jobs), fuel);
    FinishLater(env, l.state, Queries(jobs), fuel);
  }
}
