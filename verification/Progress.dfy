/**
 What no step ever takes back: the trace only grows, a completed future keeps its outcome, a coroutine
 that is done stays done, and a workflow that is over stays over. This holds on every path, also on
 those that end in an error or a panic, and needs no invariant.
 */
module Progress {
  import opened Basics
  import opened Futures
  import opened Interpreter
  import opened Scheduling
  import opened Activation
  import opened Invariants

  ghost predicate StoreLater(h1: Store, h2: Store) {
    && |h1| <= |h2|
    && forall f :: 0 <= f < |h1| ==>
         h2[f].role == h1[f].role && (h1[f].ready ==> h2[f].ready && h2[f].outcome == h1[f].outcome)
  }

  ghost predicate CoroutinesLater(c1: seq<Coroutine>, c2: seq<Coroutine>) {
    && |c1| <= |c2|
    && forall c :: 0 <= c < |c1| ==>
         && c2[c].kind == c1[c].kind && c2[c].highPriority == c1[c].highPriority
         && (c1[c].done ==> c2[c].done)
  }

  function DeliveredTo(channels: map<string, Channel>, name: string): seq<seq<Payload>> {
    if name in channels then channels[name].delivered else []
  }

  /** `s2` comes after `s1`. */
  ghost predicate Grows(s1: Exec, s2: Exec) {
    && s1.out.trace <= s2.out.trace
    && StoreLater(s1.futures, s2.futures)
    && CoroutinesLater(s1.coroutines, s2.coroutines)
    && (s1.terminal ==> s2.terminal)
    && s1.table.resolved <= s2.table.resolved
  }

  /** `s2` comes after `s1` in the same activation. */
  ghost predicate Later(s1: Exec, s2: Exec) {
    Grows(s1, s2) && s2.out.sent == s1.out.sent
  }

  /** ... and only workflow code ran in between: no update was begun, no signal delivered. */
  ghost predicate Driven(s1: Exec, s2: Exec) {
    && Later(s1, s2)
    && s1.table.resolved == s2.table.resolved
    && (forall p :: Begins(s2.out.trace, p) == Begins(s1.out.trace, p))
    && (forall n :: DeliveredTo(s2.channels, n) == DeliveredTo(s1.channels, n))
  }

  lemma LaterTrans(s1: Exec, s2: Exec, s3: Exec)
    requires Later(s1, s2) && Later(s2, s3)
    ensures Later(s1, s3)
  {
  }

  lemma DrivenTrans(s1: Exec, s2: Exec, s3: Exec)
    requires Driven(s1, s2) && Driven(s2, s3)
    ensures Driven(s1, s3)
  {
    LaterTrans(s1, s2, s3);
  }

  // ---- Slices ----

  lemma AnswerDriven(s1: Exec, s2: Exec, c: nat, response: Response)
    requires c < |s2.coroutines| && Driven(s1, s2)
    ensures Driven(s1, Answer(s2, c, response))
  {
  }

  lemma EmitDriven(s: Exec, command: Command)
    ensures Driven(s, Emit(s, command))
  {
    TraceAppend(s.out.trace, Emitted(command));
  }

  lemma ScheduleDriven(s: Exec, operation: Operation, command: Command)
    ensures Driven(s, Schedule(s, operation, command))
  {
    TraceAppend(s.out.trace, Emitted(command));
  }

  lemma StartDriven(env: Env, s: Exec, action: Action)
    ensures action.NewTimer? ==> Driven(s, StartTimerOp(s, action.duration))
    ensures action.ExecuteActivity? ==> Driven(s, StartActivityOp(s, action.activity))
    ensures action.ExecuteLocalActivity? ==> Driven(s, StartLocalActivityOp(s, action.activity))
    ensures action.ExecuteChild? ==> Driven(s, StartChildOp(env, s, action.child))
  {
    var f := |s.futures|;
    var q := NextSequence(s);
    match action
    case NewTimer(duration) =>
      if duration >= 0 {
        ScheduleDriven(Allocate(s, Runtime), Operation(Timer, f), StartTimer(q, duration));
      }
    case ExecuteActivity(request) =>
      ScheduleDriven(Allocate(s, Runtime), Operation(Activity, f), ScheduleActivity(q, request));
    case ExecuteLocalActivity(request) =>
      ScheduleDriven(Allocate(s, Runtime), Operation(LocalActivity, f), ScheduleLocalActivity(q, request));
    case ExecuteChild(request) =>
      var id := ChildId(env.runId, request, q);
      ScheduleDriven(Allocate(Allocate(s, Runtime), Runtime), Operation(Child(f + 1, id), f),
                     StartChild(q, request, id));
    case _ =>
  }

  lemma PerformScheduleDriven(env: Env, s: Exec, c: nat, action: Action)
    requires c < |s.coroutines|
    ensures Driven(s, PerformSchedule(env, s, c, action))
  {
    var f := |s.futures|;
    StartDriven(env, s, action);
    match action
    case NewTimer(duration) => AnswerDriven(s, StartTimerOp(s, duration), c, Ref(f));
    case ExecuteActivity(request) => AnswerDriven(s, StartActivityOp(s, request), c, Ref(f));
    case ExecuteLocalActivity(request) => AnswerDriven(s, StartLocalActivityOp(s, request), c, Ref(f));
    case ExecuteChild(request) => AnswerDriven(s, StartChildOp(env, s, request), c, ChildRef(f, f + 1));
    case _ =>
  }

  lemma SetDriven(s: Exec, c: nat, f: FutureId, outcome: Outcome)
    requires c < |s.coroutines|
    ensures Driven(s, SetManual(s, c, f, outcome))
  {
    assert Driven(s, s.(futures := SetOne(s.futures, f, outcome).0));
  }

  lemma TakeDriven(s: Exec, name: string)
    ensures Driven(s, s.(channels := s.channels[name := TakeFrom(ChannelOf(s, name)).0]))
  {
  }

  lemma ReceiveDriven(s: Exec, c: nat, name: string)
    requires c < |s.coroutines|
    ensures Driven(s, PerformReceive(s, c, name).0)
  {
    var taken := TakeFrom(ChannelOf(s, name));
    TakeDriven(s, name);
    if taken.1.Some? {
      AnswerDriven(s, s.(channels := s.channels[name := taken.0]), c, Received(SignalValue(taken.1.value)));
    }
  }

  lemma PerformLocalDriven(s: Exec, c: nat, action: Action)
    requires c < |s.coroutines|
    ensures Driven(s, PerformLocal(s, c, action))
  {
    match action
    case SetFuture(f, outcome) => SetDriven(s, c, f, outcome);
    case ChainFuture(f, other) =>
      if Settable(s, f) && Known(s, other) && !s.futures[f].ready {
        SetDriven(s, c, f, s.futures[other].outcome);
      }
    case ReceiveAsync(name) =>
      TakeDriven(s, name);
      var taken := TakeFrom(ChannelOf(s, name));
      AnswerDriven(s, s.(channels := s.channels[name := taken.0]), c, MaybeReceived(taken.1));
    case _ =>
  }

  lemma GetDriven(s: Exec, c: nat, f: FutureId)
    requires c < |s.coroutines|
    ensures Driven(s, PerformGet(s, c, f).0)
  {
  }

  lemma FailDriven(s: Exec, fault: Fault)
    ensures Driven(s, s) && Driven(s, FailExecution(s, fault))
  {
    EmitDriven(s, FailWorkflow(fault));
  }

  lemma PerformDriven(env: Env, s: Exec, c: nat, action: Action)
    requires c < |s.coroutines|
    ensures Driven(s, Perform(env, s, c, action).0)
  {
    match action
    case Receive(name) => ReceiveDriven(s, c, name);
    case Get(f) => GetDriven(s, c, f);
    case Return(outcome) => ReturnDriven(s, c, outcome);
    case Panic => FailDriven(s, CoroutinePanicked);
    case NewTimer(_) => PerformScheduleDriven(env, s, c, action);
    case ExecuteActivity(_) => PerformScheduleDriven(env, s, c, action);
    case ExecuteLocalActivity(_) => PerformScheduleDriven(env, s, c, action);
    case ExecuteChild(_) => PerformScheduleDriven(env, s, c, action);
    case _ => PerformLocalDriven(s, c, action);
  }

  lemma ReturnDriven(s: Exec, c: nat, outcome: Outcome)
    requires c < |s.coroutines|
    ensures Driven(s, PerformReturn(s, c, outcome))
  {
    match s.coroutines[c].kind
    case Root =>
      EmitDriven(s, if outcome.fault.Some? then FailWorkflow(outcome.fault.value) else CompleteWorkflow(outcome.value));
    case UpdateBody(p) =>
      EmitDriven(s, UpdateResponse(p, if outcome.fault.Some? then Rejected else Completed(outcome.value)));
    case Routine =>
  }

  lemma AdvanceDriven(s: Exec, c: nat, move: Move)
    requires c < |s.coroutines|
    ensures Driven(s, Advance(s, c, move))
  {
  }

  lemma EnterDriven(s: Exec, c: nat)
    requires c < |s.coroutines|
    ensures Driven(s, Enter(s, c))
  {
    TraceAppend(s.out.trace, Resumed(c));
  }

  lemma {:induction false} SliceDriven(env: Env, s: Exec, c: nat, fuel: nat)
    requires c < |s.coroutines| && Slice(env, s, c, fuel).Sliced?
    ensures Driven(s, Slice(env, s, c, fuel).state)
    decreases fuel
  {
    var move := env.step(s.mem, s.coroutines[c].local, ResponseFor(s, c));
    var s1 := Advance(s, c, move);
    AdvanceDriven(s, c, move);
    PerformDriven(env, s1, c, move.action);
    var (s', end) := Perform(env, s1, c, move.action);
    DrivenTrans(s, s1, s');
    if end == Continue {
      SliceDriven(env, s', c, fuel - 1);
      DrivenTrans(s, s', Slice(env, s', c, fuel - 1).state);
    }
  }

  ghost predicate DrivenEnd(s: Exec, r: DriveResult) {
    !r.Starved? ==> Driven(s, r.state)
  }

  lemma TurnDriven(env: Env, s: Exec, i: nat, fuel: nat)
    requires i < |s.coroutines|
    ensures var r := Turn(env, s, i, fuel);
            (r.TurnGoes? ==> Driven(s, r.state)) && (r.TurnReturns? ==> DrivenEnd(s, r.result))
  {
    EnterDriven(s, i);
    var r := Slice(env, Enter(s, i), i, fuel);
    if r.Sliced? {
      SliceDriven(env, Enter(s, i), i, fuel);
      DrivenTrans(s, Enter(s, i), r.state);
      if r.fault.Some? {
        EmitDriven(r.state, FailWorkflow(r.fault.value));
        DrivenTrans(s, r.state, FailExecution(r.state, r.fault.value));
      }
    }
  }

  lemma {:induction false} DriveFromDriven(
    env: Env, s: Exec, high: bool, i: nat, n: nat, progressed: bool, fuel: nat)
    requires i <= n <= |s.coroutines|
    ensures DrivenEnd(s, DriveFrom(env, s, high, i, n, progressed, fuel))
    decreases fuel, 1
  {
    if fuel > 0 && i < n && s.coroutines[i].highPriority == high && Runnable(s, i) {
      TurnDriven(env, s, i, fuel - 1);
      var r := Turn(env, s, i, fuel - 1);
      if r.TurnGoes? {
        DriveFromDriven(env, r.state, high, i + 1, n, true, fuel - 1);
        var d := DriveFrom(env, r.state, high, i + 1, n, true, fuel - 1);
        if !d.Starved? {
          DrivenTrans(s, r.state, d.state);
        }
      }
    } else {
      DriveFromDrivenSkip(env, s, high, i, n, progressed, fuel);
    }
  }

  lemma {:induction false} DriveFromDrivenSkip(
    env: Env, s: Exec, high: bool, i: nat, n: nat, progressed: bool, fuel: nat)
    requires i <= n <= |s.coroutines|
    requires i < n ==> s.coroutines[i].highPriority != high || !Runnable(s, i) || fuel == 0
    ensures DrivenEnd(s, DriveFrom(env, s, high, i, n, progressed, fuel))
    decreases fuel, 0
  {
    if fuel > 0 {
      if i < n {
        DriveFromDriven(env, s, high, i + 1, n, progressed, fuel - 1);
      } else if high {
        DriveFromDriven(env, s, false, 0, |s.coroutines|, progressed, fuel - 1);
      } else if progressed {
        DriveFromDriven(env, s, true, 0, |s.coroutines|, false, fuel - 1);
      }
    }
  }

  lemma DriveDriven(env: Env, s: Exec, fuel: nat)
    ensures DrivenEnd(s, Drive(env, s, fuel))
  {
    if !s.terminal {
      DriveFromDriven(env, s, true, 0, |s.coroutines|, false, fuel);
    }
  }

  // ---- The other steps of an activation ----

  lemma {:induction false} DeliverToLater(h: Store, c: Channel, input: seq<Payload>)
    ensures StoreLater(h, DeliverTo(h, c, input).0)
    ensures DeliverTo(h, c, input).1.delivered == c.delivered
    decreases |c.waiters|
  {
    if c.waiters != [] {
      DeliverToLater(h, c.(waiters := c.waiters[1..]), input);
    }
  }

  function SignalInput(job: Job, name: string): seq<seq<Payload>> {
    if job.SignalWorkflow? && job.name == name then [job.input] else []
  }

  /** The inputs of the signals with this name, in job order. */
  function SignalInputs(jobs: seq<Job>, name: string): (r: seq<seq<Payload>>) {
    if jobs == [] then [] else SignalInput(jobs[0], name) + SignalInputs(jobs[1..], name)
  }

  lemma DeliverLater(s: Exec, job: Job)
    requires job.SignalWorkflow?
    ensures var s' := Deliver(s, job.name, job.input);
            Later(s, s') && s'.out == s.out
  {
    DeliverToLater(s.futures, ChannelOf(s, job.name), job.input);
  }

  lemma DeliverSignal(s: Exec, job: Job, n: string)
    requires job.SignalWorkflow?
    ensures DeliveredTo(Deliver(s, job.name, job.input).channels, n)
            == DeliveredTo(s.channels, n) + SignalInput(job, n)
  {
    DeliverToLater(s.futures, ChannelOf(s, job.name), job.input);
  }

  lemma {:induction false} DeliverAllLater(s: Exec, jobs: seq<Job>)
    requires forall j :: j in jobs ==> j.SignalWorkflow?
    ensures Later(s, DeliverAll(s, jobs))
    ensures DeliverAll(s, jobs).out == s.out
    ensures forall n :: DeliveredTo(DeliverAll(s, jobs).channels, n)
                        == DeliveredTo(s.channels, n) + SignalInputs(jobs, n)
  {
    DeliverAllGrows(s, jobs);
    forall n
      ensures DeliveredTo(DeliverAll(s, jobs).channels, n) == DeliveredTo(s.channels, n) + SignalInputs(jobs, n)
    {
      DeliverAllSignals(s, jobs, n);
    }
  }

  lemma {:induction false} DeliverAllGrows(s: Exec, jobs: seq<Job>)
    requires forall j :: j in jobs ==> j.SignalWorkflow?
    ensures Later(s, DeliverAll(s, jobs))
    ensures DeliverAll(s, jobs).out == s.out
    decreases |jobs|
  {
    if jobs != [] {
      var s1 := Deliver(s, jobs[0].name, jobs[0].input);
      DeliverLater(s, jobs[0]);
      DeliverAllGrows(s1, jobs[1..]);
      LaterTrans(s, s1, DeliverAll(s1, jobs[1..]));
    }
  }

  lemma {:induction false} DeliverAllSignals(s: Exec, jobs: seq<Job>, n: string)
    requires forall j :: j in jobs ==> j.SignalWorkflow?
    ensures DeliveredTo(DeliverAll(s, jobs).channels, n) == DeliveredTo(s.channels, n) + SignalInputs(jobs, n)
    decreases |jobs|
  {
    if jobs != [] {
      var s1 := Deliver(s, jobs[0].name, jobs[0].input);
      DeliverSignal(s, jobs[0], n);
      DeliverAllSignals(s1, jobs[1..], n);
    }
  }

  function UpdateMark(job: Job, p: string): nat {
    if job.DoUpdate? && job.protocolId == p then 1 else 0
  }

  /** How many update jobs carry this protocol instance ID. */
  function UpdateCount(jobs: seq<Job>, p: string): nat {
    if jobs == [] then 0 else UpdateMark(jobs[0], p) + UpdateCount(jobs[1..], p)
  }

  /** Starting an update records its begin and its first response, one right after the other. */
  lemma StartUpdateTrace(env: Env, s: Exec, job: Job)
    requires job.DoUpdate?
    ensures exists reply :: (reply == Accepted || reply == Rejected) &&
              StartUpdate(env, s, job).out.trace
              == s.out.trace + [UpdateBegun(job.protocolId)] + [Emitted(UpdateResponse(job.protocolId, reply))]
  {
    var p := job.protocolId;
    var t := s.out.trace + [UpdateBegun(p)];
    var s' := StartUpdate(env, s, job);
    assert s'.out.trace == t + [Emitted(UpdateResponse(p, Accepted))]
        || s'.out.trace == t + [Emitted(UpdateResponse(p, Rejected))];
  }

  lemma StartUpdateBegins(env: Env, s: Exec, job: Job)
    requires job.DoUpdate?
    ensures forall p :: Begins(StartUpdate(env, s, job).out.trace, p) == Begins(s.out.trace, p) + UpdateMark(job, p)
  {
    var p := job.protocolId;
    StartUpdateTrace(env, s, job);
    var reply :| (reply == Accepted || reply == Rejected) &&
      StartUpdate(env, s, job).out.trace
      == s.out.trace + [UpdateBegun(p)] + [Emitted(UpdateResponse(p, reply))];
    TraceAppend(s.out.trace, UpdateBegun(p));
    TraceAppend(s.out.trace + [UpdateBegun(p)], Emitted(UpdateResponse(p, reply)));
  }

  lemma StartUpdateLater(env: Env, s: Exec, job: Job)
    requires job.DoUpdate?
    ensures Later(s, StartUpdate(env, s, job))
    ensures StartUpdate(env, s, job).channels == s.channels
  {
    StartUpdateTrace(env, s, job);
  }

  lemma {:induction false} StartUpdatesLater(env: Env, s: Exec, jobs: seq<Job>)
    requires forall j :: j in jobs ==> j.DoUpdate?
    ensures Later(s, StartUpdates(env, s, jobs))
    ensures StartUpdates(env, s, jobs).channels == s.channels
    ensures forall p :: Begins(StartUpdates(env, s, jobs).out.trace, p) == Begins(s.out.trace, p) + UpdateCount(jobs, p)
    decreases |jobs|
  {
    if jobs != [] {
      var s1 := StartUpdate(env, s, jobs[0]);
      StartUpdateLater(env, s, jobs[0]);
      StartUpdateBegins(env, s, jobs[0]);
      StartUpdatesLater(env, s1, jobs[1..]);
      LaterTrans(s, s1, StartUpdates(env, s1, jobs[1..]));
    }
  }

  /** Applying a resolution never touches the trace or the channels. */
  ghost predicate ResolvedOnly(s1: Exec, s2: Exec) {
    Later(s1, s2) && s2.out == s1.out && s2.channels == s1.channels && s2.coroutines == s1.coroutines
  }

  lemma TryApplyLater(s: Exec, job: Job)
    ensures var r := TryApply(s, job); r.Applied? || r.Broken? ==> ResolvedOnly(s, r.state)
  {
  }

  lemma {:induction false} PassLater(s: Exec, pending: seq<Job>)
    ensures ResolvedOnly(s, Pass(s, pending).state)
    decreases |pending|
  {
    if pending != [] {
      TryApplyLater(s, pending[0]);
      var r := TryApply(s, pending[0]);
      if r.Applied? {
        PassLater(r.state, pending[1..]);
      } else if r.Unmatched? {
        PassLater(s, pending[1..]);
      }
    }
  }

  /** Later, with no update begun and no signal delivered in between. */
  ghost predicate Calm(s1: Exec, s2: Exec) {
    && Later(s1, s2)
    && (forall p :: Begins(s2.out.trace, p) == Begins(s1.out.trace, p))
    && (forall n :: DeliveredTo(s2.channels, n) == DeliveredTo(s1.channels, n))
  }

  lemma {:induction false} PendingLoopLater(env: Env, s: Exec, pending: seq<Job>, fuel: nat)
    requires s.current == None
    ensures var r := PendingLoop(env, s, pending, fuel); !r.LoopStarved? ==> Calm(s, r.state)
    decreases |pending|, if Resting(s) then 0 else 1
  {
    if pending != [] {
      var p := Pass(s, pending);
      PassLater(s, pending);
      if p.PassDone? && p.remaining != [] {
        PassKeepsCurrent(s, pending);
        var d := Drive(env, p.state, fuel);
        DriveDriven(env, p.state, fuel);
        if !d.Starved? {
          LaterTrans(s, p.state, d.state);
          if d.Settled? && (p.applied || !SameProgress(p.state, d.state)) {
            DriveQuiesces(env, p.state, fuel);
            if !p.applied && Resting(s) {
              DriveIdle(env, p.state, fuel);
            }
            PendingLoopLater(env, d.state, p.remaining, fuel);
            var r := PendingLoop(env, d.state, p.remaining, fuel);
            if !r.LoopStarved? {
              LaterTrans(s, d.state, r.state);
            }
          }
        }
      }
    }
  }

  lemma {:induction false} AnswerQueriesLater(env: Env, s: Exec, jobs: seq<Job>)
    requires forall j :: j in jobs ==> j.QueryWorkflow?
    ensures Calm(s, AnswerQueries(env, s, jobs))
    decreases |jobs|
  {
    if jobs != [] {
      var s1 := AnswerQuery(env, s, jobs[0]);
      TraceAppend(s.out.trace, s1.out.trace[|s.out.trace|]);
      AnswerQueriesLater(env, s1, jobs[1..]);
      LaterTrans(s, s1, AnswerQueries(env, s1, jobs[1..]));
    }
  }
}
