/**
 One activation: signals are delivered, the first activation bootstraps the workflow, updates are
 started, resolutions are applied in passes until all have matched, and queries are answered last.
 */
module Activation {
  import opened Basics
  import opened Futures
  import opened Interpreter
  import opened Scheduling

  datatype ActivityResolution =
    | ActivityCompleted(payload: Option<Payload>) | ActivityFailed | ActivityCancelled | ActivityBackoff
    | ActivityNoStatus

  datatype StartResolution = StartSucceeded(runId: string) | StartRefused | StartWasCancelled | StartNoStatus

  datatype ChildResolution = ChildCompleted(payload: Option<Payload>) | ChildFailed | ChildCancelled | ChildNoStatus

  datatype Job =
    | Initialize(workflowType: string, input: seq<Payload>)
    | RemoveFromCache
    | SignalWorkflow(name: string, input: seq<Payload>)
    | QueryWorkflow(queryId: string, query: string, arguments: seq<Payload>)
    | DoUpdate(protocolId: string, update: string, arguments: seq<Payload>, runValidator: bool)
    | FireTimer(sequence: nat)
    | ResolveActivity(sequence: nat, isLocal: bool, activity: Option<ActivityResolution>)
    | ResolveChildStart(sequence: nat, start: StartResolution)
    | ResolveChild(sequence: nat, child: Option<ChildResolution>)
    | UnknownJob

  // ---- Sorting the jobs ----

  function Signals(jobs: seq<Job>): (r: seq<Job>)
    ensures forall j :: j in r ==> j.SignalWorkflow?
  {
    if jobs == [] then []
    else (if jobs[0].SignalWorkflow? then [jobs[0]] else []) + Signals(jobs[1..])
  }

  function Queries(jobs: seq<Job>): (r: seq<Job>)
    ensures forall j :: j in r ==> j.QueryWorkflow?
  {
    if jobs == [] then []
    else (if jobs[0].QueryWorkflow? then [jobs[0]] else []) + Queries(jobs[1..])
  }

  function Updates(jobs: seq<Job>): (r: seq<Job>)
    ensures forall j :: j in r ==> j.DoUpdate?
  {
    if jobs == [] then []
    else (if jobs[0].DoUpdate? then [jobs[0]] else []) + Updates(jobs[1..])
  }

  predicate IsPending(job: Job) {
    !job.SignalWorkflow? && !job.QueryWorkflow? && !job.DoUpdate?
  }

  function Pending(jobs: seq<Job>): (r: seq<Job>)
    ensures forall j :: j in r ==> IsPending(j)
  {
    if jobs == [] then []
    else (if IsPending(jobs[0]) then [jobs[0]] else []) + Pending(jobs[1..])
  }

  // ---- Resolutions ----

  function Failing(fault: Fault): Outcome {
    Outcome(NilValue, Some(fault))
  }

  function ActivityOutcome(resolution: Option<ActivityResolution>): Outcome {
    match resolution
    case None => Failing(MissingResult)
    case Some(ActivityCompleted(payload)) => Outcome(PayloadValue(payload), None)
    case Some(ActivityFailed) => Failing(OperationFailed)
    case Some(ActivityCancelled) => Failing(OperationCancelled)
    case Some(ActivityBackoff) => Failing(BackoffUnsupported)
    case Some(ActivityNoStatus) => Failing(NoStatus)
  }

  function ChildOutcome(resolution: Option<ChildResolution>): Outcome {
    match resolution
    case None => Failing(MissingResult)
    case Some(ChildCompleted(payload)) => Outcome(PayloadValue(payload), None)
    case Some(ChildFailed) => Failing(OperationFailed)
    case Some(ChildCancelled) => Failing(OperationCancelled)
    case Some(ChildNoStatus) => Failing(NoStatus)
  }

  /** What applying a job means: an error, nothing to match, or completions and maybe retirement. */
  datatype Plan = Refuse | NoMatch | Apply(work: seq<Assign>, retire: bool)

  function PlanFor(h: Store, operations: map<nat, Operation>, job: Job): Plan {
    match job
    case FireTimer(q) =>
      if q !in operations then NoMatch
      else if operations[q].kind != Timer then Refuse
      else Apply([Assign(operations[q].result, UNSET)], true)
    case ResolveActivity(q, isLocal, activity) =>
      if q !in operations then NoMatch
      else if operations[q].kind != (if isLocal then LocalActivity else Activity) then Refuse
      else Apply([Assign(operations[q].result, ActivityOutcome(activity))], true)
    case ResolveChildStart(q, start) =>
      if q !in operations then NoMatch
      else if !operations[q].kind.Child? then Refuse
      else (match start
        case StartSucceeded(runId) =>
          Apply([Assign(operations[q].kind.started,
                        Outcome(ChildStarted(operations[q].kind.workflowId, runId), None))], false)
        case StartNoStatus => Refuse
        case _ =>
          var fault := Failing(if start == StartRefused then StartFailed else StartCancelled);
          Apply([Assign(operations[q].kind.started, fault), Assign(operations[q].result, fault)], true))
    case ResolveChild(q, child) =>
      if q !in operations then NoMatch
      else if !operations[q].kind.Child? then Refuse
      else
        var f := operations[q].kind.started;
        if f >= |h| || !h[f].ready || h[f].outcome.fault.Some? then Refuse
        else Apply([Assign(operations[q].result, ChildOutcome(child))], true)
    case _ => Refuse
  }

  /** `Broken` is a panic out of `set`; the activation is then abandoned. */
  datatype TryResult = Unmatched | Failed | Broken(state: Exec) | Applied(state: Exec)

  function Retire(table: Table, q: nat): Table {
    table.(operations := table.operations - {q}, resolved := table.resolved + multiset{q})
  }

  function TryApply(s: Exec, job: Job): TryResult {
    match PlanFor(s.futures, s.table.operations, job)
    case Refuse => Failed
    case NoMatch => Unmatched
    case Apply(work, retire) =>
      var r := SetAll(s.futures, work);
      if !r.1 then Broken(s.(futures := r.0))
      else if retire then Applied(s.(futures := r.0, table := Retire(s.table, job.sequence)))
      else Applied(s.(futures := r.0))
  }

  // ---- Passes over the pending resolutions ----

  datatype PassResult =
    | PassFailed(state: Exec) | PassBroken(state: Exec)
    | PassDone(state: Exec, remaining: seq<Job>, applied: bool)

  function Pass(s: Exec, pending: seq<Job>): (r: PassResult)
    ensures r.PassDone? ==> |r.remaining| <= |pending| && (r.applied ==> |r.remaining| < |pending|)
    ensures r.PassDone? && !r.applied ==> r.state == s && r.remaining == pending
    decreases |pending|
  {
    if pending == [] then PassDone(s, [], false)
    else
      match TryApply(s, pending[0])
      case Failed => PassFailed(s)
      case Broken(s') => PassBroken(s')
      case Unmatched =>
        var r := Pass(s, pending[1..]);
        if r.PassDone? then PassDone(r.state, [pending[0]] + r.remaining, r.applied) else r
      case Applied(s') =>
        var r := Pass(s', pending[1..]);
        if r.PassDone? then PassDone(r.state, r.remaining, true) else r
  }

  /** How the pending loop ends; `passes` counts its iterations. */
  datatype LoopResult =
    | LoopStarved
    | LoopFailed(state: Exec, passes: nat)
    | LoopBroken(state: Exec, passes: nat)
    | LoopDone(state: Exec, passes: nat)

  function OneMore(r: LoopResult): LoopResult {
    match r
    case LoopStarved => r
    case LoopFailed(s, n) => LoopFailed(s, n + 1)
    case LoopBroken(s, n) => LoopBroken(s, n + 1)
    case LoopDone(s, n) => LoopDone(s, n + 1)
  }

  ghost predicate Resting(s: Exec) {
    s.terminal || Quiescent(s)
  }

  /** The size of the operation table and the last sequence number: all that the loop compares. */
  predicate SameProgress(s1: Exec, s2: Exec) {
    s1.table.nextSequence == s2.table.nextSequence && |s1.table.operations| == |s2.table.operations|
  }

  /**
   Applies the pending jobs. A pass that applies nothing is followed by `drive`, and is an error when
   `drive` scheduled nothing either. The loop terminates because `drive` is idempotent: after the
   first `drive` a pass that applies nothing leaves nothing for the next `drive` to do.
   */
  function PendingLoop(env: Env, s: Exec, pending: seq<Job>, fuel: nat): (r: LoopResult)
    requires s.current == None
    decreases |pending|, if Resting(s) then 0 else 1
  {
    if pending == [] then LoopDone(s, 0)
    else
      match Pass(s, pending)
      case PassFailed(s') => LoopFailed(s', 1)
      case PassBroken(s') => LoopBroken(s', 1)
      case PassDone(s1, remaining, applied) =>
        if remaining == [] then LoopDone(s1, 1)
        else
          PassKeepsCurrent(s, pending);
          match Drive(env, s1, fuel)
          case Starved => LoopStarved
          case Errored(s2) => LoopFailed(s2, 1)
          case Settled(s2) =>
            if !applied && SameProgress(s1, s2) then LoopFailed(s2, 1)
            else
              DriveQuiesces(env, s1, fuel);
              assert !applied ==> !Resting(s) by {
                if !applied && Resting(s) {
                  DriveIdle(env, s1, fuel);
                }
              }
              OneMore(PendingLoop(env, s2, remaining, fuel))
  }

  lemma {:induction false} PassKeepsCurrent(s: Exec, pending: seq<Job>)
    ensures Pass(s, pending).state.current == s.current
    decreases |pending|
  {
    if pending != [] {
      var r := TryApply(s, pending[0]);
      if r.Applied? {
        PassKeepsCurrent(r.state, pending[1..]);
      } else if r.Unmatched? {
        PassKeepsCurrent(s, pending[1..]);
      }
    }
  }

  lemma {:induction false} PassShrinksTable(s: Exec, pending: seq<Job>)
    requires Pass(s, pending).PassDone?
    ensures Pass(s, pending).state.table.operations.Keys <= s.table.operations.Keys
    decreases |pending|
  {
    if pending != [] {
      var r := TryApply(s, pending[0]);
      PassShrinksTable(if r.Applied? then r.state else s, pending[1..]);
    }
  }

  /**
   What a pass leaves over are exactly jobs that cannot be applied yet: trying them again at once
   applies none of them. Only `drive` can make one applicable, by scheduling its operation.
   */
  lemma {:induction false} PassLeavesUnmatched(s: Exec, pending: seq<Job>)
    requires Pass(s, pending).PassDone?
    ensures var r := Pass(s, pending);
            && Pass(r.state, r.remaining) == PassDone(r.state, r.remaining, false)
            && forall j :: j in r.remaining ==> j in pending && TryApply(r.state, j) == Unmatched
    decreases |pending|
  {
    if pending != [] {
      var first := TryApply(s, pending[0]);
      var s1 := if first.Applied? then first.state else s;
      PassLeavesUnmatched(s1, pending[1..]);
      if first.Unmatched? {
        PassShrinksTable(s, pending[1..]);
        var r := Pass(s, pending[1..]);
        assert ([pending[0]] + r.remaining)[1..] == r.remaining;
      }
    }
  }

  // ---- Updates and queries ----

  function BeginUpdate(s: Exec, protocolId: string): (r: Exec)
    ensures r.coroutines == s.coroutines
  {
    s.(out := s.out.(trace := s.out.trace + [UpdateBegun(protocolId)]))
  }

  function ViewOf(s: Exec): View {
    View(s.futures, s.channels)
  }

  /** Accepts the update and adds its handler as a coroutine, or rejects it. */
  function StartUpdate(env: Env, s: Exec, job: Job): Exec
    requires job.DoUpdate?
  {
    var s1 := BeginUpdate(s, job.protocolId);
    if job.update !in s.handlers.updates then Emit(s1, UpdateResponse(job.protocolId, Rejected))
    else
      var update := s.handlers.updates[job.update];
      var decoded := env.decode(update.handler, job.arguments);
      if decoded == None then Emit(s1, UpdateResponse(job.protocolId, Rejected))
      else if job.runValidator && update.validator.Some? then
        var (mem, valid) := env.validate(s.mem, ViewOf(s), update.validator.value, decoded.value);
        if !valid then Emit(s1.(mem := mem), UpdateResponse(job.protocolId, Rejected))
        else AcceptUpdate(s1.(mem := mem), job.protocolId, decoded.value)
      else AcceptUpdate(s1, job.protocolId, decoded.value)
  }

  function AcceptUpdate(s: Exec, protocolId: string, body: Local): Exec {
    AddCoroutine(Emit(s, UpdateResponse(protocolId, Accepted)), body, UpdateBody(protocolId), true)
  }

  function StartUpdates(env: Env, s: Exec, jobs: seq<Job>): Exec
    requires forall j :: j in jobs ==> j.DoUpdate?
    decreases |jobs|
  {
    if jobs == [] then s else StartUpdates(env, StartUpdate(env, s, jobs[0]), jobs[1..])
  }

  function AnswerQuery(env: Env, s: Exec, job: Job): Exec
    requires job.QueryWorkflow?
  {
    if job.query !in s.handlers.queries then Emit(s, QueryResponse(job.queryId, None))
    else
      var (mem, answer) := env.answer(s.mem, ViewOf(s), s.handlers.queries[job.query], job.arguments);
      Emit(s.(mem := mem), QueryResponse(job.queryId, answer))
  }

  function AnswerQueries(env: Env, s: Exec, jobs: seq<Job>): Exec
    requires forall j :: j in jobs ==> j.QueryWorkflow?
    decreases |jobs|
  {
    if jobs == [] then s else AnswerQueries(env, AnswerQuery(env, s, jobs[0]), jobs[1..])
  }

  function DeliverAll(s: Exec, jobs: seq<Job>): (r: Exec)
    requires forall j :: j in jobs ==> j.SignalWorkflow?
    ensures r.current == s.current && r.life == s.life
    decreases |jobs|
  {
    if jobs == [] then s else DeliverAll(Deliver(s, jobs[0].name, jobs[0].input), jobs[1..])
  }

  // ---- The whole activation ----

  datatype ActivateResult =
    | ActivateStarved
    | ActivationFailed(state: Exec)
    | ActivationBroken(state: Exec)
    | Activated(state: Exec, commands: seq<Command>)

  function TakeCommands(s: Exec): Exec {
    s.(out := s.out.(commands := [], sent := s.out.sent + s.out.commands))
  }

  /** Runs the workflow for the first time, so that it can register its handlers. */
  function Bootstrap(env: Env, s: Exec, fuel: nat): DriveResult {
    if s.life.bootstrapped then Settled(s)
    else
      match Drive(env, s, fuel)
      case Settled(s') => Settled(s'.(life := s'.life.(bootstrapped := true)))
      case other => other
  }

  /** The state in which the pending resolutions are first tried. */
  function Prepared(env: Env, s: Exec, jobs: seq<Job>, fuel: nat): DriveResult {
    match Bootstrap(env, DeliverAll(s, Signals(jobs)), fuel)
    case Settled(s1) => Settled(StartUpdates(env, s1, Updates(jobs)))
    case other => other
  }

  function Finish(env: Env, s: Exec, queries: seq<Job>, fuel: nat): ActivateResult
    requires forall j :: j in queries ==> j.QueryWorkflow?
  {
    match Drive(env, s, fuel)
    case Starved => ActivateStarved
    case Errored(s') => ActivationFailed(s')
    case Settled(s') =>
      var s'' := AnswerQueries(env, s', queries);
      Activated(TakeCommands(s''), s''.out.commands)
  }

  function Activate(env: Env, s: Exec, jobs: seq<Job>, fuel: nat): ActivateResult
    requires s.current == None
  {
    if s.life.stopped || !s.life.started then ActivationFailed(s)
    else
      match Prepared(env, s, jobs, fuel)
      case Starved => ActivateStarved
      case Errored(s1) => ActivationFailed(s1)
      case Settled(s1) =>
        PreparedIsIdle(env, s, jobs, fuel);
        match PendingLoop(env, s1, Pending(jobs), fuel)
        case LoopStarved => ActivateStarved
        case LoopFailed(s2, _) => ActivationFailed(s2)
        case LoopBroken(s2, _) => ActivationBroken(s2)
        case LoopDone(s2, _) => Finish(env, s2, Queries(jobs), fuel)
  }

  lemma {:induction false} StartUpdatesKeepsCurrent(env: Env, s: Exec, jobs: seq<Job>)
    requires forall j :: j in jobs ==> j.DoUpdate?
    ensures StartUpdates(env, s, jobs).current == s.current
    decreases |jobs|
  {
    if jobs != [] {
      StartUpdatesKeepsCurrent(env, StartUpdate(env, s, jobs[0]), jobs[1..]);
    }
  }

  lemma PreparedIsIdle(env: Env, s: Exec, jobs: seq<Job>, fuel: nat)
    requires s.current == None
    ensures Prepared(env, s, jobs, fuel).Settled? ==> Prepared(env, s, jobs, fuel).state.current == None
  {
    var s0 := DeliverAll(s, Signals(jobs));
    if !s0.life.bootstrapped && Drive(env, s0, fuel).Settled? {
      DriveQuiesces(env, s0, fuel);
    }
    var b := Bootstrap(env, s0, fuel);
    if b.Settled? {
      StartUpdatesKeepsCurrent(env, b.state, Updates(jobs));
    }
  }

  // ---- The number of passes ----

  /** Only the first pass can apply nothing and still be followed by another one. */
  lemma {:induction false} PassBound(env: Env, s: Exec, pending: seq<Job>, fuel: nat)
    requires s.current == None
    ensures var r := PendingLoop(env, s, pending, fuel);
            r.LoopStarved? || r.passes <= |pending| + (if Resting(s) then 0 else 1)
    decreases |pending|, if Resting(s) then 0 else 1
  {
    if pending != [] {
      var p := Pass(s, pending);
      if p.PassDone? && p.remaining != [] {
        PassKeepsCurrent(s, pending);
        var d := Drive(env, p.state, fuel);
        if d.Settled? && (p.applied || !SameProgress(p.state, d.state)) {
          DriveQuiesces(env, p.state, fuel);
          if !p.applied && Resting(s) {
            DriveIdle(env, p.state, fuel);
          }
          PassBound(env, d.state, p.remaining, fuel);
        }
      }
    }
  }
}
