/** Whole runs: a started execution and any sequence of successful activations. */
module Runs {
  import opened Basics
  import opened Futures
  import opened FutureGraph
  import opened Interpreter
  import opened Scheduling
  import opened Activation
  import opened Invariants
  import opened Preservation

  // ---- Signals ----

  lemma SetWaiter(h: Store, w: FutureId, outcome: Outcome)
    requires WaiterOk(h, w)
    ensures SetOne(h, w, outcome) == (h[w := Future(Hidden, true, outcome, [])], true)
  {
    var work := [Assign(w, outcome)];
    var h1 := MarkReady(h, work[0]);
    var fan := Fan(h[w].chained, work[0].outcome);
    assert fan == [] && work[1..] == [] && w in Unready(h) && w !in Unready(h1);
    assert SetAll(h1, fan) == (h1, true);
    assert ClearChain(h1, w) == h[w := Future(Hidden, true, outcome, [])];
  }

  /** In a reachable state the first waiter is never ready, and waking it cannot panic. */
  lemma DeliverSkipsNobody(s: Exec, name: string, input: seq<Payload>)
    requires Integrity(s)
    ensures ChannelOf(s, name).waiters != [] ==>
              var w := ChannelOf(s, name).waiters[0];
              !s.futures[w].ready && SetOne(s.futures, w, Outcome(SignalValue(input), None)).1
    ensures var channel := ChannelOf(s, name);
            var after := Deliver(s, name, input);
            if channel.waiters == [] then
              after.futures == s.futures &&
              after.channels == s.channels[name := Channel(channel.buffer + [input], [],
                                                           channel.delivered + [input], channel.received,
                                                           channel.receivers)]
            else
              after.futures == s.futures[channel.waiters[0] :=
                                         Future(Hidden, true, Outcome(SignalValue(input), None), [])] &&
              after.channels == s.channels[name := Channel(channel.buffer, channel.waiters[1..],
                                                           channel.delivered + [input], channel.received + [input],
                                                           channel.receivers + [Some(channel.waiters[0])])]
  {
    OldWaiters(s, name);
    if ChannelOf(s, name).waiters != [] {
      assert WaiterOk(s.futures, ChannelOf(s, name).waiters[0]);
      SetWaiter(s.futures, ChannelOf(s, name).waiters[0], Outcome(SignalValue(input), None));
    }
  }

  /** Completing one `Hidden` future that no channel holds any more. */
  lemma WakeKeeps(h: Store, w: FutureId, outcome: Outcome, operations: map<nat, Operation>,
                  coroutines: seq<Coroutine>)
    requires WaiterOk(h, w) && ManualChains(h) && OperationsOk(h, operations) && CoroutinesOk(h, coroutines)
    ensures var h' := h[w := Future(Hidden, true, outcome, [])];
            ManualChains(h') && OperationsOk(h', operations) && CoroutinesOk(h', coroutines)
  {
    var h' := h[w := Future(Hidden, true, outcome, [])];
    forall q | q in operations
      ensures OperationOk(h', operations[q])
    {
      assert OperationOk(h, operations[q]);
    }
  }

  lemma DeliverOther(s: Exec, name: string, input: seq<Payload>, n: string)
    requires Integrity(s) && n in s.channels && n != name
    ensures ChannelOk(Deliver(s, name, input).futures, s.channels[n])
  {
    DeliverSkipsNobody(s, name, input);
    var channel, h' := ChannelOf(s, name), Deliver(s, name, input).futures;
    assert ChannelOk(s.futures, s.channels[n]);
    forall i | 0 <= i < |s.channels[n].waiters|
      ensures WaiterOk(h', s.channels[n].waiters[i])
    {
      assert WaiterOk(s.futures, s.channels[n].waiters[i]);
      if channel.waiters != [] {
        assert s.channels[n].waiters[i] != s.channels[name].waiters[0];
      }
    }
  }

  lemma DeliverOwn(h: Store, channel: Channel, input: seq<Payload>)
    requires ChannelOk(h, channel)
    ensures channel.waiters == [] ==>
              ChannelOk(h, Channel(channel.buffer + [input], [], channel.delivered + [input], channel.received, channel.receivers))
    ensures channel.waiters != [] ==>
              ChannelOk(h[channel.waiters[0] := Future(Hidden, true, Outcome(SignalValue(input), None), [])],
                        Channel(channel.buffer, channel.waiters[1..],
                                channel.delivered + [input], channel.received + [input],
                                channel.receivers + [Some(channel.waiters[0])]))
  {
    if channel.waiters == [] {
      assert channel.received + (channel.buffer + [input]) == (channel.received + channel.buffer) + [input];
    } else {
      var rest := channel.waiters[1..];
      var h' := h[channel.waiters[0] := Future(Hidden, true, Outcome(SignalValue(input), None), [])];
      forall i | 0 <= i < |rest|
        ensures WaiterOk(h', rest[i])
      {
        assert WaiterOk(h, channel.waiters[i + 1]);
      }
      assert channel.buffer == [];
    }
  }

  lemma DeliverChannels(s: Exec, name: string, input: seq<Payload>)
    requires Integrity(s)
    ensures ChannelsOk(Deliver(s, name, input).futures, Deliver(s, name, input).channels)
  {
    DeliverSkipsNobody(s, name, input);
    var channel, after := ChannelOf(s, name), Deliver(s, name, input);
    assert ChannelOk(s.futures, channel) by {
      if name in s.channels {
        assert ChannelOk(s.futures, s.channels[name]);
      }
    }
    DeliverOwn(s.futures, channel, input);
    forall n | n in s.channels && n != name
      ensures ChannelOk(after.futures, s.channels[n])
    {
      DeliverOther(s, name, input, n);
    }
    ReplaceChannel(s.futures, s.channels, name, after.futures, after.channels[name]);
  }

  /** Replacing one channel by one that waits for no one new. */
  lemma ReplaceChannel(h: Store, channels: map<string, Channel>, name: string, h': Store, channel: Channel)
    requires ChannelsOk(h, channels) && ChannelOk(h', channel)
    requires forall n :: n in channels && n != name ==> ChannelOk(h', channels[n])
    requires channel.waiters == [] ||
             (name in channels && channels[name].waiters != [] && channel.waiters == channels[name].waiters[1..])
    ensures ChannelsOk(h', channels[name := channel])
  {
  }

  lemma DeliverKeeps(s: Exec, name: string, input: seq<Payload>)
    requires Integrity(s)
    ensures Integrity(Deliver(s, name, input))
  {
    DeliverSkipsNobody(s, name, input);
    DeliverChannels(s, name, input);
    OldWaiters(s, name);
    var waiters := ChannelOf(s, name).waiters;
    if waiters != [] {
      assert WaiterOk(s.futures, waiters[0]);
      WakeKeeps(s.futures, waiters[0], Outcome(SignalValue(input), None), s.table.operations, s.coroutines);
    }
  }

  lemma {:induction false} DeliverAllKeeps(s: Exec, jobs: seq<Job>)
    requires Integrity(s) && forall j :: j in jobs ==> j.SignalWorkflow?
    ensures Integrity(DeliverAll(s, jobs))
    decreases |jobs|
  {
    if jobs != [] {
      DeliverKeeps(s, jobs[0].name, jobs[0].input);
      DeliverAllKeeps(Deliver(s, jobs[0].name, jobs[0].input), jobs[1..]);
    }
  }

  // ---- Updates and queries ----

  lemma BeginTerminal(s: Exec, p: string, reply: UpdateReply)
    requires Integrity(s) && (reply == Accepted || reply == Rejected)
    ensures var s' := Emit(BeginUpdate(s, p), UpdateResponse(p, reply));
            && TerminalOk(s'.terminal, s'.out.trace) && SequencesOk(s'.table, s'.out.trace) && OutputOk(s'.out)
            && s'.out.trace == s.out.trace + [UpdateBegun(p)] + [Emitted(UpdateResponse(p, reply))]
  {
    var e1, e2 := UpdateBegun(p), Emitted(UpdateResponse(p, reply));
    var t1 := s.out.trace + [e1];
    LightKeepsTerminal(s.terminal, s.out.trace, e1);
    LightKeepsTerminal(s.terminal, t1, e2);
    QuietKeepsSequences(s.table, s.out.trace, e1);
    QuietKeepsSequences(s.table, t1, e2);
    TraceAppend(s.out.trace, e1);
    TraceAppend(t1, e2);
  }

  /** What beginning an update does to the replies of every protocol instance. */
  lemma BeginReplies(trace: seq<Event>, p: string, reply: UpdateReply)
    requires reply == Accepted || reply == Rejected
    requires forall i :: 0 <= i < |trace| && trace[i].UpdateBegun? ==>
               i + 1 < |trace| && FirstReply(trace[i], trace[i + 1])
    ensures var t := trace + [UpdateBegun(p)] + [Emitted(UpdateResponse(p, reply))];
            && (forall q :: q != p ==> Replies(t, q) == Replies(trace, q) && Begins(t, q) == Begins(trace, q))
            && Replies(t, p) == Replies(trace, p) + [reply] && Begins(t, p) == Begins(trace, p) + 1
            && (forall i :: 0 <= i < |t| && t[i].UpdateBegun? ==> i + 1 < |t| && FirstReply(t[i], t[i + 1]))
  {
    var t1 := trace + [UpdateBegun(p)];
    var t := t1 + [Emitted(UpdateResponse(p, reply))];
    TraceAppend(trace, UpdateBegun(p));
    TraceAppend(t1, Emitted(UpdateResponse(p, reply)));
    forall i | 0 <= i < |t| && t[i].UpdateBegun?
      ensures i + 1 < |t| && FirstReply(t[i], t[i + 1])
    {
      if i < |trace| {
        assert t[i] == trace[i] && t[i + 1] == trace[i + 1];
      }
    }
  }

  lemma RejectKeeps(s: Exec, p: string)
    requires Integrity(s)
    ensures Integrity(Emit(BeginUpdate(s, p), UpdateResponse(p, Rejected)))
  {
    BeginTerminal(s, p, Rejected);
    BeginReplies(s.out.trace, p, Rejected);
    var t := s.out.trace + [UpdateBegun(p)] + [Emitted(UpdateResponse(p, Rejected))];
    forall q
      ensures UpdateOk(s.coroutines, t, q)
    {
      assert UpdateOk(s.coroutines, s.out.trace, q);
    }
  }

  lemma AcceptKeeps(s: Exec, p: string, body: Local)
    requires Integrity(s)
    ensures Integrity(AcceptUpdate(BeginUpdate(s, p), p, body))
  {
    BeginTerminal(s, p, Accepted);
    BeginReplies(s.out.trace, p, Accepted);
    var t := s.out.trace + [UpdateBegun(p)] + [Emitted(UpdateResponse(p, Accepted))];
    var c1 := s.coroutines;
    var c2 := AcceptUpdate(BeginUpdate(s, p), p, body).coroutines;
    assert c2 == c1 + [c2[|c1|]] && c2[|c1|].kind == UpdateBody(p);
    forall q
      ensures UpdateOk(c2, t, q)
    {
      assert UpdateOk(c1, s.out.trace, q);
      if q == p {
        if Begins(s.out.trace, p) == 0 {
          assert Acceptance(c2, Replies(t, p), p, |c1|);
        }
      } else {
        OtherBodyKeepsUpdate(c1, c2, s.out.trace, t, q);
      }
    }
  }

  lemma OtherBodyKeepsUpdate(c1: seq<Coroutine>, c2: seq<Coroutine>, t1: seq<Event>, t2: seq<Event>, q: string)
    requires UpdateOk(c1, t1, q) && Replies(t2, q) == Replies(t1, q) && Begins(t2, q) == Begins(t1, q)
    requires |c2| == |c1| + 1 && c2[..|c1|] == c1 && c2[|c1|].kind != UpdateBody(q)
    ensures UpdateOk(c2, t2, q)
  {
    assert forall c :: 0 <= c < |c1| ==> c2[c] == c1[c];
    assert HasBody(c1, q) <==> HasBody(c2, q) by {
      if HasBody(c1, q) {
        var c :| 0 <= c < |c1| && c1[c].kind == UpdateBody(q);
        assert c2[c] == c1[c];
      }
    }
    if Begins(t1, q) == 1 && !Rejection(c1, Replies(t1, q), q) {
      var c :| Acceptance(c1, Replies(t1, q), q, c);
      assert Acceptance(c2, Replies(t2, q), q, c);
    }
  }

  lemma StartUpdateKeeps(env: Env, s: Exec, job: Job)
    requires Integrity(s) && job.DoUpdate?
    ensures Integrity(StartUpdate(env, s, job))
  {
    var p := job.protocolId;
    RejectKeeps(s, p);
    if job.update in s.handlers.updates {
      var update := s.handlers.updates[job.update];
      var decoded := env.decode(update.handler, job.arguments);
      if decoded.Some? {
        AcceptKeeps(s, p, decoded.value);
        if job.runValidator && update.validator.Some? {
          var (mem, valid) := env.validate(s.mem, ViewOf(s), update.validator.value, decoded.value);
          RejectKeeps(s.(mem := mem), p);
          AcceptKeeps(s.(mem := mem), p, decoded.value);
        }
      }
    }
  }

  lemma {:induction false} StartUpdatesKeeps(env: Env, s: Exec, jobs: seq<Job>)
    requires Integrity(s) && forall j :: j in jobs ==> j.DoUpdate?
    ensures Integrity(StartUpdates(env, s, jobs))
    decreases |jobs|
  {
    if jobs != [] {
      StartUpdateKeeps(env, s, jobs[0]);
      StartUpdatesKeeps(env, StartUpdate(env, s, jobs[0]), jobs[1..]);
    }
  }

  lemma QueryEmitKeeps(s: Exec, queryId: string, answer: Option<Value>)
    requires Integrity(s)
    ensures Integrity(Emit(s, QueryResponse(queryId, answer)))
  {
    var e := Emitted(QueryResponse(queryId, answer));
    PlainKeepsUpdates(s.coroutines, s.out.trace, e);
    LightKeepsTerminal(s.terminal, s.out.trace, e);
    QuietKeepsSequences(s.table, s.out.trace, e);
    TraceAppend(s.out.trace, e);
  }

  lemma AnswerQueryKeeps(env: Env, s: Exec, job: Job)
    requires Integrity(s) && job.QueryWorkflow?
    ensures Integrity(AnswerQuery(env, s, job))
  {
    if job.query !in s.handlers.queries {
      QueryEmitKeeps(s, job.queryId, None);
    } else {
      var (mem, answer) := env.answer(s.mem, ViewOf(s), s.handlers.queries[job.query], job.arguments);
      QueryEmitKeeps(s.(mem := mem), job.queryId, answer);
    }
  }

  lemma {:induction false} AnswerQueriesKeeps(env: Env, s: Exec, jobs: seq<Job>)
    requires Integrity(s) && forall j :: j in jobs ==> j.QueryWorkflow?
    ensures Integrity(AnswerQueries(env, s, jobs))
    decreases |jobs|
  {
    if jobs != [] {
      AnswerQueryKeeps(env, s, jobs[0]);
      AnswerQueriesKeeps(env, AnswerQuery(env, s, jobs[0]), jobs[1..]);
    }
  }

  // ---- Resolutions ----

  ghost function Targets(work: seq<Assign>): set<FutureId> {
    set k | 0 <= k < |work| :: work[k].target
  }

  /** A plan completes futures of the matched operation only, and all of them when it retires it. */
  lemma PlanTargets(h: Store, operations: map<nat, Operation>, job: Job)
    requires OperationsOk(h, operations) && PlanFor(h, operations, job).Apply?
    ensures job.sequence in operations
    ensures var plan := PlanFor(h, operations, job);
            var operation := operations[job.sequence];
            && Targets(plan.work) <= Slots(operation)
            && (!plan.retire ==> operation.kind.Child? && |plan.work| == 1
                                 && plan.work[0].target == operation.kind.started
                                 && plan.work[0].outcome.fault == None)
  {
  }

  /** Applying a plan changes, next to futures of user code, only unready futures of its operation. */
  lemma ApplyFrame(h: Store, operations: map<nat, Operation>, job: Job)
    requires ManualChains(h) && OperationsOk(h, operations)
    requires PlanFor(h, operations, job).Apply? && SetAll(h, PlanFor(h, operations, job).work).1
    ensures var plan := PlanFor(h, operations, job);
            var h' := SetAll(h, plan.work).0;
            && ManualChains(h') && Grown(h, h')
            && (forall f :: 0 <= f < |h| && h[f].role != Manual && f !in Targets(plan.work) ==> h'[f] == h[f])
            && (forall f :: f in Targets(plan.work) ==> f < |h| && h[f].role == Runtime)
  {
    var work := PlanFor(h, operations, job).work;
    var h' := SetAll(h, work).0;
    PlanTargets(h, operations, job);
    assert OperationOk(h, operations[job.sequence]);
    CompletedAreManual(h, work);
    forall f | 0 <= f < |h| && h[f].role != Manual && f !in Targets(work)
      ensures h'[f] == h[f]
    {
      assert forall k :: 0 <= k < |work| ==> work[k].target in Targets(work);
    }
  }

  lemma ApplyChannels(h: Store, h': Store, targets: set<FutureId>, channels: map<string, Channel>)
    requires ChannelsOk(h, channels) && |h'| == |h|
    requires forall f :: 0 <= f < |h| && h[f].role != Manual && f !in targets ==> h'[f] == h[f]
    requires forall f :: f in targets ==> f < |h| && h[f].role == Runtime
    ensures ChannelsOk(h', channels)
  {
    forall n | n in channels
      ensures ChannelOk(h', channels[n])
    {
      assert ChannelOk(h, channels[n]);
      forall i | 0 <= i < |channels[n].waiters|
        ensures WaiterOk(h', channels[n].waiters[i])
      {
        assert WaiterOk(h, channels[n].waiters[i]);
      }
      forall i | 0 <= i < |channels[n].receivers| && channels[n].receivers[i].Some?
        ensures GivenTo(h', channels[n].receivers[i].value, channels[n].received[i])
      {
        assert GivenTo(h, channels[n].receivers[i].value, channels[n].received[i]);
      }
    }
  }

  lemma ApplyStore(h: Store, operations: map<nat, Operation>, job: Job, channels: map<string, Channel>,
                   coroutines: seq<Coroutine>)
    requires ManualChains(h) && OperationsOk(h, operations) && ChannelsOk(h, channels) && CoroutinesOk(h, coroutines)
    requires PlanFor(h, operations, job).Apply? && SetAll(h, PlanFor(h, operations, job).work).1
    ensures var plan := PlanFor(h, operations, job);
            var h' := SetAll(h, plan.work).0;
            && ManualChains(h') && ChannelsOk(h', channels) && CoroutinesOk(h', coroutines)
            && OperationsOk(h', if plan.retire then operations - {job.sequence} else operations)
  {
    var plan := PlanFor(h, operations, job);
    var work := plan.work;
    var h' := SetAll(h, work).0;
    var q := job.sequence;
    PlanTargets(h, operations, job);
    ApplyFrame(h, operations, job);
    ApplyChannels(h, h', Targets(work), channels);
    forall r | r in operations && r != q
      ensures OperationOk(h', operations[r])
    {
      assert OperationOk(h, operations[r]);
      assert Slots(operations[r]) !! Slots(operations[q]);
    }
    if !plan.retire {
      assert OperationOk(h, operations[q]);
      SetAllDropsChains(h, work);
      assert work[0].target in Newly(h, h') && operations[q].result !in Targets(work);
      assert OperationOk(h', operations[q]);
    }
  }

  lemma RetireKeepsSequences(table: Table, trace: seq<Event>, q: nat)
    requires SequencesOk(table, trace) && q in table.operations
    ensures SequencesOk(Retire(table, q), trace)
  {
  }

  /** The futures outside this operation are as they were, but for those user code chained to it. */
  ghost predicate OthersUntouched(s: Exec, s': Exec, operation: Operation) {
    && |s'.futures| == |s.futures|
    && forall f :: 0 <= f < |s.futures| && s.futures[f].role != Manual && f !in Slots(operation) ==>
         s'.futures[f] == s.futures[f]
  }

  /** The future has completed with this value and no error. */
  ghost predicate Succeeded(s: Exec, f: FutureId, value: Value) {
    f < |s.futures| && s.futures[f].ready && s.futures[f].outcome.value == value && s.futures[f].outcome.fault == None
  }

  ghost predicate FailedWith(s: Exec, f: FutureId, fault: Fault) {
    f < |s.futures| && s.futures[f].ready && s.futures[f].outcome.value == NilValue
    && s.futures[f].outcome.fault == Some(fault)
  }

  /**
   A resolution that applies completes the result of its own operation and retires it, except that a
   child that started only gets its started future. Each resolution has its own value or error.
   */
  lemma ResolutionReachesItsFuture(s: Exec, job: Job)
    requires Integrity(s) && TryApply(s, job).Applied?
    ensures var s' := TryApply(s, job).state;
            && (job.FireTimer? || job.ResolveActivity? || job.ResolveChildStart? || job.ResolveChild?)
            && job.sequence in s.table.operations
            && var operation := s.table.operations[job.sequence];
            && var f := operation.result;
            && OthersUntouched(s, s', operation)
            && (if job.ResolveChildStart? && job.start.StartSucceeded? then
                  s'.table == s.table && s'.futures[f] == s.futures[f]
                else s'.table.operations == s.table.operations - {job.sequence})
            && (match job
                case FireTimer(_) => Succeeded(s', f, NilValue)
                case ResolveActivity(_, _, None) => FailedWith(s', f, MissingResult)
                case ResolveActivity(_, _, Some(ActivityCompleted(payload))) => Succeeded(s', f, PayloadValue(payload))
                case ResolveActivity(_, _, Some(ActivityFailed)) => FailedWith(s', f, OperationFailed)
                case ResolveActivity(_, _, Some(ActivityCancelled)) => FailedWith(s', f, OperationCancelled)
                case ResolveActivity(_, _, Some(ActivityBackoff)) => FailedWith(s', f, BackoffUnsupported)
                case ResolveActivity(_, _, Some(ActivityNoStatus)) => FailedWith(s', f, NoStatus)
                case ResolveChild(_, None) => FailedWith(s', f, MissingResult)
                case ResolveChild(_, Some(ChildCompleted(payload))) => Succeeded(s', f, PayloadValue(payload))
                case ResolveChild(_, Some(ChildFailed)) => FailedWith(s', f, OperationFailed)
                case ResolveChild(_, Some(ChildCancelled)) => FailedWith(s', f, OperationCancelled)
                case ResolveChild(_, Some(ChildNoStatus)) => FailedWith(s', f, NoStatus)
                case ResolveChildStart(_, StartSucceeded(runId)) =>
                  operation.kind.Child?
                  && Succeeded(s', operation.kind.started, ChildStarted(operation.kind.workflowId, runId))
                case ResolveChildStart(_, StartRefused) =>
                  operation.kind.Child? && FailedWith(s', f, StartFailed) && FailedWith(s', operation.kind.started, StartFailed)
                case ResolveChildStart(_, StartWasCancelled) =>
                  operation.kind.Child? && FailedWith(s', f, StartCancelled)
                  && FailedWith(s', operation.kind.started, StartCancelled)
                case _ => false)
  {
    var plan := PlanFor(s.futures, s.table.operations, job);
    PlanTargets(s.futures, s.table.operations, job);
    SetAllDropsChains(s.futures, plan.work);
    CompletedAreManual(s.futures, plan.work);
    var operation := s.table.operations[job.sequence];
    var h' := SetAll(s.futures, plan.work).0;
    forall f | 0 <= f < |s.futures| && s.futures[f].role != Manual && f !in Slots(operation)
      ensures h'[f] == s.futures[f]
    {
      assert f !in Newly(s.futures, h');
    }
    assert forall k :: 0 <= k < |plan.work| ==> h'[plan.work[k].target].ready
                                                && h'[plan.work[k].target].outcome == plan.work[k].outcome;
    assert plan.work[0].target < |h'| && h'[plan.work[0].target].outcome == plan.work[0].outcome;
  }

  /** An activity's or a child's result has no error exactly when it completed. */
  lemma NoFaultMeansCompleted(s: Exec, job: Job)
    requires Integrity(s) && TryApply(s, job).Applied? && (job.ResolveActivity? || job.ResolveChild?)
    ensures var f := s.table.operations[job.sequence].result;
            TryApply(s, job).state.futures[f].outcome.fault == None
            <==> (match job
                  case ResolveActivity(_, _, activity) => activity.Some? && activity.value.ActivityCompleted?
                  case ResolveChild(_, child) => child.Some? && child.value.ChildCompleted?
                  case _ => false)
  {
    ResolutionReachesItsFuture(s, job);
  }

  predicate IsResolution(job: Job) {
    job.FireTimer? || job.ResolveActivity? || job.ResolveChildStart? || job.ResolveChild?
  }

  /** The operation is of the kind that the job resolves, and the job makes sense at this point. */
  ghost predicate Fits(s: Exec, job: Job, operation: Operation)
    requires IsResolution(job)
  {
    match job
    case FireTimer(_) => operation.kind == Timer
    case ResolveActivity(_, isLocal, _) => if isLocal then operation.kind == LocalActivity else operation.kind == Activity
    case ResolveChildStart(_, start) => operation.kind.Child? && start != StartNoStatus
    case ResolveChild(_, _) =>
      && operation.kind.Child? && operation.kind.started < |s.futures|
      && s.futures[operation.kind.started].ready && s.futures[operation.kind.started].outcome.fault == None
    case _ => false
  }

  /** A job stays pending exactly when its number is not outstanding, and is an error exactly when it does not fit. */
  lemma UnmatchedExactly(s: Exec, job: Job)
    ensures TryApply(s, job) == Unmatched <==> IsResolution(job) && job.sequence !in s.table.operations
    ensures TryApply(s, job) == Failed <==>
            !IsResolution(job)
            || (job.sequence in s.table.operations && !Fits(s, job, s.table.operations[job.sequence]))
  {
  }

  lemma TryApplyKeeps(s: Exec, job: Job)
    requires Integrity(s) && TryApply(s, job).Applied?
    ensures Integrity(TryApply(s, job).state)
  {
    ApplyStore(s.futures, s.table.operations, job, s.channels, s.coroutines);
    PlanTargets(s.futures, s.table.operations, job);
    RetireKeepsSequences(s.table, s.out.trace, job.sequence);
  }

  lemma {:induction false} PassKeeps(s: Exec, pending: seq<Job>)
    requires Integrity(s) && Pass(s, pending).PassDone?
    ensures Integrity(Pass(s, pending).state)
    decreases |pending|
  {
    if pending != [] {
      var r := TryApply(s, pending[0]);
      if r.Applied? {
        TryApplyKeeps(s, pending[0]);
        PassKeeps(r.state, pending[1..]);
      } else {
        PassKeeps(s, pending[1..]);
      }
    }
  }

  lemma {:induction false} PendingLoopKeeps(env: Env, s: Exec, pending: seq<Job>, fuel: nat)
    requires s.current == None && Integrity(s) && PendingLoop(env, s, pending, fuel).LoopDone?
    ensures Integrity(PendingLoop(env, s, pending, fuel).state)
    decreases |pending|, if Resting(s) then 0 else 1
  {
    if pending != [] {
      var p := Pass(s, pending);
      PassKeeps(s, pending);
      if p.remaining != [] {
        PassKeepsCurrent(s, pending);
        DriveKeeps(env, p.state, fuel);
        DriveQuiesces(env, p.state, fuel);
        if !p.applied && Resting(s) {
          DriveIdle(env, p.state, fuel);
        }
        PendingLoopKeeps(env, Drive(env, p.state, fuel).state, p.remaining, fuel);
      }
    }
  }

  // ---- Activations ----

  lemma PreparedKeeps(env: Env, s: Exec, jobs: seq<Job>, fuel: nat)
    requires Integrity(s) && Prepared(env, s, jobs, fuel).Settled?
    ensures Integrity(Prepared(env, s, jobs, fuel).state)
  {
    var s0 := DeliverAll(s, Signals(jobs));
    DeliverAllKeeps(s, Signals(jobs));
    DriveKeeps(env, s0, fuel);
    StartUpdatesKeeps(env, Bootstrap(env, s0, fuel).state, Updates(jobs));
  }

  lemma FinishKeeps(env: Env, s: Exec, queries: seq<Job>, fuel: nat)
    requires Integrity(s) && forall j :: j in queries ==> j.QueryWorkflow?
    requires Activation.Finish(env, s, queries, fuel).Activated?
    ensures Integrity(Activation.Finish(env, s, queries, fuel).state)
  {
    DriveKeeps(env, s, fuel);
    AnswerQueriesKeeps(env, Drive(env, s, fuel).state, queries);
  }

  lemma ActivateKeeps(env: Env, s: Exec, jobs: seq<Job>, fuel: nat)
    requires s.current == None && Integrity(s) && Activate(env, s, jobs, fuel).Activated?
    ensures Integrity(Activate(env, s, jobs, fuel).state)
  {
    var s1 := Prepared(env, s, jobs, fuel).state;
    PreparedKeeps(env, s, jobs, fuel);
    PreparedIsIdle(env, s, jobs, fuel);
    PendingLoopKeeps(env, s1, Pending(jobs), fuel);
    FinishKeeps(env, PendingLoop(env, s1, Pending(jobs), fuel).state, Queries(jobs), fuel);
  }
}
