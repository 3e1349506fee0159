/** Every API call keeps `Integrity`, whatever user code does. */
module Preservation {
  import opened Basics
  import opened Futures
  import opened FutureGraph
  import opened Interpreter
  import opened Invariants

  // ---- The store ----

  /** The store may grow, and only `Manual` futures may have changed state. */
  ghost predicate Sheltered(h1: Store, h2: Store) {
    && |h1| <= |h2|
    && forall f :: 0 <= f < |h1| ==>
         && h2[f].role == h1[f].role
         && (h1[f].role != Manual ==> h2[f].ready == h1[f].ready && h2[f].outcome == h1[f].outcome)
         && (h1[f].role == Hidden ==> h2[f] == h1[f])
  }

  lemma ShelteredKeeps(h1: Store, h2: Store, operations: map<nat, Operation>, channels: map<string, Channel>,
                       coroutines: seq<Coroutine>)
    requires Sheltered(h1, h2)
    requires OperationsOk(h1, operations) && ChannelsOk(h1, channels) && CoroutinesOk(h1, coroutines)
    ensures OperationsOk(h2, operations) && ChannelsOk(h2, channels) && CoroutinesOk(h2, coroutines)
  {
    forall q | q in operations
      ensures OperationOk(h2, operations[q])
    {
      assert OperationOk(h1, operations[q]);
    }
    forall n | n in channels
      ensures ChannelOk(h2, channels[n])
    {
      assert ChannelOk(h1, channels[n]);
      forall i | 0 <= i < |channels[n].waiters|
        ensures WaiterOk(h2, channels[n].waiters[i])
      {
        assert WaiterOk(h1, channels[n].waiters[i]);
      }
    }
  }

  lemma AppendSheltered(h: Store, f: Future)
    requires ManualChains(h) && f.chained == []
    ensures Sheltered(h, h + [f]) && ManualChains(h + [f])
  {
  }

  lemma SetManualSheltered(h: Store, f: FutureId, outcome: Outcome)
    requires ManualChains(h) && f < |h| && h[f].role == Manual
    ensures Sheltered(h, SetOne(h, f, outcome).0) && ManualChains(SetOne(h, f, outcome).0)
  {
    var work := [Assign(f, outcome)];
    CompletedAreManual(h, work);
    var h' := SetAll(h, work).0;
    forall g | 0 <= g < |h| && h[g].role != Manual
      ensures h'[g] == h[g]
    {
      assert forall k :: 0 <= k < |work| ==> work[k].target == f;
    }
  }

  lemma ChainSheltered(h: Store, other: FutureId, f: FutureId)
    requires ManualChains(h) && f < |h| && h[f].role == Manual && other < |h| && h[other].role != Hidden
    ensures Sheltered(h, ChainTo(h, other, f)) && ManualChains(ChainTo(h, other, f))
  {
    var h' := ChainTo(h, other, f);
    forall g, k | 0 <= g < |h'| && 0 <= k < |h'[g].chained|
      ensures h'[g].chained[k] < |h'| && h'[h'[g].chained[k]].role == Manual
    {
      if g == other && k == |h[g].chained| {
        assert h'[g].chained[k] == f;
      } else {
        assert h'[g].chained[k] == h[g].chained[k];
      }
    }
  }

  // ---- The trace ----

  /** Events that say nothing about updates or the end of the workflow. */
  predicate IsPlain(e: Event) {
    e.Resumed? || (e.Emitted? && (IsSchedule(e.command) || e.command.QueryResponse?))
  }

  lemma PlainKeepsUpdates(coroutines: seq<Coroutine>, trace: seq<Event>, e: Event)
    requires UpdatesOk(coroutines, trace)
    requires IsPlain(e) || IsTerminal(e)
    ensures UpdatesOk(coroutines, trace + [e])
  {
    TraceAppend(trace, e);
    forall p
      ensures UpdateOk(coroutines, trace + [e], p)
    {
      assert UpdateOk(coroutines, trace, p);
      assert Replies(trace + [e], p) == Replies(trace, p);
    }
    AppendKeepsFirstReplies(trace, e);
  }

  lemma AppendKeepsFirstReplies(trace: seq<Event>, e: Event)
    requires forall i :: 0 <= i < |trace| && trace[i].UpdateBegun? ==>
               i + 1 < |trace| && FirstReply(trace[i], trace[i + 1])
    requires !e.UpdateBegun?
    ensures forall i :: 0 <= i < |trace + [e]| && (trace + [e])[i].UpdateBegun? ==>
              i + 1 < |trace + [e]| && FirstReply((trace + [e])[i], (trace + [e])[i + 1])
  {
  }

  lemma LiveKeepsTerminal(trace: seq<Event>, e: Event)
    requires TerminalOk(false, trace)
    ensures TerminalOk(IsTerminal(e), trace + [e])
  {
    assert (trace + [e])[|trace|] == e;
    forall i | 0 <= i < |trace + [e]| && IsTerminal((trace + [e])[i])
      ensures i == |trace|
    {
    }
  }

  lemma LightKeepsTerminal(terminal: bool, trace: seq<Event>, e: Event)
    requires TerminalOk(terminal, trace) && IsLight(e)
    ensures TerminalOk(terminal, trace + [e])
  {
    forall i | 0 <= i < |trace + [e]| && IsTerminal((trace + [e])[i])
      ensures i < |trace| && IsTerminal(trace[i])
    {
    }
    if terminal {
      var i :| 0 <= i < |trace| && IsTerminal(trace[i]);
      assert (trace + [e])[i] == trace[i];
    }
    forall i, j | 0 <= i < j < |trace + [e]| && IsTerminal((trace + [e])[i])
      ensures IsLight((trace + [e])[j])
    {
      assert IsTerminal(trace[i]);
    }
  }

  lemma QuietKeepsSequences(table: Table, trace: seq<Event>, e: Event)
    requires SequencesOk(table, trace) && ScheduledIn(e) == []
    ensures SequencesOk(table, trace + [e])
  {
    TraceAppend(trace, e);
    assert Scheduled(trace + [e]) == Scheduled(trace);
  }

  lemma NextModulo(n: nat)
    ensures (n % SEQUENCE_SPAN + 1) % SEQUENCE_SPAN == (n + 1) % SEQUENCE_SPAN
  {
  }

  lemma ScheduleKeepsSequences(table: Table, trace: seq<Event>, operation: Operation, command: Command)
    requires SequencesOk(table, trace) && IsSchedule(command)
    requires command.sequence == (table.nextSequence + 1) % SEQUENCE_SPAN
    ensures SequencesOk(table.(nextSequence := command.sequence,
                               operations := table.operations[command.sequence := operation]),
                        trace + [Emitted(command)])
  {
    var e := Emitted(command);
    var scheduled := Scheduled(trace);
    TraceAppend(trace, e);
    NextModulo(|scheduled|);
    assert Scheduled(trace + [e]) == scheduled + [command.sequence];
    if |scheduled| + 1 < SEQUENCE_SPAN {
      assert command.sequence == |scheduled| + 1;
      assert table.resolved[command.sequence] + (if command.sequence in table.operations then 1 else 0) == 0;
    }
  }

  lemma ScheduleKeepsOperations(h: Store, operations: map<nat, Operation>, q: nat, operation: Operation)
    requires OperationsOk(h, operations) && OperationOk(h, operation)
    requires forall r :: r in operations ==> Slots(operations[r]) !! Slots(operation)
    ensures OperationsOk(h, operations[q := operation])
  {
  }

  lemma OldSlots(h: Store, operations: map<nat, Operation>, q: nat)
    requires OperationsOk(h, operations) && q in operations
    ensures forall f :: f in Slots(operations[q]) ==> f < |h|
  {
    assert OperationOk(h, operations[q]);
  }

  // ---- Coroutines ----

  /** Kinds stay, nothing that was done runs again, and what is waited on exists. */
  ghost predicate SameBodies(c1: seq<Coroutine>, c2: seq<Coroutine>) {
    && |c1| == |c2|
    && forall c :: 0 <= c < |c1| ==> c2[c].kind == c1[c].kind && (c1[c].done ==> c2[c].done)
  }

  lemma SameBodiesKeepUpdates(c1: seq<Coroutine>, c2: seq<Coroutine>, trace: seq<Event>)
    requires SameBodies(c1, c2) && UpdatesOk(c1, trace)
    ensures UpdatesOk(c2, trace)
  {
    forall p
      ensures UpdateOk(c2, trace, p)
    {
      assert UpdateOk(c1, trace, p);
      SameBodiesKeepUpdate(c1, c2, trace, p);
    }
  }

  lemma SameBodiesKeepUpdate(c1: seq<Coroutine>, c2: seq<Coroutine>, trace: seq<Event>, p: string)
    requires SameBodies(c1, c2) && UpdateOk(c1, trace, p)
    ensures UpdateOk(c2, trace, p)
  {
    assert HasBody(c1, p) <==> HasBody(c2, p);
    if Begins(trace, p) == 1 && !Rejection(c1, Replies(trace, p), p) {
      var c :| Acceptance(c1, Replies(trace, p), p, c);
      assert Acceptance(c2, Replies(trace, p), p, c);
    }
  }

  lemma RoutineKeepsUpdates(c1: seq<Coroutine>, extra: Coroutine, trace: seq<Event>)
    requires UpdatesOk(c1, trace) && !extra.kind.UpdateBody?
    ensures UpdatesOk(c1 + [extra], trace)
  {
    var c2 := c1 + [extra];
    forall p
      ensures UpdateOk(c2, trace, p)
    {
      assert UpdateOk(c1, trace, p);
      assert HasBody(c1, p) <==> HasBody(c2, p) by {
        if HasBody(c1, p) {
          var c :| 0 <= c < |c1| && c1[c].kind == UpdateBody(p);
          assert c2[c] == c1[c];
        }
      }
      if Begins(trace, p) == 1 && !Rejection(c1, Replies(trace, p), p) {
        var c :| Acceptance(c1, Replies(trace, p), p, c);
        assert Acceptance(c2, Replies(trace, p), p, c);
      }
    }
  }

  // ---- API calls ----

  /** The state in the middle of a slice of `c`. */
  ghost predicate Inside(s: Exec, c: nat) {
    Integrity(s) && !s.terminal && c < |s.coroutines| && !s.coroutines[c].done
  }

  lemma StoreKeeps(s: Exec, c: nat, h: Store)
    requires Inside(s, c) && Sheltered(s.futures, h) && ManualChains(h)
    ensures Inside(s.(futures := h), c)
  {
    ShelteredKeeps(s.futures, h, s.table.operations, s.channels, s.coroutines);
  }

  /** Changing one coroutine keeps everything, as long as its kind and priority stay. */
  lemma CoroutineKeeps(s: Exec, c: nat, co: Coroutine)
    requires Inside(s, c) && !co.done
    requires co.kind == s.coroutines[c].kind && co.highPriority == s.coroutines[c].highPriority
    requires co.waiting.Some? ==> co.waiting.value < |s.futures|
    ensures Inside(s.(coroutines := s.coroutines[c := co]), c)
  {
    SameBodiesKeepUpdates(s.coroutines, s.coroutines[c := co], s.out.trace);
  }

  lemma AnswerKeeps(s: Exec, c: nat, response: Response)
    requires Inside(s, c)
    ensures Inside(Answer(s, c, response), c)
  {
    assert CoroutinesOk(s.futures, s.coroutines);
    CoroutineKeeps(s, c, s.coroutines[c].(resume := Answered(response)));
  }

  lemma AllocateKeeps(s: Exec, c: nat, f: Future)
    requires Inside(s, c) && f.chained == []
    ensures Inside(s.(futures := s.futures + [f]), c)
  {
    AppendSheltered(s.futures, f);
    StoreKeeps(s, c, s.futures + [f]);
  }

  lemma ScheduleKeeps(s: Exec, c: nat, operation: Operation, command: Command)
    requires Inside(s, c) && IsSchedule(command) && command.sequence == NextSequence(s)
    requires OperationOk(s.futures, operation)
    requires forall q :: q in s.table.operations ==> Slots(s.table.operations[q]) !! Slots(operation)
    ensures Inside(Schedule(s, operation, command), c)
  {
    var trace, e := s.out.trace, Emitted(command);
    ScheduleKeepsSequences(s.table, trace, operation, command);
    ScheduleKeepsOperations(s.futures, s.table.operations, command.sequence, operation);
    PlainKeepsUpdates(s.coroutines, trace, e);
    LiveKeepsTerminal(trace, e);
    TraceAppend(trace, e);
  }

  lemma ScheduleOneKeeps(s: Exec, c: nat, kind: OperationKind, command: Command)
    requires Inside(s, c) && !kind.Child? && IsSchedule(command) && command.sequence == NextSequence(s)
    ensures Inside(Schedule(Allocate(s, Runtime), Operation(kind, |s.futures|), command), c)
  {
    AllocateKeeps(s, c, Fresh(Runtime));
    forall q | q in s.table.operations
      ensures |s.futures| !in Slots(s.table.operations[q])
    {
      OldSlots(s.futures, s.table.operations, q);
    }
    ScheduleKeeps(Allocate(s, Runtime), c, Operation(kind, |s.futures|), command);
  }

  lemma StartChildKeeps(env: Env, s: Exec, c: nat, request: ChildRequest)
    requires Inside(s, c)
    ensures Inside(StartChildOp(env, s, request), c)
  {
    if !ChildValid(request) || request.input == None {
      var refused := Future(Runtime, true, RefuseWith(ChildValid(request)), []);
      AllocateKeeps(s, c, refused);
      AllocateKeeps(s.(futures := s.futures + [refused]), c, refused);
    } else {
      var s1 := Allocate(s, Runtime);
      AllocateKeeps(s, c, Fresh(Runtime));
      AllocateKeeps(s1, c, Fresh(Runtime));
      forall q | q in s.table.operations
        ensures |s.futures| !in Slots(s.table.operations[q]) && |s.futures| + 1 !in Slots(s.table.operations[q])
      {
        OldSlots(s.futures, s.table.operations, q);
      }
      var id := ChildId(env.runId, request, NextSequence(s));
      ScheduleKeeps(Allocate(s1, Runtime), c, Operation(Child(|s.futures| + 1, id), |s.futures|),
                    StartChild(NextSequence(s), request, id));
    }
  }

  lemma PerformScheduleKeeps(env: Env, s: Exec, c: nat, action: Action)
    requires Inside(s, c)
    ensures Inside(PerformSchedule(env, s, c, action), c)
  {
    var f := |s.futures|;
    match action
    case NewTimer(duration) =>
      if duration < 0 {
        AllocateKeeps(s, c, Future(Runtime, true, RefuseWith(false), []));
      } else {
        ScheduleOneKeeps(s, c, Timer, StartTimer(NextSequence(s), duration));
      }
      AnswerKeeps(StartTimerOp(s, duration), c, Ref(f));
    case ExecuteActivity(request) =>
      if !ActivityValid(request) || request.input == None {
        AllocateKeeps(s, c, Future(Runtime, true, RefuseWith(ActivityValid(request)), []));
      } else {
        ScheduleOneKeeps(s, c, Activity, ScheduleActivity(NextSequence(s), request));
      }
      AnswerKeeps(StartActivityOp(s, request), c, Ref(f));
    case ExecuteLocalActivity(request) =>
      if !LocalActivityValid(request) || request.input == None {
        AllocateKeeps(s, c, Future(Runtime, true, RefuseWith(LocalActivityValid(request)), []));
      } else {
        ScheduleOneKeeps(s, c, LocalActivity, ScheduleLocalActivity(NextSequence(s), request));
      }
      AnswerKeeps(StartLocalActivityOp(s, request), c, Ref(f));
    case ExecuteChild(request) =>
      StartChildKeeps(env, s, c, request);
      AnswerKeeps(StartChildOp(env, s, request), c, ChildRef(f, f + 1));
    case _ =>
  }

  lemma SetManualKeeps(s: Exec, c: nat, f: FutureId, outcome: Outcome)
    requires Inside(s, c) && Settable(s, f)
    ensures Inside(SetManual(s, c, f, outcome), c)
  {
    var r := SetOne(s.futures, f, outcome);
    SetManualSheltered(s.futures, f, outcome);
    StoreKeeps(s, c, r.0);
    AnswerKeeps(s.(futures := r.0), c, if r.1 then Unit else Panicked);
  }

  lemma PerformChainKeeps(s: Exec, c: nat, f: FutureId, other: FutureId)
    requires Inside(s, c)
    ensures Inside(PerformChain(s, c, f, other), c)
  {
    if !Settable(s, f) || !Known(s, other) || s.futures[f].ready {
      AnswerKeeps(s, c, Panicked);
    } else if s.futures[other].ready {
      SetManualKeeps(s, c, f, s.futures[other].outcome);
    } else {
      ChainSheltered(s.futures, other, f);
      StoreKeeps(s, c, ChainTo(s.futures, other, f));
      AnswerKeeps(s.(futures := ChainTo(s.futures, other, f)), c, Unit);
    }
  }

  /** Replacing the channel `name` by one with the same or fewer waiters, or one new one. */
  lemma ChannelKeeps(s: Exec, c: nat, name: string, channel: Channel)
    requires Inside(s, c) && ChannelOk(s.futures, channel)
    requires forall m, i, j ::
               m in s.channels && m != name && 0 <= i < |channel.waiters| && 0 <= j < |s.channels[m].waiters|
               ==> channel.waiters[i] != s.channels[m].waiters[j]
    ensures Inside(s.(channels := s.channels[name := channel]), c)
  {
  }

  lemma TakeKeeps(s: Exec, c: nat, name: string)
    requires Inside(s, c)
    ensures Inside(s.(channels := s.channels[name := TakeFrom(ChannelOf(s, name)).0]), c)
  {
    var channel := ChannelOf(s, name);
    var taken := TakeFrom(channel).0;
    if channel.buffer != [] {
      assert channel.buffer == [channel.buffer[0]] + channel.buffer[1..];
    }
    assert ChannelOk(s.futures, taken);
    assert channel.waiters != [] ==> name in s.channels;
    ChannelKeeps(s, c, name, taken);
  }

  lemma PerformReceiveKeeps(s: Exec, c: nat, name: string)
    requires Inside(s, c)
    ensures Inside(PerformReceive(s, c, name).0, c)
  {
    var channel := ChannelOf(s, name);
    if channel.buffer != [] {
      TakeKeeps(s, c, name);
      var taken := TakeFrom(channel);
      AnswerKeeps(s.(channels := s.channels[name := taken.0]), c, Received(SignalValue(taken.1.value)));
    } else {
      var w := |s.futures|;
      var s1 := Allocate(s, Hidden);
      var grown := channel.(waiters := channel.waiters + [w]);
      OldWaiters(s, name);
      AllocateKeeps(s, c, Fresh(Hidden));
      GrownChannelOk(s, name);
      ChannelKeeps(s1, c, name, grown);
      var s2 := s1.(channels := s.channels[name := grown]);
      CoroutineKeeps(s2, c, s2.coroutines[c].(resume := AfterReceive(w), waiting := Some(w)));
    }
  }

  lemma OldWaiters(s: Exec, name: string)
    requires ChannelsOk(s.futures, s.channels)
    ensures forall i :: 0 <= i < |ChannelOf(s, name).waiters| ==> WaiterOk(s.futures, ChannelOf(s, name).waiters[i])
    ensures forall m, j :: m in s.channels && 0 <= j < |s.channels[m].waiters| ==>
              s.channels[m].waiters[j] < |s.futures|
  {
    forall m, j | m in s.channels && 0 <= j < |s.channels[m].waiters|
      ensures WaiterOk(s.futures, s.channels[m].waiters[j])
    {
      assert ChannelOk(s.futures, s.channels[m]);
    }
    if name in s.channels {
      assert ChannelOk(s.futures, s.channels[name]);
    }
  }

  lemma GrownChannelOk(s: Exec, name: string)
    requires ChannelsOk(s.futures, s.channels) && ChannelOf(s, name).buffer == []
    ensures var channel := ChannelOf(s, name);
            ChannelOk(s.futures + [Fresh(Hidden)], channel.(waiters := channel.waiters + [|s.futures|]))
  {
    var channel := ChannelOf(s, name);
    var waiters := channel.waiters + [|s.futures|];
    OldWaiters(s, name);
    assert name in s.channels ==> ChannelOk(s.futures, channel);
    forall i | 0 <= i < |waiters|
      ensures WaiterOk(s.futures + [Fresh(Hidden)], waiters[i])
    {
      if i < |channel.waiters| {
        assert WaiterOk(s.futures, channel.waiters[i]);
      }
    }
  }

  lemma PerformLocalKeeps(s: Exec, c: nat, action: Action)
    requires Inside(s, c)
    ensures Inside(PerformLocal(s, c, action), c)
  {
    match action
    case MakeFuture =>
      AllocateKeeps(s, c, Fresh(Manual));
      AnswerKeeps(Allocate(s, Manual), c, Ref(|s.futures|));
    case SetFuture(f, outcome) =>
      if Settable(s, f) {
        SetManualKeeps(s, c, f, outcome);
      } else {
        AnswerKeeps(s, c, Panicked);
      }
    case ChainFuture(f, other) => PerformChainKeeps(s, c, f, other);
    case IsReady(f) => AnswerKeeps(s, c, if Known(s, f) then Flag(s.futures[f].ready) else Panicked);
    case Go(local) => GoKeeps(s, c, local);
    case ReceiveAsync(name) =>
      TakeKeeps(s, c, name);
      var taken := TakeFrom(ChannelOf(s, name));
      AnswerKeeps(s.(channels := s.channels[name := taken.0]), c, MaybeReceived(taken.1));
    case SignalCount(name) => AnswerKeeps(s, c, Count(|ChannelOf(s, name).buffer|));
    case SetUpdateHandler(name, update) =>
      AnswerKeeps(s.(handlers := s.handlers.(updates := s.handlers.updates[name := update])), c, Unit);
    case SetQueryHandler(name, query) =>
      AnswerKeeps(s.(handlers := s.handlers.(queries := s.handlers.queries[name := query])), c, Unit);
    case _ =>
  }

  lemma GoKeeps(s: Exec, c: nat, local: Local)
    requires Inside(s, c)
    ensures Inside(Answer(AddCoroutine(s, local, Routine, s.coroutines[c].highPriority), c, Unit), c)
  {
    var s1 := AddCoroutine(s, local, Routine, s.coroutines[c].highPriority);
    RoutineKeepsUpdates(s.coroutines, s1.coroutines[|s.coroutines|], s.out.trace);
    AnswerKeeps(s1, c, Unit);
  }

  // ---- The end of a slice ----

  lemma DoneKeeps(s: Exec, c: nat)
    requires Integrity(s) && c < |s.coroutines|
    ensures Integrity(MarkDone(s, c))
  {
    SameBodiesKeepUpdates(s.coroutines, MarkDone(s, c).coroutines, s.out.trace);
  }

  lemma EndKeeps(s: Exec, command: Command)
    requires Integrity(s) && !s.terminal && IsTerminal(Emitted(command))
    ensures Integrity(Emit(s, command).(terminal := true))
  {
    var e := Emitted(command);
    PlainKeepsUpdates(s.coroutines, s.out.trace, e);
    LiveKeepsTerminal(s.out.trace, e);
    QuietKeepsSequences(s.table, s.out.trace, e);
    TraceAppend(s.out.trace, e);
  }

  /** An update handler that returns answers its update once, after the acceptance. */
  lemma ReplyKeeps(s: Exec, c: nat, p: string, reply: UpdateReply)
    requires Inside(s, c) && s.coroutines[c].kind == UpdateBody(p) && reply != Accepted
    ensures Integrity(MarkDone(Emit(s, UpdateResponse(p, reply)), c))
  {
    var e := Emitted(UpdateResponse(p, reply));
    var trace := s.out.trace;
    var after := s.coroutines[c := s.coroutines[c].(done := true)];
    TraceAppend(trace, e);
    LiveKeepsTerminal(trace, e);
    QuietKeepsSequences(s.table, trace, e);
    AppendKeepsFirstReplies(trace, e);
    forall r
      ensures UpdateOk(after, trace + [e], r)
    {
      assert UpdateOk(s.coroutines, trace, r);
      if r == p {
        ReplyKeepsUpdate(s.coroutines, c, trace, p, reply);
      } else {
        assert Replies(trace + [e], r) == Replies(trace, r);
        SameBodiesKeepUpdate(s.coroutines, after, trace, r);
      }
    }
  }

  lemma ReplyKeepsUpdate(coroutines: seq<Coroutine>, c: nat, trace: seq<Event>, p: string, reply: UpdateReply)
    requires UpdateOk(coroutines, trace, p) && reply != Accepted
    requires c < |coroutines| && coroutines[c].kind == UpdateBody(p) && !coroutines[c].done
    ensures UpdateOk(coroutines[c := coroutines[c].(done := true)], trace + [Emitted(UpdateResponse(p, reply))], p)
  {
    var e := Emitted(UpdateResponse(p, reply));
    var after := coroutines[c := coroutines[c].(done := true)];
    TraceAppend(trace, e);
    assert HasBody(coroutines, p);
    if Begins(trace, p) == 1 {
      var d :| Acceptance(coroutines, Replies(trace, p), p, d);
      assert d == c;
      assert Replies(trace + [e], p) == [Accepted, reply];
      assert Acceptance(after, Replies(trace + [e], p), p, c);
    }
  }

  lemma PerformReturnKeeps(s: Exec, c: nat, outcome: Outcome)
    requires Inside(s, c)
    ensures Integrity(MarkDone(PerformReturn(s, c, outcome), c))
  {
    match s.coroutines[c].kind
    case Root =>
      EndKeeps(s, if outcome.fault.Some? then FailWorkflow(outcome.fault.value) else CompleteWorkflow(outcome.value));
      DoneKeeps(PerformReturn(s, c, outcome), c);
    case UpdateBody(p) =>
      ReplyKeeps(s, c, p, if outcome.fault.Some? then Rejected else Completed(outcome.value));
    case Routine => DoneKeeps(s, c);
  }

  lemma FailKeeps(s: Exec, fault: Fault)
    requires Integrity(s)
    ensures Integrity(FailExecution(s, fault))
  {
    if !s.terminal {
      EndKeeps(s, FailWorkflow(fault));
    }
  }

  lemma PerformGetKeeps(s: Exec, c: nat, f: FutureId)
    requires Inside(s, c)
    ensures Inside(PerformGet(s, c, f).0, c)
  {
    if !Known(s, f) {
      AnswerKeeps(s, c, Panicked);
    } else if s.futures[f].ready {
      AnswerKeeps(s, c, Got(s.futures[f].outcome));
    } else {
      CoroutineKeeps(s, c, s.coroutines[c].(resume := AfterGet(f), waiting := Some(f)));
    }
  }

  lemma PanicKeeps(s: Exec, c: nat)
    requires Inside(s, c)
    ensures Integrity(MarkDone(if s.coroutines[c].kind == Root then FailExecution(s, CoroutinePanicked) else s, c))
  {
    FailKeeps(s, CoroutinePanicked);
    DoneKeeps(FailExecution(s, CoroutinePanicked), c);
    DoneKeeps(s, c);
  }

  /** What a slice can go on from after an API call. */
  ghost predicate AfterCall(r: (Exec, SliceEnd), c: nat) {
    c < |r.0.coroutines| && if r.1.Finish? then Integrity(MarkDone(r.0, c)) else Inside(r.0, c)
  }

  /** One API call keeps the invariant, and the last one of a slice too once the coroutine is done. */
  lemma PerformKeeps(env: Env, s: Exec, c: nat, action: Action)
    requires Inside(s, c)
    ensures AfterCall(Perform(env, s, c, action), c)
  {
    match action
    case Get(f) => PerformGetKeeps(s, c, f);
    case Receive(name) => PerformReceiveKeeps(s, c, name);
    case Return(outcome) => PerformReturnKeeps(s, c, outcome);
    case Panic => PanicKeeps(s, c);
    case NewTimer(_) => PerformScheduleKeeps(env, s, c, action);
    case ExecuteActivity(_) => PerformScheduleKeeps(env, s, c, action);
    case ExecuteLocalActivity(_) => PerformScheduleKeeps(env, s, c, action);
    case ExecuteChild(_) => PerformScheduleKeeps(env, s, c, action);
    case _ => PerformLocalKeeps(s, c, action);
  }

  // ---- Slices and drive ----

  lemma EnterKeeps(s: Exec, c: nat)
    requires Inside(s, c)
    ensures Inside(Enter(s, c), c)
  {
    var e := Resumed(c);
    PlainKeepsUpdates(s.coroutines, s.out.trace, e);
    LiveKeepsTerminal(s.out.trace, e);
    QuietKeepsSequences(s.table, s.out.trace, e);
    TraceAppend(s.out.trace, e);
    var s1 := s.(out := s.out.(trace := s.out.trace + [e]));
    assert Inside(s1, c);
    CoroutineKeeps(s1, c, s.coroutines[c].(waiting := None));
  }

  lemma AdvanceKeeps(s: Exec, c: nat, move: Move)
    requires Inside(s, c)
    ensures Inside(Advance(s, c, move), c)
  {
    assert CoroutinesOk(s.futures, s.coroutines);
    CoroutineKeeps(s, c, s.coroutines[c].(local := move.local, resume := Answered(Unit)));
  }

  lemma {:induction false} SliceKeeps(env: Env, s: Exec, c: nat, fuel: nat)
    requires Inside(s, c) && Slice(env, s, c, fuel).Sliced?
    ensures Integrity(Slice(env, s, c, fuel).state)
    decreases fuel
  {
    var move := env.step(s.mem, s.coroutines[c].local, ResponseFor(s, c));
    AdvanceKeeps(s, c, move);
    var s1 := Advance(s, c, move);
    PerformKeeps(env, s1, c, move.action);
    var (s', end) := Perform(env, s1, c, move.action);
    if end == Continue {
      SliceKeeps(env, s', c, fuel - 1);
    }
  }

  lemma TurnKeeps(env: Env, s: Exec, i: nat, fuel: nat)
    requires Inside(s, i)
    ensures var r := Turn(env, s, i, fuel);
            (r.TurnGoes? ==> Live(r.state)) && (r.TurnReturns? ==> GoodEnd(r.result))
  {
    EnterKeeps(s, i);
    var r := Slice(env, Enter(s, i), i, fuel);
    if r.Sliced? {
      SliceKeeps(env, Enter(s, i), i, fuel);
      if r.fault.Some? {
        FailKeeps(r.state, r.fault.value);
      }
    }
  }

  ghost predicate GoodEnd(r: DriveResult) {
    !r.Starved? ==> Integrity(r.state)
  }

  ghost predicate Live(s: Exec) {
    Integrity(s) && !s.terminal
  }

  lemma {:induction false} DriveFromKeeps(
    env: Env, s: Exec, high: bool, i: nat, n: nat, progressed: bool, fuel: nat)
    requires i <= n <= |s.coroutines| && Live(s)
    ensures GoodEnd(DriveFrom(env, s, high, i, n, progressed, fuel))
    decreases fuel, 1
  {
    if fuel > 0 && i < n && s.coroutines[i].highPriority == high && Runnable(s, i) {
      TurnKeeps(env, s, i, fuel - 1);
      var r := Turn(env, s, i, fuel - 1);
      if r.TurnGoes? {
        DriveFromKeeps(env, r.state, high, i + 1, n, true, fuel - 1);
      }
    } else {
      DriveFromKeepsSkip(env, s, high, i, n, progressed, fuel);
    }
  }

  lemma {:induction false} DriveFromKeepsSkip(
    env: Env, s: Exec, high: bool, i: nat, n: nat, progressed: bool, fuel: nat)
    requires i <= n <= |s.coroutines| && Live(s)
    requires i < n ==> s.coroutines[i].highPriority != high || !Runnable(s, i) || fuel == 0
    ensures GoodEnd(DriveFrom(env, s, high, i, n, progressed, fuel))
    decreases fuel, 0
  {
    if fuel > 0 {
      if i < n {
        DriveFromKeeps(env, s, high, i + 1, n, progressed, fuel - 1);
      } else if high {
        DriveFromKeeps(env, s, false, 0, |s.coroutines|, progressed, fuel - 1);
      } else if progressed {
        DriveFromKeeps(env, s, true, 0, |s.coroutines|, false, fuel - 1);
      }
    }
  }

  /** `drive` keeps the invariant whether it returns plainly or with an error. */
  lemma DriveKeeps(env: Env, s: Exec, fuel: nat)
    requires Integrity(s)
    ensures GoodEnd(Drive(env, s, fuel))
  {
    if !s.terminal {
      DriveFromKeeps(env, s, true, 0, |s.coroutines|, false, fuel);
    }
  }
}
