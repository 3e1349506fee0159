/**
 What an API call means to the user code that makes it: what it is told, at once or after blocking, and
 what becomes of its request once Core answers. Each statement follows a call through the functions that
 handle it.
 */
module Meaning {
  import opened Basics
  import opened Futures
  import opened FutureGraph
  import opened Interpreter
  import opened Activation
  import opened Invariants
  import opened Runs

  /** The same state, in which coroutine `c` is answered like this when it runs next. */
  function Told(s: Exec, c: nat, response: Response): Exec
    requires c < |s.coroutines|
  {
    s.(coroutines := s.coroutines[c := s.coroutines[c].(resume := Answered(response))])
  }

  // ---- Blocking ----

  /**
   User code hears exactly what it was answered, with its own memory and control point, and the call it
   makes then decides how the slice goes on.
   */
  lemma UserCodeHears(env: Env, s: Exec, c: nat, response: Response, fuel: nat)
    requires c < |s.coroutines| && s.coroutines[c].resume == Answered(response) && fuel > 0
    ensures var move := env.step(s.mem, s.coroutines[c].local, response);
            var moved := s.(mem := move.mem,
                            coroutines := s.coroutines[c := s.coroutines[c].(local := move.local, resume := Answered(Unit))]);
            var (s', end) := Perform(env, moved, c, move.action);
            Slice(env, s, c, fuel)
            == (match end
                case Continue => Slice(env, s', c, fuel - 1)
                case Park => Sliced(s'.(current := None), None)
                case Finish(fault) =>
                  Sliced(s'.(coroutines := s'.coroutines[c := s'.coroutines[c].(done := true)], current := None), fault))
  {
  }

  /** `Get` on a future that is not ready blocks, until that future is ready whatever else happens. */
  lemma GetBlocksUntilReady(env: Env, s: Exec, c: nat, f: FutureId, h: Store)
    requires c < |s.coroutines| && !s.coroutines[c].done
    requires f < |s.futures| && s.futures[f].role != Hidden && !s.futures[f].ready
    ensures var r := Perform(env, s, c, Get(f));
            && r.1 == Park && r.0.coroutines[c].resume == AfterGet(f)
            && r.0 == s.(coroutines := r.0.coroutines)
            && (Runnable(r.0.(futures := h), c) <==> f < |h| && h[f].ready)
  {
  }

  /**
   A coroutine that blocked in `Get` goes on exactly as if it had called `Get` only now that the future
   is ready: it is told the value and error of that future.
   */
  lemma BlockedGetIsLateGet(env: Env, s: Exec, c: nat, f: FutureId, fuel: nat)
    requires c < |s.coroutines| && s.coroutines[c].resume == AfterGet(f)
    requires f < |s.futures| && s.futures[f].role != Hidden && s.futures[f].ready
    ensures Slice(env, s, c, fuel) == Slice(env, Told(s, c, Got(s.futures[f].outcome)), c, fuel)
    ensures PerformGet(s, c, f) == (Told(s, c, Got(s.futures[f].outcome)), Continue)
  {
    SameTelling(env, s, Told(s, c, Got(s.futures[f].outcome)), c, fuel);
  }

  /** A coroutine that blocked in `Receive` is told the signal that its waiter was given. */
  lemma BlockedReceiveIsTold(env: Env, s: Exec, c: nat, w: FutureId, fuel: nat)
    requires c < |s.coroutines| && s.coroutines[c].resume == AfterReceive(w) && w < |s.futures|
    ensures Slice(env, s, c, fuel) == Slice(env, Told(s, c, Received(s.futures[w].outcome.value)), c, fuel)
  {
    SameTelling(env, s, Told(s, c, Received(s.futures[w].outcome.value)), c, fuel);
  }

  /** What was answered does not stay behind in the state. */
  lemma SameTelling(env: Env, s: Exec, t: Exec, c: nat, fuel: nat)
    requires c < |s.coroutines| && t == s.(coroutines := t.coroutines)
    requires |t.coroutines| == |s.coroutines|
    requires t.coroutines == s.coroutines[c := s.coroutines[c].(resume := t.coroutines[c].resume)]
    requires ResponseFor(s, c) == ResponseFor(t, c)
    ensures Slice(env, s, c, fuel) == Slice(env, t, c, fuel)
  {
    if fuel > 0 {
      var move := env.step(s.mem, s.coroutines[c].local, ResponseFor(s, c));
      assert Advance(s, c, move) == Advance(t, c, move);
    }
  }

  /** A waiter that is ready already is passed over; DeliverSkipsNobody (in Runs) says that none ever is. */
  lemma ReadyWaiterIsSkipped(s: Exec, name: string, input: seq<Payload>)
    requires name in s.channels && s.channels[name].waiters != []
    requires var w := s.channels[name].waiters[0]; w < |s.futures| && s.futures[w].ready
    ensures var c := s.channels[name];
            Deliver(s, name, input) == Deliver(s.(channels := s.channels[name := c.(waiters := c.waiters[1..])]), name, input)
  {
    var c := s.channels[name];
    var skipped := s.channels[name := c.(waiters := c.waiters[1..])];
    var d := DeliverTo(s.futures, c.(waiters := c.waiters[1..]), input).1;
    var after := d.(delivered := d.delivered + [input]);
    assert skipped[name := after] == s.channels[name := after];
  }

  /** The future a waiter stands for is completed by the next signal, and its receiver is told that signal. */
  lemma WokenReceiverIsTold(env: Env, s: Exec, name: string, input: seq<Payload>, c: nat, fuel: nat)
    requires Integrity(s) && ChannelOf(s, name).waiters != []
    requires c < |s.coroutines| && s.coroutines[c].resume == AfterReceive(ChannelOf(s, name).waiters[0])
    ensures var woken := Deliver(s, name, input);
            Slice(env, woken, c, fuel) == Slice(env, Told(woken, c, Received(SignalValue(input))), c, fuel)
  {
    DeliverSkipsNobody(s, name, input);
    var w := ChannelOf(s, name).waiters[0];
    assert ChannelOk(s.futures, s.channels[name]) && WaiterOk(s.futures, w);
    BlockedReceiveIsTold(env, Deliver(s, name, input), c, w, fuel);
  }

  /** The channel once the receiver and the signal have met. */
  function Met(channel: Channel, input: seq<Payload>, receiver: Option<FutureId>): Channel {
    Channel([], [], channel.delivered + [input], channel.received + [input], channel.receivers + [receiver])
  }

  lemma ReceiverFirst(s: Exec, c: nat, name: string, input: seq<Payload>)
    requires c < |s.coroutines| && ChannelOf(s, name).waiters == [] && ChannelOf(s, name).buffer == []
    ensures var parked := PerformReceive(s, c, name);
            var woken := Deliver(parked.0, name, input);
            var w := |s.futures|;
            && parked.1 == Park && woken.coroutines == parked.0.coroutines
            && woken.coroutines[c].resume == AfterReceive(w)
            && |woken.futures| == w + 1 && woken.futures[w].outcome == Outcome(SignalValue(input), None)
            && woken.channels == s.channels[name := Met(ChannelOf(s, name), input, Some(|s.futures|))]
  {
    var w := |s.futures|;
    var parked := PerformReceive(s, c, name).0;
    assert ChannelOf(parked, name) == ChannelOf(s, name).(waiters := [w]);
    SetFresh(parked.futures, w, Outcome(SignalValue(input), None));
    assert [w][1..] == [];
    assert ChannelOf(Deliver(parked, name, input), name) == Met(ChannelOf(s, name), input, Some(|s.futures|));
    var met := Met(ChannelOf(s, name), input, Some(w));
    assert parked.channels[name := met] == s.channels[name := met];
  }

  lemma SignalFirst(s: Exec, c: nat, name: string, input: seq<Payload>)
    requires c < |s.coroutines| && ChannelOf(s, name).waiters == [] && ChannelOf(s, name).buffer == []
    ensures var early := PerformReceive(Deliver(s, name, input), c, name);
            && early.1 == Continue
            && early.0 == Told(s, c, Received(SignalValue(input)))
                            .(channels := s.channels[name := Met(ChannelOf(s, name), input, None)])
  {
    var delivered := Deliver(s, name, input);
    var buffered := ChannelOf(s, name).(buffer := [input], delivered := ChannelOf(s, name).delivered + [input]);
    assert delivered == s.(channels := s.channels[name := buffered]) by {
      assert [] + [input] == [input];
    }
    var met := Met(ChannelOf(s, name), input, None);
    assert TakeFrom(buffered) == (met, Some(input)) by {
      assert [input][1..] == [];
    }
    assert delivered.channels[name := met] == s.channels[name := met];
  }

  /** A signal reaches a receiver alike when it comes first and when the receiver does. */
  lemma ReceiveAndDeliverCommute(env: Env, s: Exec, c: nat, name: string, input: seq<Payload>, fuel: nat)
    requires c < |s.coroutines| && ChannelOf(s, name).waiters == [] && ChannelOf(s, name).buffer == []
    ensures var woken := Deliver(PerformReceive(s, c, name).0, name, input);
            var early := PerformReceive(Deliver(s, name, input), c, name).0;
            && Slice(env, woken, c, fuel) == Slice(env, Told(woken, c, Received(SignalValue(input))), c, fuel)
            && early.coroutines == s.coroutines[c := s.coroutines[c].(resume := Answered(Received(SignalValue(input))))]
            && ChannelOf(woken, name).(receivers := []) == ChannelOf(early, name).(receivers := [])
  {
    ReceiverFirst(s, c, name, input);
    SignalFirst(s, c, name, input);
    BlockedReceiveIsTold(env, Deliver(PerformReceive(s, c, name).0, name, input), c, |s.futures|, fuel);
  }

  /** Completing an unready future that nothing is chained to. */
  lemma SetFresh(h: Store, f: FutureId, outcome: Outcome)
    requires f < |h| && !h[f].ready && h[f].chained == []
    ensures SetOne(h, f, outcome) == (h[f := Future(h[f].role, true, outcome, [])], true)
  {
    var work := [Assign(f, outcome)];
    assert work[1..] == [] && Fan(h[f].chained, outcome) == [];
    var h1 := MarkReady(h, work[0]);
    assert SetAll(h1, []) == (h1, true);
    assert ClearChain(h1, f) == h[f := Future(h[f].role, true, outcome, [])];
    assert SetAll(ClearChain(h1, f), work[1..]) == (ClearChain(h1, f), true);
  }

  // ---- Requests to Core: call, command, resolution, future ----

  /**
   A call scheduled one operation: one more command, a new sequence number, and `f` a new future that
   nobody has completed; whatever was outstanding under another number still is.
   */
  ghost predicate Schedules(s: Exec, s': Exec, c: nat, f: FutureId, response: Response, command: Command) {
    && c < |s.coroutines| && s'.out.commands == s.out.commands + [command]
    && s'.table.nextSequence == (s.table.nextSequence + 1) % 0x1_0000_0000
    && |s.futures| <= f < |s'.futures| && !s'.futures[f].ready
    && s'.coroutines == s.coroutines[c := s.coroutines[c].(resume := Answered(response))]
    && (forall q :: q in s.table.operations && q != s'.table.nextSequence ==>
          q in s'.table.operations && s'.table.operations[q] == s.table.operations[q])
    && s'.channels == s.channels && s'.terminal == s.terminal
  }

  /** A refused call: no command, no number, no operation; the coroutine gets a future that has failed. */
  ghost predicate Refuses(s: Exec, s': Exec, c: nat, f: FutureId, response: Response, fault: Fault) {
    && c < |s.coroutines| && s'.out == s.out && s'.table == s.table && s'.channels == s.channels
    && |s.futures| <= f < |s'.futures| && s'.futures[f].ready && s'.futures[f].outcome == Outcome(NilValue, Some(fault))
    && s'.coroutines == s.coroutines[c := s.coroutines[c].(resume := Answered(response))]
  }

  /** Applying this job completes `f` with this outcome and takes the operation out of the table. */
  ghost predicate Resolves(s: Exec, job: Job, q: nat, f: FutureId, outcome: Outcome) {
    var r := TryApply(s, job);
    && r.Applied? && f < |r.state.futures|
    && r.state.futures[f].ready && r.state.futures[f].outcome == outcome
    && q !in r.state.table.operations
  }

  /**
   `NewTimer`: the coroutine gets a future, Core the duration; and firing the timer with the number in
   that command completes that future. A negative duration is refused.
   */
  lemma TimerRoundTrip(env: Env, s: Exec, c: nat, duration: int)
    requires c < |s.coroutines|
    ensures var s' := Perform(env, s, c, NewTimer(duration)).0;
            var q, f := s'.table.nextSequence, |s.futures|;
            && Perform(env, s, c, NewTimer(duration)).1 == Continue
            && (if duration < 0 then Refuses(s, s', c, f, Ref(f), InvalidRequest)
                else
                  && Schedules(s, s', c, f, Ref(f), StartTimer(q, duration))
                  && Resolves(s', FireTimer(q), q, f, Outcome(NilValue, None))
                  && TryApply(s', ResolveActivity(q, false, None)).Failed?)
  {
    if duration >= 0 {
      var s' := Perform(env, s, c, NewTimer(duration)).0;
      SetFresh(s'.futures, |s.futures|, Outcome(NilValue, None));
    }
  }

  /** `ExecuteActivity`, with a result that arrives. */
  lemma ActivityRoundTrip(env: Env, s: Exec, c: nat, request: ActivityRequest, payload: Option<Payload>)
    requires c < |s.coroutines|
    ensures var s' := Perform(env, s, c, ExecuteActivity(request)).0;
            var q, f := s'.table.nextSequence, |s.futures|;
            && Perform(env, s, c, ExecuteActivity(request)).1 == Continue
            && (if request.activityType == "" || request.startToClose <= 0 then
                  Refuses(s, s', c, f, Ref(f), InvalidRequest)
                else if request.input.None? then Refuses(s, s', c, f, Ref(f), EncodingFailed)
                else
                  && Schedules(s, s', c, f, Ref(f), ScheduleActivity(q, request))
                  && Resolves(s', ResolveActivity(q, false, Some(ActivityCompleted(payload))), q, f,
                              Outcome(PayloadValue(payload), None))
                  && TryApply(s', ResolveActivity(q, true, Some(ActivityCompleted(payload)))).Failed?)
  {
    var s' := Perform(env, s, c, ExecuteActivity(request)).0;
    if !s'.futures[|s.futures|].ready {
      SetFresh(s'.futures, |s.futures|, Outcome(PayloadValue(payload), None));
    }
  }

  /** `ExecuteLocalActivity`: at least one of two timeouts, no negative one. */
  lemma LocalActivityRoundTrip(env: Env, s: Exec, c: nat, request: ActivityRequest, payload: Option<Payload>)
    requires c < |s.coroutines|
    ensures var s' := Perform(env, s, c, ExecuteLocalActivity(request)).0;
            var q, f := s'.table.nextSequence, |s.futures|;
            && Perform(env, s, c, ExecuteLocalActivity(request)).1 == Continue
            && (if request.activityType == "" || (request.scheduleToClose <= 0 && request.startToClose <= 0)
                   || request.scheduleToClose < 0 || request.scheduleToStart < 0 || request.startToClose < 0
                   || request.retryThreshold < 0
                then Refuses(s, s', c, f, Ref(f), InvalidRequest)
                else if request.input.None? then Refuses(s, s', c, f, Ref(f), EncodingFailed)
                else
                  && Schedules(s, s', c, f, Ref(f), ScheduleLocalActivity(q, request))
                  && Resolves(s', ResolveActivity(q, true, Some(ActivityCompleted(payload))), q, f,
                              Outcome(PayloadValue(payload), None))
                  && TryApply(s', ResolveActivity(q, false, Some(ActivityCompleted(payload)))).Failed?)
  {
    var s' := Perform(env, s, c, ExecuteLocalActivity(request)).0;
    if !s'.futures[|s.futures|].ready {
      SetFresh(s'.futures, |s.futures|, Outcome(PayloadValue(payload), None));
    }
  }

  /** A child's ID: the one requested, or else made of the run ID and the sequence number. */
  function NamedBy(runId: string, request: ChildRequest, q: nat): WorkflowId {
    if request.workflowId != "" then GivenId(request.workflowId) else DerivedId(runId, q)
  }

  /** The operation of a child that was just scheduled: two new futures and its ID. */
  ghost predicate ChildOutstanding(s: Exec, q: nat, f: FutureId, id: WorkflowId) {
    && q in s.table.operations && s.table.operations[q] == Operation(Child(f + 1, id), f)
    && f + 1 < |s.futures| && s.futures[f] == Fresh(Runtime) && s.futures[f + 1] == Fresh(Runtime)
  }

  /** The call: refused with two failed futures, or scheduled with two new ones. */
  lemma ChildCall(env: Env, s: Exec, c: nat, request: ChildRequest)
    requires c < |s.coroutines|
    ensures var s' := Perform(env, s, c, ExecuteChild(request)).0;
            var q, f := s'.table.nextSequence, |s.futures|;
            var id := NamedBy(env.runId, request, q);
            && Perform(env, s, c, ExecuteChild(request)).1 == Continue
            && (if request.workflowType == "" || request.executionTimeout < 0 || request.runTimeout < 0
                   || request.taskTimeout < 0
                then
                  && Refuses(s, s', c, f, ChildRef(f, f + 1), InvalidRequest)
                  && Refuses(s, s', c, f + 1, ChildRef(f, f + 1), InvalidRequest)
                else if request.input.None? then
                  && Refuses(s, s', c, f, ChildRef(f, f + 1), EncodingFailed)
                  && Refuses(s, s', c, f + 1, ChildRef(f, f + 1), EncodingFailed)
                else
                  && Schedules(s, s', c, f, ChildRef(f, f + 1), StartChild(q, request, id))
                  && ChildOutstanding(s', q, f, id))
  {
  }

  /** Its start and then its result complete the two futures; the result before the start is an error. */
  ghost predicate ChildAnswered(s: Exec, q: nat, f: FutureId, id: WorkflowId, childRun: string, payload: Option<Payload>) {
    var started := TryApply(s, ResolveChildStart(q, StartSucceeded(childRun)));
    && started.Applied? && f + 1 < |started.state.futures| && !started.state.futures[f].ready
    && started.state.futures[f + 1].ready
    && started.state.futures[f + 1].outcome == Outcome(ChildStarted(id, childRun), None)
    && Resolves(started.state, ResolveChild(q, Some(ChildCompleted(payload))), q, f, Outcome(PayloadValue(payload), None))
    && TryApply(s, ResolveChild(q, Some(ChildCompleted(payload)))).Failed?
  }

  lemma ChildAnswers(s: Exec, q: nat, f: FutureId, id: WorkflowId, childRun: string, payload: Option<Payload>)
    requires ChildOutstanding(s, q, f, id)
    ensures ChildAnswered(s, q, f, id, childRun, payload)
  {
    var up := Outcome(ChildStarted(id, childRun), None);
    SetFresh(s.futures, f + 1, up);
    var started := TryApply(s, ResolveChildStart(q, StartSucceeded(childRun))).state;
    assert started.futures == s.futures[f + 1 := Future(Runtime, true, up, [])];
    SetFresh(started.futures, f, Outcome(PayloadValue(payload), None));
  }

  /**
   `ExecuteChildWorkflow`: two futures. The start completes the second one with the IDs of the child and
   leaves the operation in place, and after it the result completes the first one.
   */
  lemma ChildRoundTrip(env: Env, s: Exec, c: nat, request: ChildRequest, childRun: string, payload: Option<Payload>)
    requires c < |s.coroutines| && request.workflowType != "" && request.input.Some?
    requires request.executionTimeout >= 0 && request.runTimeout >= 0 && request.taskTimeout >= 0
    ensures var s' := Perform(env, s, c, ExecuteChild(request)).0;
            var q, f := s'.table.nextSequence, |s.futures|;
            var id := NamedBy(env.runId, request, q);
            && Schedules(s, s', c, f, ChildRef(f, f + 1), StartChild(q, request, id))
            && ChildAnswered(s', q, f, id, childRun, payload)
  {
    ChildCall(env, s, c, request);
    var s' := Perform(env, s, c, ExecuteChild(request)).0;
    ChildAnswers(s', s'.table.nextSequence, |s.futures|, NamedBy(env.runId, request, s'.table.nextSequence), childRun, payload);
  }

  // ---- Futures of user code ----

  /** A new future is unready, its maker can set it, and `IsReady` tells of any future whether it is. */
  lemma NewFutureIsFresh(env: Env, s: Exec, c: nat, outcome: Outcome, f: FutureId)
    requires c < |s.coroutines|
    ensures var s' := Perform(env, s, c, MakeFuture).0;
            var n := |s.futures|;
            && s' == Told(s, c, Ref(n)).(futures := s'.futures)
            && |s'.futures| == n + 1 && s'.futures[..n] == s.futures && !s'.futures[n].ready
            && Perform(env, s', c, SetFuture(n, outcome)).0.coroutines[c].resume == Answered(Unit)
    ensures f < |s.futures| && s.futures[f].role != Hidden ==>
              Perform(env, s, c, IsReady(f)) == (Told(s, c, Flag(s.futures[f].ready)), Continue)
  {
    var s' := Perform(env, s, c, MakeFuture).0;
    SetFresh(s'.futures, |s.futures|, outcome);
  }

  /** Setting a future and getting it, here or in any other coroutine, gives what was set. */
  lemma SetThenGet(env: Env, s: Exec, c: nat, f: FutureId, outcome: Outcome, d: nat)
    requires c < |s.coroutines| && d < |s.coroutines|
    ensures var s' := Perform(env, s, c, SetFuture(f, outcome)).0;
            s'.coroutines[c].resume == Answered(Unit) ==>
              && f < |s.futures| && s.futures[f].role == Manual && !s.futures[f].ready
              && PerformGet(s', d, f) == (Told(s', d, Got(outcome)), Continue)
  {
    var s' := Perform(env, s, c, SetFuture(f, outcome)).0;
    if s'.coroutines[c].resume == Answered(Unit) {
      SetCompletesReachable(s.futures, f, outcome);
      ReachSelf(s.futures, f);
    }
  }

  /** A future that was set cannot be set again. */
  lemma SetTwicePanics(env: Env, s: Exec, c: nat, f: FutureId, outcome: Outcome)
    requires c < |s.coroutines| && f < |s.futures| && s.futures[f].ready
    ensures Perform(env, s, c, SetFuture(f, outcome)) == (Told(s, c, Panicked), Continue)
  {
    if s.futures[f].role == Manual {
      assert SetOne(s.futures, f, outcome) == (s.futures, false);
    }
  }

  /**
   A future chained to another one that is not ready gets its outcome once that one is completed, and at
   once when it is ready already.
   */
  lemma ChainThenSet(env: Env, s: Exec, c: nat, f: FutureId, other: FutureId, outcome: Outcome)
    requires c < |s.coroutines| && f != other
    ensures var s' := Perform(env, s, c, ChainFuture(f, other)).0;
            s'.coroutines[c].resume == Answered(Unit) ==>
              && f < |s'.futures| && other < |s'.futures|
              && (s.futures[other].ready ==>
                    s'.futures[f].ready && s'.futures[f].outcome == s.futures[other].outcome)
              && (!s.futures[other].ready && SetOne(s'.futures, other, outcome).1 ==>
                    var h := SetOne(s'.futures, other, outcome).0;
                    h[f].ready && h[f].outcome == outcome && h[other].ready && h[other].outcome == outcome)
  {
    var s' := Perform(env, s, c, ChainFuture(f, other)).0;
    if s'.coroutines[c].resume == Answered(Unit) {
      if s.futures[other].ready {
        SetCompletesReachable(s.futures, f, s.futures[other].outcome);
        ReachSelf(s.futures, f);
      } else if SetOne(s'.futures, other, outcome).1 {
        SetCompletesReachable(s'.futures, other, outcome);
        ReachSelf(s'.futures, other);
        ReachSelf(s'.futures, f);
        assert s'.futures[other].chained[|s.futures[other].chained|] == f;
        ReachBehind(s'.futures, other, f, f);
      }
    }
  }

  // ---- Signals without blocking ----

  /**
   `ReceiveAsync` hands out the oldest signal that was delivered and not received yet, if there is one;
   `Len` counts those signals.
   */
  lemma ReceiveAsyncTakesOldest(env: Env, s: Exec, c: nat, name: string)
    requires Integrity(s) && c < |s.coroutines|
    ensures var channel := ChannelOf(s, name);
            var n := |channel.received|;
            var s' := Perform(env, s, c, ReceiveAsync(name)).0;
            && n <= |channel.delivered|
            && Perform(env, s, c, SignalCount(name)).0 == Told(s, c, Count(|channel.delivered| - n))
            && (if n == |channel.delivered| then
                  s'.coroutines == Told(s, c, MaybeReceived(None)).coroutines && ChannelOf(s', name) == channel
                else
                  && s'.coroutines == Told(s, c, MaybeReceived(Some(channel.delivered[n]))).coroutines
                  && ChannelOf(s', name).received == channel.delivered[..n + 1])
  {
    var channel := ChannelOf(s, name);
    if name in s.channels {
      assert ChannelOk(s.futures, channel);
    }
    assert channel.received + channel.buffer == channel.delivered;
  }

  /** `Receive` hands out the same signal at once, or blocks when there is none. */
  lemma ReceiveTakesOldest(env: Env, s: Exec, c: nat, name: string)
    requires Integrity(s) && c < |s.coroutines|
    ensures var channel := ChannelOf(s, name);
            var n := |channel.received|;
            var r := Perform(env, s, c, Receive(name));
            && n <= |channel.delivered|
            && (if n == |channel.delivered| then
                  && r.1 == Park && r.0.coroutines[c].waiting == Some(|s.futures|)
                  && r.0.coroutines[c].resume == AfterReceive(|s.futures|)
                  && ChannelOf(r.0, name) == channel.(waiters := channel.waiters + [|s.futures|])
                else
                  && r.1 == Continue
                  && r.0.coroutines == Told(s, c, Received(SignalValue(channel.delivered[n]))).coroutines
                  && ChannelOf(r.0, name).received == channel.delivered[..n + 1])
  {
    var channel := ChannelOf(s, name);
    if name in s.channels {
      assert ChannelOk(s.futures, channel);
    }
    assert channel.received + channel.buffer == channel.delivered;
  }

  // ---- Coroutines ----

  /** A new coroutine has its creator's priority, is ready to run and starts at its beginning. */
  lemma GoStartsCoroutine(env: Env, s: Exec, c: nat, local: Local)
    requires c < |s.coroutines|
    ensures var s' := Perform(env, s, c, Go(local)).0;
            var n := |s.coroutines|;
            && |s'.coroutines| == n + 1 && s'.coroutines[c].resume == Answered(Unit)
            && s'.coroutines[n].highPriority == s.coroutines[c].highPriority
            && s'.coroutines[n].local == local && s'.coroutines[n].resume == Answered(Begin)
            && Runnable(s', n)
            && (forall d :: 0 <= d < n && d != c ==> s'.coroutines[d] == s.coroutines[d])
  {
  }

  /**
   What the end of a coroutine does: the root completes or fails the workflow, an update handler answers
   its update, and any other coroutine just ends.
   */
  lemma ReturnMeans(env: Env, s: Exec, c: nat, outcome: Outcome)
    requires c < |s.coroutines| && !s.terminal
    ensures var s' := Perform(env, s, c, Return(outcome)).0;
            var added := s'.out.commands[|s.out.commands|..];
            && Perform(env, s, c, Return(outcome)).1 == Finish(None)
            && s.out.commands <= s'.out.commands
            && (match s.coroutines[c].kind
                case Root =>
                  && s'.terminal
                  && added == (if outcome.fault == None then [CompleteWorkflow(outcome.value)]
                               else [FailWorkflow(outcome.fault.value)])
                case UpdateBody(p) =>
                  && !s'.terminal
                  && added == (if outcome.fault == None then [UpdateResponse(p, Completed(outcome.value))]
                               else [UpdateResponse(p, Rejected)])
                case Routine => !s'.terminal && added == [])
  {
  }

  /**
   A panic of the root function fails the workflow, and so does one of an ordinary coroutine; a panic of a
   high-priority coroutine is an error of `drive`.
   */
  lemma PanicMeans(env: Env, s: Exec, i: nat, fuel: nat)
    requires i < |s.coroutines| && fuel > 0 && !s.terminal
    requires env.step(s.mem, s.coroutines[i].local, ResponseFor(Enter(s, i), i)).action == Panic
    requires s.coroutines[i].kind == Root ==> !s.coroutines[i].highPriority
    ensures match Turn(env, s, i, fuel)
            case TurnReturns(Settled(s')) =>
              && !s.coroutines[i].highPriority && s'.terminal
              && s'.out.commands == s.out.commands + [FailWorkflow(CoroutinePanicked)]
            case TurnReturns(Errored(s')) => s.coroutines[i].highPriority && s'.out.commands == s.out.commands
            case _ => false
  {
  }

  // ---- Handlers ----

  /** The handler registered last for a name is the one that is used, and others stay. */
  lemma LastHandlerWins(env: Env, s: Exec, c: nat, name: string, update: UpdateHandler, query: Handler)
    requires c < |s.coroutines|
    ensures var u := Perform(env, s, c, SetUpdateHandler(name, update)).0.handlers;
            && u.updates == s.handlers.updates[name := update] && u.queries == s.handlers.queries
    ensures var q := Perform(env, s, c, SetQueryHandler(name, query)).0.handlers;
            && q.queries == s.handlers.queries[name := query] && q.updates == s.handlers.updates
  {
  }
}
