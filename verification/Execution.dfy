/**
 The execution as the object it is: fields updated in place by loops. Each method is proved equal to
 the function of the same step in Interpreter or Activation, for which everything else is proved.

 Futures are held in a store and named by index; FutureObjects has `set` on linked future objects.
 */
module Execution {
  import opened Basics
  import opened Futures
  import opened Interpreter
  import opened Scheduling
  import opened Activation
  import opened Invariants
  import opened Guarantees
  import opened Eviction

  /** How a method that may run out of fuel ends. */
  datatype Status = OutOfFuel | Returned | Error | Panic'

  class WorkflowExecution {
    const env: Env
    var futures: Store
    var nextSequence: nat
    var operations: map<nat, Operation>
    var channels: map<string, Channel>
    var queryHandlers: map<string, Handler>
    var updateHandlers: map<string, UpdateHandler>
    var coroutines: seq<Coroutine>
    var current: Option<nat>
    var commands: seq<Command>
    var terminal: bool
    var started: bool
    var bootstrapped: bool
    var stopped: bool
    var mem: Mem
    ghost var trace: seq<Event>
    ghost var sent: seq<Command>
    ghost var resolved: multiset<nat>

    ghost function State(): Exec
      reads this
    {
      Exec(futures, Table(nextSequence, operations, resolved), channels, Handlers(queryHandlers, updateHandlers),
           coroutines, current, Output(commands, sent, trace), terminal,
           Life(started, bootstrapped, stopped), mem)
    }

    constructor (env: Env, mem: Mem, body: Local)
      ensures State() == Start(mem, body) && this.env == env
    {
      this.env, this.mem := env, mem;
      futures, nextSequence, operations, channels := [], 0, map[], map[];
      queryHandlers, updateHandlers := map[], map[];
      current, commands := None, [];
      terminal, started, bootstrapped, stopped := false, true, false, false;
      trace, sent, resolved := [], [], multiset{};
      coroutines := [Coroutine(body, Answered(Begin), Root, false, None, false)];
    }

    // ---- Commands and futures ----

    method EmitCommand(command: Command)
      modifies this
      ensures State() == Emit(old(State()), command)
    {
      commands := commands + [command];
      trace := trace + [Emitted(command)];
    }

    method NewFuture(role: Role) returns (f: FutureId)
      modifies this`futures
      ensures f == |old(futures)| && State() == Allocate(old(State()), role)
    {
      f := |futures|;
      futures := futures + [Fresh(role)];
    }

    method ReadyFuture(outcome: Outcome) returns (f: FutureId)
      modifies this`futures
      ensures f == |old(futures)| && State() == AllocateReady(old(State()), outcome)
    {
      f := |futures|;
      futures := futures + [Future(Runtime, true, outcome, [])];
    }

    method NextSeq() returns (q: nat)
      modifies this`nextSequence
      ensures q == NextSequence(old(State())) && nextSequence == q
    {
      nextSequence := (nextSequence + 1) % SEQUENCE_SPAN;
      q := nextSequence;
    }

    // ---- Timers, activities and children ----

    method NewTimer(duration: int) returns (f: FutureId)
      modifies this
      ensures f == |old(futures)| && State() == StartTimerOp(old(State()), duration)
    {
      if duration < 0 {
        f := ReadyFuture(RefuseWith(false));
        return;
      }
      var q := NextSeq();
      f := NewFuture(Runtime);
      operations := operations[q := Operation(Timer, f)];
      EmitCommand(StartTimer(q, duration));
    }

    method ExecuteActivity(request: ActivityRequest) returns (f: FutureId)
      modifies this
      ensures f == |old(futures)| && State() == StartActivityOp(old(State()), request)
    {
      if request.activityType == "" || request.startToClose <= 0 {
        f := ReadyFuture(RefuseWith(false));
        return;
      }
      if request.input == None {
        f := ReadyFuture(RefuseWith(true));
        return;
      }
      var q := NextSeq();
      f := NewFuture(Runtime);
      operations := operations[q := Operation(Activity, f)];
      EmitCommand(ScheduleActivity(q, request));
    }

    method ExecuteLocalActivity(request: ActivityRequest) returns (f: FutureId)
      modifies this
      ensures f == |old(futures)| && State() == StartLocalActivityOp(old(State()), request)
    {
      if !LocalActivityValid(request) {
        f := ReadyFuture(RefuseWith(false));
        return;
      }
      if request.input == None {
        f := ReadyFuture(RefuseWith(true));
        return;
      }
      var q := NextSeq();
      f := NewFuture(Runtime);
      operations := operations[q := Operation(LocalActivity, f)];
      EmitCommand(ScheduleLocalActivity(q, request));
    }

    method ExecuteChildWorkflow(request: ChildRequest) returns (result: FutureId, start: FutureId)
      modifies this
      ensures result == |old(futures)| && start == result + 1
      ensures State() == StartChildOp(env, old(State()), request)
    {
      if !ChildValid(request) || request.input == None {
        result := ReadyFuture(RefuseWith(ChildValid(request)));
        start := ReadyFuture(RefuseWith(ChildValid(request)));
        return;
      }
      result := NewFuture(Runtime);
      start := NewFuture(Runtime);
      var q := NextSeq();
      var id := ChildId(env.runId, request, q);
      operations := operations[q := Operation(Child(start, id), result)];
      EmitCommand(StartChild(q, request, id));
    }

    // ---- Signals ----

    method DeliverSignal(name: string, input: seq<Payload>)
      modifies this`futures, this`channels
      ensures State() == Deliver(old(State()), name, input)
    {
      var channel := if name in channels then channels[name] else Channel([], [], [], [], []);
      ghost var all := DeliverTo(futures, channel, input);
      while |channel.waiters| > 0
        invariant futures == old(futures) && channels == old(channels)
        invariant DeliverTo(futures, channel, input) == all
      {
        var waiter := channel.waiters[0];
        channel := channel.(waiters := channel.waiters[1..]);
        if waiter < |futures| && futures[waiter].ready {
          continue;
        }
        futures := SetOne(futures, waiter, Outcome(SignalValue(input), None)).0;
        channels := channels[name := channel.(received := channel.received + [input], receivers := channel.receivers + [Some(waiter)],
                                              delivered := channel.delivered + [input])];
        return;
      }
      channels := channels[name := channel.(buffer := channel.buffer + [input],
                                            delivered := channel.delivered + [input])];
    }

    /** A receiver that is evicted leaves its channel. */
    method EvictReceiver(leaving: Leaving)
      modifies this`channels
      ensures State() == old(State()).(channels := EvictOne(old(channels), leaving))
    {
      if leaving.name !in channels {
        return;
      }
      var channel := channels[leaving.name];
      var i := 0;
      while i < |channel.waiters|
        invariant i <= |channel.waiters| && channels == old(channels)
        invariant leaving.waiter !in channel.waiters[..i]
      {
        if channel.waiters[i] == leaving.waiter {
          break;
        }
        i := i + 1;
      }
      if i < |channel.waiters| {
        RemoveWaiterAt(channel.waiters, i);
        channels := channels[leaving.name :=
          channel.(waiters := channel.waiters[..i] + channel.waiters[i + 1..])];
      } else {
        assert channel.waiters[..i] == channel.waiters;
        RemoveWaiterAbsent(channel.waiters, leaving.waiter);
        assert channels == channels[leaving.name := channel];
      }
    }

    // ---- API calls of the running coroutine ----

    method Reply(c: nat, response: Response)
      requires c < |coroutines|
      modifies this`coroutines
      ensures State() == Answer(old(State()), c, response)
    {
      coroutines := coroutines[c := coroutines[c].(resume := Answered(response))];
    }

    method Set(c: nat, f: FutureId, outcome: Outcome)
      requires c < |coroutines|
      modifies this`futures, this`coroutines
      ensures State() == SetManual(old(State()), c, f, outcome)
    {
      var r := SetOne(futures, f, outcome);
      futures := r.0;
      Reply(c, if r.1 then Unit else Panicked);
    }

    method Chain(c: nat, f: FutureId, other: FutureId)
      requires c < |coroutines|
      modifies this`futures, this`coroutines
      ensures State() == PerformChain(old(State()), c, f, other)
    {
      if f >= |futures| || futures[f].role != Manual || other >= |futures| || futures[other].role == Hidden
         || futures[f].ready {
        Reply(c, Panicked);
      } else if futures[other].ready {
        Set(c, f, futures[other].outcome);
      } else {
        futures := futures[other := futures[other].(chained := futures[other].chained + [f])];
        Reply(c, Unit);
      }
    }

    /** Blocks until the future is ready, as `Get` does with `blockOn`. */
    method GetFuture(c: nat, f: FutureId) returns (end: SliceEnd)
      requires c < |coroutines|
      modifies this`coroutines
      ensures (State(), end) == PerformGet(old(State()), c, f)
    {
      if f >= |futures| || futures[f].role == Hidden {
        Reply(c, Panicked);
        return Continue;
      }
      if futures[f].ready {
        Reply(c, Got(futures[f].outcome));
        return Continue;
      }
      coroutines := coroutines[c := coroutines[c].(resume := AfterGet(f), waiting := Some(f))];
      return Park;
    }

    method TakeSignal(name: string) returns (signal: Option<seq<Payload>>)
      modifies this`channels
      ensures State() == old(State()).(channels := old(channels)[name := TakeFrom(ChannelOf(old(State()), name)).0])
      ensures signal == TakeFrom(ChannelOf(old(State()), name)).1
    {
      var channel := if name in channels then channels[name] else Channel([], [], [], [], []);
      if |channel.buffer| == 0 {
        channels := channels[name := channel];
        return None;
      }
      signal := Some(channel.buffer[0]);
      channels := channels[name := channel.(buffer := channel.buffer[1..],
                                            received := channel.received + [channel.buffer[0]],
                                            receivers := channel.receivers + [None])];
    }

    method ReceiveSignal(c: nat, name: string) returns (end: SliceEnd)
      requires c < |coroutines|
      modifies this`futures, this`channels, this`coroutines
      ensures (State(), end) == PerformReceive(old(State()), c, name)
    {
      var channel := if name in channels then channels[name] else Channel([], [], [], [], []);
      if |channel.buffer| > 0 {
        var signal := TakeSignal(name);
        Reply(c, Received(SignalValue(signal.value)));
        return Continue;
      }
      var waiter := NewFuture(Hidden);
      channels := channels[name := channel.(waiters := channel.waiters + [waiter])];
      coroutines := coroutines[c := coroutines[c].(resume := AfterReceive(waiter), waiting := Some(waiter))];
      return Park;
    }

    /** The function of coroutine `c` returned. */
    method ReturnFrom(c: nat, outcome: Outcome)
      requires c < |coroutines|
      modifies this
      ensures State() == PerformReturn(old(State()), c, outcome)
    {
      match coroutines[c].kind
      case Root =>
        if outcome.fault.Some? {
          FailWith(outcome.fault.value);
        } else {
          EmitCommand(CompleteWorkflow(outcome.value));
          terminal := true;
        }
      case UpdateBody(protocolId) =>
        EmitCommand(UpdateResponse(protocolId, if outcome.fault.Some? then Rejected else Completed(outcome.value)));
      case Routine =>
    }

    method FailWith(fault: Fault)
      modifies this
      ensures State() == FailExecution(old(State()), fault)
    {
      if terminal {
        return;
      }
      EmitCommand(FailWorkflow(fault));
      terminal := true;
    }

    method CallLocal(c: nat, action: Action)
      requires c < |coroutines|
      modifies this
      ensures State() == PerformLocal(old(State()), c, action)
    {
      match action
      case MakeFuture =>
        var f := NewFuture(Manual);
        Reply(c, Ref(f));
      case SetFuture(f, outcome) =>
        if f < |futures| && futures[f].role == Manual {
          Set(c, f, outcome);
        } else {
          Reply(c, Panicked);
        }
      case ChainFuture(f, other) => Chain(c, f, other);
      case IsReady(f) =>
        Reply(c, if f < |futures| && futures[f].role != Hidden then Flag(futures[f].ready) else Panicked);
      case Go(local) =>
        coroutines := coroutines + [Coroutine(local, Answered(Begin), Routine, coroutines[c].highPriority, None, false)];
        Reply(c, Unit);
      case ReceiveAsync(name) =>
        var signal := TakeSignal(name);
        Reply(c, MaybeReceived(signal));
      case SignalCount(name) => Reply(c, Count(if name in channels then |channels[name].buffer| else 0));
      case SetUpdateHandler(name, update) =>
        updateHandlers := updateHandlers[name := update];
        Reply(c, Unit);
      case SetQueryHandler(name, query) =>
        queryHandlers := queryHandlers[name := query];
        Reply(c, Unit);
      case _ =>
    }

    method CallSchedule(c: nat, action: Action)
      requires c < |coroutines|
      modifies this
      ensures State() == PerformSchedule(env, old(State()), c, action)
    {
      match action
      case NewTimer(duration) =>
        var f := NewTimer(duration);
        Reply(c, Ref(f));
      case ExecuteActivity(request) =>
        var f := ExecuteActivity(request);
        Reply(c, Ref(f));
      case ExecuteLocalActivity(request) =>
        var f := ExecuteLocalActivity(request);
        Reply(c, Ref(f));
      case ExecuteChild(request) =>
        var f, start := ExecuteChildWorkflow(request);
        Reply(c, ChildRef(f, start));
      case _ =>
    }

    method Call(c: nat, action: Action) returns (end: SliceEnd)
      requires c < |coroutines|
      modifies this
      ensures (State(), end) == Perform(env, old(State()), c, action)
    {
      end := Continue;
      match action
      case Get(f) => end := GetFuture(c, f);
      case Receive(name) => end := ReceiveSignal(c, name);
      case Return(outcome) =>
        ReturnFrom(c, outcome);
        end := SliceEnd.Finish(None);
      case Panic =>
        if coroutines[c].kind.Root? {
          FailWith(CoroutinePanicked);
          end := SliceEnd.Finish(None);
        } else {
          end := SliceEnd.Finish(Some(CoroutinePanicked));
        }
      case NewTimer(_) => CallSchedule(c, action);
      case ExecuteActivity(_) => CallSchedule(c, action);
      case ExecuteLocalActivity(_) => CallSchedule(c, action);
      case ExecuteChild(_) => CallSchedule(c, action);
      case _ => CallLocal(c, action);
    }

    // ---- Slices and drive ----

    /** Runs user code up to its next API call. */
    method RunUserCode(c: nat) returns (action: Action)
      requires c < |coroutines|
      modifies this`mem, this`coroutines
      ensures var move := env.step(old(mem), old(coroutines)[c].local, ResponseFor(old(State()), c));
              action == move.action && State() == Advance(old(State()), c, move)
    {
      var co := coroutines[c];
      var response := match co.resume
        case Answered(r) => r
        case AfterGet(f) => Got(if f < |futures| then futures[f].outcome else UNSET)
        case AfterReceive(w) => Received(if w < |futures| then futures[w].outcome.value else NilValue);
      var move := env.step(mem, co.local, response);
      mem := move.mem;
      coroutines := coroutines[c := co.(local := move.local, resume := Answered(Unit))];
      action := move.action;
    }

    /** Runs coroutine `c` until it blocks or is over; `ok` is false when the fuel runs out. */
    method RunSlice(c: nat, fuel: nat) returns (ok: bool, fault: Option<Fault>)
      requires c < |coroutines|
      modifies this
      ensures ok == Slice(env, old(State()), c, fuel).Sliced?
      ensures ok ==> Sliced(State(), fault) == Slice(env, old(State()), c, fuel)
    {
      var left := fuel;
      fault := None;
      while left > 0
        invariant c < |coroutines|
        invariant Slice(env, old(State()), c, fuel) == Slice(env, State(), c, left)
      {
        var action := RunUserCode(c);
        var end := Call(c, action);
        left := left - 1;
        if end == Park {
          current := None;
          return true, None;
        }
        if end.Finish? {
          coroutines := coroutines[c := coroutines[c].(done := true)];
          current := None;
          return true, end.fault;
        }
      }
      ok := false;
    }

    method IsRunnable(c: nat) returns (b: bool)
      requires c < |coroutines|
      ensures b == Runnable(State(), c)
    {
      var co := coroutines[c];
      b := !co.done && (co.waiting == None || (co.waiting.value < |futures| && futures[co.waiting.value].ready));
    }

    /** Gives coroutine `i` its turn; `goes` when `drive` goes on after it. */
    method GiveTurn(i: nat, fuel: nat) returns (goes: bool, status: Status)
      requires i < |coroutines|
      modifies this
      ensures match Turn(env, old(State()), i, fuel)
              case TurnStarved => !goes && status == OutOfFuel
              case TurnReturns(r) => !goes && Ends(r, status)
              case TurnGoes(s) => goes && State() == s
    {
      coroutines := coroutines[i := coroutines[i].(waiting := None)];
      current := Some(i);
      trace := trace + [Resumed(i)];
      assert State() == Enter(old(State()), i);
      var ok, fault := RunSlice(i, fuel);
      if !ok {
        return false, OutOfFuel;
      }
      if fault.Some? {
        if coroutines[i].highPriority {
          return false, Error;
        }
        FailWith(fault.value);
      }
      if terminal {
        return false, Returned;
      }
      return true, Returned;
    }

    /** One pass over the coroutines of one priority; `over` when `drive` goes on after it. */
    method RunPass(high: bool, fuel: nat, before: bool)
      returns (over: bool, status: Status, progressed: bool, left: nat)
      modifies this
      ensures left <= fuel && (over ==> left > 0)
      ensures var r := DriveFrom(env, old(State()), high, 0, |old(coroutines)|, before, fuel);
              if over then
                |old(coroutines)| <= |coroutines| &&
                r == DriveFrom(env, State(), high, |old(coroutines)|, |old(coroutines)|, progressed, left)
              else Ends(r, status)
    {
      left, progressed := fuel, before;
      var n := |coroutines|;
      var i := 0;
      while i < n && left > 0
        invariant 0 <= i <= n <= |coroutines| && left <= fuel
        invariant DriveFrom(env, old(State()), high, 0, n, before, fuel)
               == DriveFrom(env, State(), high, i, n, progressed, left)
      {
        var runnable := IsRunnable(i);
        left := left - 1;
        if coroutines[i].highPriority == high && runnable {
          var goes;
          goes, status := GiveTurn(i, left);
          if !goes {
            return false, status, progressed, left;
          }
          progressed := true;
        }
        i := i + 1;
      }
      over, status := left > 0, OutOfFuel;
    }

    /** How a result of `drive` shows in the object. */
    ghost predicate Ends(r: DriveResult, status: Status)
      reads this
    {
      match r
      case Starved => status == OutOfFuel
      case Settled(s) => status == Returned && State() == s
      case Errored(s) => status == Error && State() == s
    }

    method Drive(fuel: nat) returns (status: Status)
      modifies this
      ensures Ends(Interpreter.Drive(env, old(State()), fuel), status)
    {
      if terminal {
        return Returned;
      }
      var left, progressed := fuel, true;
      while progressed
        invariant progressed ==>
                    DriveFrom(env, old(State()), true, 0, |old(coroutines)|, false, fuel)
                    == DriveFrom(env, State(), true, 0, |coroutines|, false, left)
        invariant !progressed ==>
                    DriveFrom(env, old(State()), true, 0, |old(coroutines)|, false, fuel) == Settled(State())
        decreases left, progressed
      {
        var over;
        over, status, progressed, left := Round(left);
        if !over {
          return;
        }
      }
      status := Returned;
    }

    /** The high-priority pass, then the low-priority pass. */
    method Round(fuel: nat) returns (over: bool, status: Status, progressed: bool, left: nat)
      modifies this
      ensures over ==> left < fuel
      ensures var r := DriveFrom(env, old(State()), true, 0, |old(coroutines)|, false, fuel);
              if over then
                r == if progressed then DriveFrom(env, State(), true, 0, |coroutines|, false, left)
                     else Settled(State())
              else Ends(r, status)
    {
      over, status, progressed, left := RunPass(true, fuel, false);
      if !over {
        return;
      }
      over, status, progressed, left := RunPass(false, left - 1, progressed);
      if over {
        left := left - 1;
      }
    }

    // ---- Resolutions ----

    /** Applies one resolution: sets its futures, then drops the operation. */
    method TryApplyJob(job: Job) returns (matched: bool, status: Status)
      modifies this
      ensures match TryApply(old(State()), job)
              case Unmatched => !matched && status == Returned && State() == old(State())
              case Failed => status == Error && State() == old(State())
              case Broken(s) => status == Panic' && State() == s
              case Applied(s) => matched && status == Returned && State() == s
    {
      matched, status := false, Returned;
      var plan := PlanFor(futures, operations, job);
      match plan
      case Refuse => status := Error;
      case NoMatch =>
      case Apply(work, retire) =>
        var r := SetAll(futures, work);
        futures := r.0;
        if !r.1 {
          status := Panic';
          return;
        }
        if retire {
          operations := operations - {job.sequence};
          resolved := resolved + multiset{job.sequence};
        }
        matched := true;
    }

    /**
     One pass over the first `n` jobs of the buffer. Jobs that do not match are moved to its front in
     place, over jobs that were already looked at.
     */
    method ApplyPass(buffer: array<Job>, n: nat) returns (status: Status, kept: nat, applied: bool)
      requires n <= buffer.Length
      modifies this, buffer
      ensures kept <= n
      ensures PassEnds(Pass(old(State()), old(buffer[..n])), status, buffer, kept, applied)
    {
      kept, applied := 0, false;
      var i := 0;
      ghost var jobs, front := buffer[..n], [];
      ghost var whole := Pass(State(), jobs);
      while i < n
        invariant kept <= i <= n
        invariant buffer[i..n] == jobs[i..] && buffer[..kept] == front
        invariant whole == Resumes(Pass(State(), jobs[i..]), front, applied)
      {
        var job := buffer[i];
        assert job == buffer[i..n][0];
        PassStep(State(), jobs[i..], front, applied);
        assert jobs[i..][1..] == jobs[i + 1..];
        var matched;
        matched, status := TryApplyJob(job);
        if status != Returned {
          return;
        }
        if matched {
          applied := true;
        } else {
          buffer[kept] := job;
          kept, front := kept + 1, front + [job];
        }
        i := i + 1;
      }
      status := Returned;
      assert jobs[n..] == [];
    }

    /** How the result of a pass shows in the object and its buffer. */
    ghost predicate PassEnds(r: PassResult, status: Status, buffer: array<Job>, kept: nat, applied: bool)
      requires kept <= buffer.Length
      reads this, buffer
    {
      match r
      case PassFailed(s) => status == Error && State() == s
      case PassBroken(s) => status == Panic' && State() == s
      case PassDone(s, remaining, some) =>
        status == Returned && State() == s && applied == some && buffer[..kept] == remaining
    }

    /** Applies the pending jobs, driving the workflow between passes. */
    method ApplyPending(buffer: array<Job>, fuel: nat) returns (status: Status)
      requires current == None
      modifies this, buffer
      ensures LoopEnds(PendingLoop(env, old(State()), old(buffer[..]), fuel), status)
    {
      var n: nat := buffer.Length;
      ghost var passes := 0;
      assert buffer[..n] == buffer[..];
      ghost var whole := PendingLoop(env, State(), buffer[..n], fuel);
      while n > 0
        invariant n <= buffer.Length && current == None
        invariant whole == More(PendingLoop(env, State(), buffer[..n], fuel), passes)
        decreases n, if Resting(State()) then 0 else 1
      {
        var over;
        over, status, n := PassAndDrive(buffer, n, fuel);
        if over {
          return;
        }
        passes := passes + 1;
      }
      status := Returned;
      assert buffer[..0] == [];
    }

    /** One pass over the pending jobs, and the `drive` after it when some are left. */
    method PassAndDrive(buffer: array<Job>, n: nat, fuel: nat) returns (over: bool, status: Status, kept: nat)
      requires current == None && 0 < n <= buffer.Length
      modifies this, buffer
      ensures kept <= n
      ensures var r := PendingLoop(env, old(State()), old(buffer[..n]), fuel);
              if over then LoopEnds(r, status)
              else
                && current == None
                && r == OneMore(PendingLoop(env, State(), buffer[..kept], fuel))
                && (kept < n || (Resting(State()) && !Resting(old(State()))))
    {
      ghost var s0, jobs := State(), buffer[..n];
      var applied;
      status, kept, applied := ApplyPass(buffer, n);
      if status != Returned || kept == 0 {
        return true, status, kept;
      }
      var beforeSequence, beforeOperations := nextSequence, |operations|;
      PassKeepsCurrent(s0, jobs);
      status := Drive(fuel);
      if status != Returned {
        return true, status, kept;
      }
      LoopStep(env, s0, jobs, fuel);
      if !applied && beforeSequence == nextSequence && beforeOperations == |operations| {
        return true, Error, kept;
      }
      over := false;
    }

    ghost predicate LoopEnds(r: LoopResult, status: Status)
      reads this
    {
      match r
      case LoopStarved => status == OutOfFuel
      case LoopFailed(s, _) => status == Error && State() == s
      case LoopBroken(s, _) => status == Panic' && State() == s
      case LoopDone(s, _) => status == Returned && State() == s
    }

    // ---- Updates and queries ----

    method StartUpdateJob(job: Job)
      requires job.DoUpdate?
      modifies this
      ensures State() == StartUpdate(env, old(State()), job)
    {
      trace := trace + [UpdateBegun(job.protocolId)];
      if job.update !in updateHandlers {
        EmitCommand(UpdateResponse(job.protocolId, Rejected));
        return;
      }
      var update := updateHandlers[job.update];
      var decoded := env.decode(update.handler, job.arguments);
      if decoded.None? {
        EmitCommand(UpdateResponse(job.protocolId, Rejected));
        return;
      }
      if job.runValidator && update.validator.Some? {
        var r := env.validate(mem, View(futures, channels), update.validator.value, decoded.value);
        mem := r.0;
        if !r.1 {
          EmitCommand(UpdateResponse(job.protocolId, Rejected));
          return;
        }
      }
      EmitCommand(UpdateResponse(job.protocolId, Accepted));
      coroutines := coroutines
        + [Coroutine(decoded.value, Answered(Begin), UpdateBody(job.protocolId), true, None, false)];
    }

    method AnswerQueryJob(job: Job)
      requires job.QueryWorkflow?
      modifies this
      ensures State() == AnswerQuery(env, old(State()), job)
    {
      if job.query !in queryHandlers {
        EmitCommand(QueryResponse(job.queryId, None));
        return;
      }
      var r := env.answer(mem, View(futures, channels), queryHandlers[job.query], job.arguments);
      mem := r.0;
      EmitCommand(QueryResponse(job.queryId, r.1));
    }

    // ---- The activation ----

    /** Delivers the signals on the way and sorts the other jobs by kind. */
    method SortJobs(jobs: seq<Job>) returns (pending: seq<Job>, queries: seq<Job>, updates: seq<Job>)
      modifies this`futures, this`channels
      ensures State() == DeliverAll(old(State()), Signals(jobs))
      ensures pending == Pending(jobs) && queries == Queries(jobs) && updates == Updates(jobs)
    {
      pending, queries, updates := [], [], [];
      for i := 0 to |jobs|
        invariant DeliverAll(old(State()), Signals(jobs)) == DeliverAll(State(), Signals(jobs[i..]))
        invariant pending == Pending(jobs[..i])
        invariant queries == Queries(jobs[..i])
        invariant updates == Updates(jobs[..i])
      {
        var job := jobs[i];
        SortStep(jobs, i);
        if job.SignalWorkflow? {
          DeliverSignal(job.name, job.input);
          continue;
        }
        if job.QueryWorkflow? {
          queries := queries + [job];
          continue;
        }
        if job.DoUpdate? {
          updates := updates + [job];
          continue;
        }
        pending := pending + [job];
      }
      assert jobs[..|jobs|] == jobs;
    }

    method ActivateJobs(jobs: seq<Job>, fuel: nat) returns (status: Status, output: seq<Command>)
      requires current == None
      modifies this
      ensures match Activate(env, old(State()), jobs, fuel)
              case ActivateStarved => status == OutOfFuel
              case ActivationFailed(s) => status == Error && State() == s
              case ActivationBroken(s) => status == Panic' && State() == s
              case Activated(s, out) => status == Returned && State() == s && output == out
    {
      output := [];
      if stopped || !started {
        return Error, [];
      }
      ghost var s0 := State();
      PreparedIsIdle(env, s0, jobs, fuel);
      var pending, queries, updates := SortJobs(jobs);
      if !bootstrapped {
        status := Drive(fuel);
        if status != Returned {
          return;
        }
        bootstrapped := true;
      }
      StartAll(updates);
      assert Settled(State()) == Prepared(env, s0, jobs, fuel);
      var buffer := new Job[|pending|](i requires 0 <= i < |pending| => pending[i]);
      assert buffer[..] == pending;
      status := ApplyPending(buffer, fuel);
      if status != Returned {
        return;
      }
      status, output := FinishActivation(queries, fuel);
    }

    method StartAll(updates: seq<Job>)
      requires forall j :: j in updates ==> j.DoUpdate?
      modifies this
      ensures State() == StartUpdates(env, old(State()), updates)
    {
      for i := 0 to |updates|
        invariant StartUpdates(env, old(State()), updates) == StartUpdates(env, State(), updates[i..])
      {
        assert updates[i..][0] == updates[i] && updates[i..][1..] == updates[i + 1..];
        StartUpdateJob(updates[i]);
      }
    }

    method FinishActivation(queries: seq<Job>, fuel: nat) returns (status: Status, output: seq<Command>)
      requires forall j :: j in queries ==> j.QueryWorkflow?
      modifies this
      ensures match Activation.Finish(env, old(State()), queries, fuel)
              case ActivateStarved => status == OutOfFuel
              case ActivationFailed(s) => status == Error && State() == s
              case ActivationBroken(s) => false
              case Activated(s, out) => status == Returned && State() == s && output == out
    {
      output := [];
      status := Drive(fuel);
      if status != Returned {
        return;
      }
      ghost var driven := State();
      for i := 0 to |queries|
        invariant AnswerQueries(env, driven, queries) == AnswerQueries(env, State(), queries[i..])
      {
        assert queries[i..][0] == queries[i] && queries[i..][1..] == queries[i + 1..];
        AnswerQueryJob(queries[i]);
      }
      output := commands;
      sent := sent + commands;
      commands := [];
    }
  }

  /** The next job is the head of what is left and the last of what has been sorted. */
  lemma SortStep(jobs: seq<Job>, i: nat)
    requires i < |jobs|
    ensures if jobs[i].SignalWorkflow? then Signals(jobs[i..]) == [jobs[i]] + Signals(jobs[i + 1..])
            else Signals(jobs[i..]) == Signals(jobs[i + 1..])
    ensures Queries(jobs[..i + 1]) == Queries(jobs[..i]) + (if jobs[i].QueryWorkflow? then [jobs[i]] else [])
    ensures Updates(jobs[..i + 1]) == Updates(jobs[..i]) + (if jobs[i].DoUpdate? then [jobs[i]] else [])
    ensures Pending(jobs[..i + 1]) == Pending(jobs[..i]) + (if IsPending(jobs[i]) then [jobs[i]] else [])
  {
    assert jobs[i..][0] == jobs[i] && jobs[i..][1..] == jobs[i + 1..];
    assert jobs[..i + 1] == jobs[..i] + [jobs[i]];
    QueriesAppend(jobs[..i], jobs[i]);
    UpdatesAppend(jobs[..i], jobs[i]);
    PendingAppend(jobs[..i], jobs[i]);
  }

  lemma {:induction false} QueriesAppend(jobs: seq<Job>, job: Job)
    ensures Queries(jobs + [job]) == Queries(jobs) + (if job.QueryWorkflow? then [job] else [])
  {
    if jobs != [] {
      assert (jobs + [job])[0] == jobs[0] && (jobs + [job])[1..] == jobs[1..] + [job];
      QueriesAppend(jobs[1..], job);
    }
  }

  lemma {:induction false} UpdatesAppend(jobs: seq<Job>, job: Job)
    ensures Updates(jobs + [job]) == Updates(jobs) + (if job.DoUpdate? then [job] else [])
  {
    if jobs != [] {
      assert (jobs + [job])[0] == jobs[0] && (jobs + [job])[1..] == jobs[1..] + [job];
      UpdatesAppend(jobs[1..], job);
    }
  }

  lemma {:induction false} PendingAppend(jobs: seq<Job>, job: Job)
    ensures Pending(jobs + [job]) == Pending(jobs) + (if IsPending(job) then [job] else [])
  {
    if jobs != [] {
      assert (jobs + [job])[0] == jobs[0] && (jobs + [job])[1..] == jobs[1..] + [job];
      PendingAppend(jobs[1..], job);
    }
  }

  /** The first job of a pass that has already kept some jobs. */
  lemma PassStep(s: Exec, jobs: seq<Job>, kept: seq<Job>, applied: bool)
    requires jobs != []
    ensures match TryApply(s, jobs[0])
            case Failed => Resumes(Pass(s, jobs), kept, applied) == PassFailed(s)
            case Broken(s') => Resumes(Pass(s, jobs), kept, applied) == PassBroken(s')
            case Unmatched =>
              Resumes(Pass(s, jobs), kept, applied) == Resumes(Pass(s, jobs[1..]), kept + [jobs[0]], applied)
            case Applied(s') =>
              Resumes(Pass(s, jobs), kept, applied) == Resumes(Pass(s', jobs[1..]), kept, true)
  {
    if TryApply(s, jobs[0]).Unmatched? && Pass(s, jobs[1..]).PassDone? {
      var rest := Pass(s, jobs[1..]).remaining;
      assert kept + ([jobs[0]] + rest) == (kept + [jobs[0]]) + rest;
    }
  }

  /** One pass that leaves something, and the `drive` after it. */
  lemma LoopStep(env: Env, s: Exec, pending: seq<Job>, fuel: nat)
    requires s.current == None && pending != []
    requires Pass(s, pending).PassDone? && Pass(s, pending).remaining != []
    requires Drive(env, Pass(s, pending).state, fuel).Settled?
    ensures var p := Pass(s, pending);
            var s2 := Drive(env, p.state, fuel).state;
            && s2.current == None && Resting(s2)
            && (if !p.applied && SameProgress(p.state, s2) then
                  PendingLoop(env, s, pending, fuel) == LoopFailed(s2, 1)
                else
                  && PendingLoop(env, s, pending, fuel) == OneMore(PendingLoop(env, s2, p.remaining, fuel))
                  && (|p.remaining| < |pending| || (|p.remaining| == |pending| && !Resting(s))))
  {
    PassKeepsCurrent(s, pending);
    var s1 := Pass(s, pending).state;
    DriveQuiesces(env, s1, fuel);
    if Resting(s1) {
      DriveIdle(env, s1, fuel);
    }
  }

  /** A pass resumed in the middle, with these jobs already kept. */
  ghost function Resumes(r: PassResult, kept: seq<Job>, applied: bool): PassResult {
    match r
    case PassDone(s, remaining, some) => PassDone(s, kept + remaining, applied || some)
    case _ => r
  }

  ghost function More(r: LoopResult, passes: nat): LoopResult {
    match r
    case LoopStarved => r
    case LoopFailed(s, n) => LoopFailed(s, n + passes)
    case LoopBroken(s, n) => LoopBroken(s, n + passes)
    case LoopDone(s, n) => LoopDone(s, n + passes)
  }
}
