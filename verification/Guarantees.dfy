/** The guarantees of a run, stated on its inputs (jobs) and outputs (commands). */
module Guarantees {
  import opened Basics
  import opened Futures
  import opened FutureGraph
  import opened Interpreter
  import opened Scheduling
  import opened Activation
  import opened Invariants
  import opened Preservation
  import opened Runs
  import opened Progress

  /** A new execution whose root function is about to run. */
  function Start(mem: Mem, body: Local): Exec {
    Exec([], Table(0, map[], multiset{}), map[], Handlers(map[], map[]),
         [Coroutine(body, Answered(Begin), Root, false, None, false)], None,
         Output([], [], []), false, Life(true, false, false), mem)
  }

  lemma StartIntegrity(mem: Mem, body: Local)
    ensures Integrity(Start(mem, body))
  {
    var s := Start(mem, body);
    forall p
      ensures UpdateOk(s.coroutines, s.out.trace, p)
    {
      assert Begins([], p) == 0;
    }
  }

  // ---- One activation ----

  /** The state an activation ends in, however it ends. */
  function EndState(s: Exec, r: ActivateResult): Exec {
    match r
    case ActivateStarved => s
    case ActivationFailed(s') => s'
    case ActivationBroken(s') => s'
    case Activated(s', _) => s'
  }

  lemma {:induction false} SignalsAreSignals(jobs: seq<Job>, n: string)
    ensures SignalInputs(Signals(jobs), n) == SignalInputs(jobs, n)
  {
    if jobs != [] {
      SignalsAreSignals(jobs[1..], n);
      if jobs[0].SignalWorkflow? {
        assert Signals(jobs)[1..] == Signals(jobs[1..]);
      } else {
        assert Signals(jobs) == Signals(jobs[1..]);
      }
    }
  }

  lemma {:induction false} UpdatesAreUpdates(jobs: seq<Job>, p: string)
    ensures UpdateCount(Updates(jobs), p) == UpdateCount(jobs, p)
  {
    if jobs != [] {
      UpdatesAreUpdates(jobs[1..], p);
      if jobs[0].DoUpdate? {
        assert Updates(jobs)[1..] == Updates(jobs[1..]);
      } else {
        assert Updates(jobs) == Updates(jobs[1..]);
      }
    }
  }

  /** `s2` follows `s1` by exactly these jobs being delivered and begun. */
  ghost predicate Consumed(s1: Exec, s2: Exec, jobs: seq<Job>) {
    && Grows(s1, s2)
    && (forall p :: Begins(s2.out.trace, p) == Begins(s1.out.trace, p) + UpdateCount(jobs, p))
    && (forall n :: DeliveredTo(s2.channels, n) == DeliveredTo(s1.channels, n) + SignalInputs(jobs, n))
  }

  lemma GrowsTrans(s1: Exec, s2: Exec, s3: Exec)
    requires Grows(s1, s2) && Grows(s2, s3)
    ensures Grows(s1, s3)
  {
  }

  lemma DeliveredAll(s: Exec, jobs: seq<Job>)
    ensures var s' := DeliverAll(s, Signals(jobs));
            && Later(s, s') && s'.out == s.out
            && forall n :: DeliveredTo(s'.channels, n) == DeliveredTo(s.channels, n) + SignalInputs(jobs, n)
  {
    DeliverAllLater(s, Signals(jobs));
    forall n
      ensures SignalInputs(Signals(jobs), n) == SignalInputs(jobs, n)
    {
      SignalsAreSignals(jobs, n);
    }
  }

  lemma StartedAll(env: Env, s: Exec, jobs: seq<Job>)
    ensures var s' := StartUpdates(env, s, Updates(jobs));
            && Later(s, s') && s'.channels == s.channels
            && forall p :: Begins(s'.out.trace, p) == Begins(s.out.trace, p) + UpdateCount(jobs, p)
  {
    StartUpdatesLater(env, s, Updates(jobs));
    forall p
      ensures UpdateCount(Updates(jobs), p) == UpdateCount(jobs, p)
    {
      UpdatesAreUpdates(jobs, p);
    }
  }

  lemma BootstrapCalm(env: Env, s: Exec, fuel: nat)
    ensures var b := Bootstrap(env, s, fuel); !b.Starved? ==> Calm(s, b.state)
  {
    DriveDriven(env, s, fuel);
  }

  lemma PreparedLater(env: Env, s: Exec, jobs: seq<Job>, fuel: nat)
    ensures var r := Prepared(env, s, jobs, fuel);
            && (!r.Starved? ==> Later(s, r.state))
            && (r.Settled? ==> Consumed(s, r.state, jobs))
  {
    var s0 := DeliverAll(s, Signals(jobs));
    var b := Bootstrap(env, s0, fuel);
    DeliveredAll(s, jobs);
    BootstrapCalm(env, s0, fuel);
    if !b.Starved? {
      LaterTrans(s, s0, b.state);
      if b.Settled? {
        StartedAll(env, b.state, jobs);
        LaterTrans(s, b.state, StartUpdates(env, b.state, Updates(jobs)));
      }
    }
  }

  lemma FinishLater(env: Env, s: Exec, queries: seq<Job>, fuel: nat)
    requires forall j :: j in queries ==> j.QueryWorkflow?
    ensures var r := Activation.Finish(env, s, queries, fuel);
            && Grows(s, EndState(s, r))
            && (r.Activated? ==> Calm(s, r.state.(out := r.state.out.(sent := s.out.sent)))
                                 && r.state.out.sent == s.out.sent + r.commands)
  {
    DriveDriven(env, s, fuel);
    var d := Drive(env, s, fuel);
    if d.Settled? {
      AnswerQueriesLater(env, d.state, queries);
      LaterTrans(s, d.state, AnswerQueries(env, d.state, queries));
    }
  }

  /** However an activation ends, also by an error or a panic, nothing is taken back. */
  lemma ActivateLater(env: Env, s: Exec, jobs: seq<Job>, fuel: nat)
    requires s.current == None
    ensures var r := Activate(env, s, jobs, fuel);
            && Grows(s, EndState(s, r))
            && (r.Activated? ==> Consumed(s, r.state, jobs) && r.state.out.sent == s.out.sent + r.commands)
  {
    PreparedLater(env, s, jobs, fuel);
    PreparedIsIdle(env, s, jobs, fuel);
    var p := Prepared(env, s, jobs, fuel);
    if !s.life.stopped && s.life.started && p.Settled? {
      PendingLoopLater(env, p.state, Pending(jobs), fuel);
      var l := PendingLoop(env, p.state, Pending(jobs), fuel);
      if !l.LoopStarved? {
        LaterTrans(s, p.state, l.state);
        FinishLater(env, l.state, Queries(jobs), fuel);
        var r := Activation.Finish(env, l.state, Queries(jobs), fuel);
        GrowsTrans(s, l.state, EndState(l.state, r));
      }
    }
  }

  /** Once ready, a future keeps its outcome for the rest of the execution. */
  lemma OutcomesAreFinal(env: Env, s: Exec, jobs: seq<Job>, fuel: nat, f: FutureId)
    requires s.current == None && f < |s.futures| && s.futures[f].ready
    ensures var s' := EndState(s, Activate(env, s, jobs, fuel));
            f < |s'.futures| && s'.futures[f].ready && s'.futures[f].outcome == s.futures[f].outcome
  {
    ActivateLater(env, s, jobs, fuel);
  }

  lemma {:induction false} PendingLoopIdle(env: Env, s: Exec, pending: seq<Job>, fuel: nat)
    requires s.current == None
    ensures var r := PendingLoop(env, s, pending, fuel); r.LoopDone? ==> r.state.current == None
    decreases |pending|, if Resting(s) then 0 else 1
  {
    if pending != [] {
      var p := Pass(s, pending);
      if p.PassDone? {
        PassKeepsCurrent(s, pending);
        var d := Drive(env, p.state, fuel);
        if p.remaining != [] && d.Settled? && (p.applied || !SameProgress(p.state, d.state)) {
          DriveQuiesces(env, p.state, fuel);
          if !p.applied && Resting(s) {
            DriveIdle(env, p.state, fuel);
          }
          PendingLoopIdle(env, d.state, p.remaining, fuel);
        }
      }
    }
  }

  lemma {:induction false} AnswerQueriesIdle(env: Env, s: Exec, jobs: seq<Job>)
    requires forall j :: j in jobs ==> j.QueryWorkflow?
    ensures var s' := AnswerQueries(env, s, jobs);
            && s'.current == s.current && s'.coroutines == s.coroutines && s'.futures == s.futures
            && s'.terminal == s.terminal
    decreases |jobs|
  {
    if jobs != [] {
      AnswerQueriesIdle(env, AnswerQuery(env, s, jobs[0]), jobs[1..]);
    }
  }

  /** After a successful activation nothing can run and no commands are left behind. */
  lemma ActivatedRests(env: Env, s: Exec, jobs: seq<Job>, fuel: nat)
    requires s.current == None && Activate(env, s, jobs, fuel).Activated?
    ensures var s' := Activate(env, s, jobs, fuel).state;
            s'.current == None && s'.out.commands == [] && Resting(s')
  {
    var s1 := Prepared(env, s, jobs, fuel).state;
    PreparedIsIdle(env, s, jobs, fuel);
    var l := PendingLoop(env, s1, Pending(jobs), fuel);
    PendingLoopIdle(env, s1, Pending(jobs), fuel);
    DriveQuiesces(env, l.state, fuel);
    var d := Drive(env, l.state, fuel).state;
    AnswerQueriesIdle(env, d, Queries(jobs));
    var s' := Activate(env, s, jobs, fuel).state;
    assert s'.coroutines == d.coroutines && s'.futures == d.futures;
    if !d.terminal {
      forall c | 0 <= c < |s'.coroutines|
        ensures !Runnable(s', c)
      {
        assert !Runnable(d, c);
      }
    }
  }

  // ---- Runs ----

  /** One activation of a run, with fuel for its calls of `drive`. */
  datatype Input = Input(jobs: seq<Job>, fuel: nat)

  datatype RunResult = RunStopped | RunOk(state: Exec, outputs: seq<Command>)

  /** Feeds activations until one of them does not succeed. */
  function Run(env: Env, s: Exec, inputs: seq<Input>): RunResult
    requires s.current == None
    decreases |inputs|
  {
    if inputs == [] then RunOk(s, [])
    else
      match Activate(env, s, inputs[0].jobs, inputs[0].fuel)
      case Activated(s1, commands) =>
        ActivatedRests(env, s, inputs[0].jobs, inputs[0].fuel);
        (match Run(env, s1, inputs[1..])
         case RunOk(s2, outputs) => RunOk(s2, commands + outputs)
         case RunStopped => RunStopped)
      case _ => RunStopped
  }

  function AllJobs(inputs: seq<Input>): seq<Job> {
    if inputs == [] then [] else inputs[0].jobs + AllJobs(inputs[1..])
  }

  lemma {:induction false} UpdateCountConcat(a: seq<Job>, b: seq<Job>, p: string)
    ensures UpdateCount(a + b, p) == UpdateCount(a, p) + UpdateCount(b, p)
  {
    if a == [] {
      assert a + b == b;
    } else {
      assert (a + b)[1..] == a[1..] + b;
      UpdateCountConcat(a[1..], b, p);
    }
  }

  lemma {:induction false} SignalInputsConcat(a: seq<Job>, b: seq<Job>, n: string)
    ensures SignalInputs(a + b, n) == SignalInputs(a, n) + SignalInputs(b, n)
  {
    if a == [] {
      assert a + b == b;
    } else {
      assert (a + b)[1..] == a[1..] + b;
      SignalInputsConcat(a[1..], b, n);
    }
  }

  lemma ConsumedTrans(s1: Exec, s2: Exec, s3: Exec, a: seq<Job>, b: seq<Job>)
    requires Consumed(s1, s2, a) && Consumed(s2, s3, b)
    ensures Consumed(s1, s3, a + b)
  {
    GrowsTrans(s1, s2, s3);
    forall p
      ensures UpdateCount(a + b, p) == UpdateCount(a, p) + UpdateCount(b, p)
    {
      UpdateCountConcat(a, b, p);
    }
    forall n
      ensures SignalInputs(a + b, n) == SignalInputs(a, n) + SignalInputs(b, n)
    {
      SignalInputsConcat(a, b, n);
    }
  }

  lemma {:induction false} CommandsOfConcat(a: seq<Event>, b: seq<Event>)
    ensures CommandsOf(a + b) == CommandsOf(a) + CommandsOf(b)
  {
    if b == [] {
      assert a + b == a;
    } else {
      var init := b[..|b| - 1];
      assert a + b == (a + init) + [b[|b| - 1]] && b == init + [b[|b| - 1]];
      CommandsOfConcat(a, init);
      TraceAppend(a + init, b[|b| - 1]);
      TraceAppend(init, b[|b| - 1]);
    }
  }

  /** The state between two activations of a run. */
  ghost predicate Sound(s: Exec) {
    s.current == None && Integrity(s) && s.out.commands == []
  }

  /** The commands an activation returns are those its part of the trace emits. */
  lemma ActivatedCommands(env: Env, s: Exec, jobs: seq<Job>, fuel: nat)
    requires Sound(s) && Activate(env, s, jobs, fuel).Activated?
    ensures var r := Activate(env, s, jobs, fuel);
            && s.out.trace <= r.state.out.trace
            && r.commands == CommandsOf(r.state.out.trace[|s.out.trace|..])
            && CommandsOf(r.state.out.trace) == CommandsOf(s.out.trace) + r.commands
  {
    var r := Activate(env, s, jobs, fuel);
    ActivateLater(env, s, jobs, fuel);
    ActivateKeeps(env, s, jobs, fuel);
    var t1, t2 := s.out.trace, r.state.out.trace;
    assert t2 == t1 + t2[|t1|..];
    CommandsOfConcat(t1, t2[|t1|..]);
    ActivatedRests(env, s, jobs, fuel);
    assert CommandsOf(t1) == s.out.sent;
    assert CommandsOf(t2) == s.out.sent + r.commands;
    assert (s.out.sent + r.commands)[|s.out.sent|..] == r.commands;
    assert (CommandsOf(t1) + CommandsOf(t2[|t1|..]))[|CommandsOf(t1)|..] == CommandsOf(t2[|t1|..]);
  }
  /** One successful activation of a run. */
  ghost predicate StepOk(s: Exec, jobs: seq<Job>, s': Exec, commands: seq<Command>) {
    Sound(s') && Consumed(s, s', jobs) && CommandsOf(s'.out.trace) == CommandsOf(s.out.trace) + commands
  }

  lemma ActivateStep(env: Env, s: Exec, jobs: seq<Job>, fuel: nat)
    requires Sound(s) && Activate(env, s, jobs, fuel).Activated?
    ensures var r := Activate(env, s, jobs, fuel); StepOk(s, jobs, r.state, r.commands)
  {
    ActivatedRests(env, s, jobs, fuel);
    ActivateKeeps(env, s, jobs, fuel);
    ActivateLater(env, s, jobs, fuel);
    ActivatedCommands(env, s, jobs, fuel);
  }

  /**
   Every reachable state satisfies the invariants, has consumed exactly the jobs it was given, and
   what the activations returned, put together, is exactly what was emitted.
   */
  lemma {:induction false} RunIntegrity(env: Env, s: Exec, inputs: seq<Input>)
    requires Sound(s) && Run(env, s, inputs).RunOk?
    ensures var r := Run(env, s, inputs); StepOk(s, AllJobs(inputs), r.state, r.outputs)
    decreases |inputs|
  {
    if inputs != [] {
      var a := Activate(env, s, inputs[0].jobs, inputs[0].fuel);
      ActivateStep(env, s, inputs[0].jobs, inputs[0].fuel);
      RunIntegrity(env, a.state, inputs[1..]);
      StepTrans(s, inputs[0].jobs, a.state, a.commands, AllJobs(inputs[1..]), Run(env, a.state, inputs[1..]));
    }
  }

  lemma StepTrans(s: Exec, a: seq<Job>, s1: Exec, commands: seq<Command>, b: seq<Job>, r: RunResult)
    requires r.RunOk? && StepOk(s, a, s1, commands) && StepOk(s1, b, r.state, r.outputs)
    ensures StepOk(s, a + b, r.state, commands + r.outputs)
  {
    ConsumedTrans(s, s1, r.state, a, b);
    assert CommandsOf(r.state.out.trace) == CommandsOf(s.out.trace) + (commands + r.outputs);
  }


  // ---- The guarantees ----

  function RunOf(env: Env, mem: Mem, body: Local, inputs: seq<Input>): RunResult {
    Run(env, Start(mem, body), inputs)
  }

  lemma RunSound(env: Env, mem: Mem, body: Local, inputs: seq<Input>)
    requires RunOf(env, mem, body, inputs).RunOk?
    ensures var r := RunOf(env, mem, body, inputs);
            && Sound(r.state) && Consumed(Start(mem, body), r.state, AllJobs(inputs))
            && CommandsOf(r.state.out.trace) == r.outputs
  {
    StartIntegrity(mem, body);
    RunIntegrity(env, Start(mem, body), inputs);
    assert CommandsOf(Start(mem, body).out.trace) == [];
  }

  // One terminal command.

  predicate IsEnd(c: Command) {
    c.CompleteWorkflow? || c.FailWorkflow?
  }

  predicate IsAfterword(c: Command) {
    c.QueryResponse? || (c.UpdateResponse? && (c.reply == Accepted || c.reply == Rejected))
  }

  lemma {:induction false} CommandHasEvent(trace: seq<Event>, k: nat) returns (i: nat)
    requires k < |CommandsOf(trace)|
    ensures i < |trace| && trace[i] == Emitted(CommandsOf(trace)[k]) && CommandsOf(trace[..i]) == CommandsOf(trace)[..k]
  {
    var init, last := trace[..|trace| - 1], trace[|trace| - 1];
    if k < |CommandsOf(init)| {
      i := CommandHasEvent(init, k);
      assert init[..i] == trace[..i];
    } else {
      i := |trace| - 1;
      assert CommandsOf(trace) == CommandsOf(init) + CommandIn(last);
    }
  }

  lemma EventsInOrder(trace: seq<Event>, i: nat, j: nat)
    requires i <= j <= |trace|
    ensures |CommandsOf(trace[..i])| <= |CommandsOf(trace[..j])|
  {
    assert trace[..j] == trace[..i] + trace[i..j];
    CommandsOfConcat(trace[..i], trace[i..j]);
  }

  /**
   Over its whole life an execution returns at most one command that completes or fails the workflow,
   and after it only accepts or rejects updates and answers queries.
   */
  lemma OneTerminalCommand(env: Env, mem: Mem, body: Local, inputs: seq<Input>, i: nat, j: nat)
    requires RunOf(env, mem, body, inputs).RunOk?
    requires i < j < |RunOf(env, mem, body, inputs).outputs| && IsEnd(RunOf(env, mem, body, inputs).outputs[i])
    ensures IsAfterword(RunOf(env, mem, body, inputs).outputs[j])
  {
    RunSound(env, mem, body, inputs);
    var trace := RunOf(env, mem, body, inputs).state.out.trace;
    var a := CommandHasEvent(trace, i);
    var b := CommandHasEvent(trace, j);
    if b <= a {
      EventsInOrder(trace, b, a);
    }
    assert IsTerminal(trace[a]);
    assert IsLight(trace[b]);
  }

  // Updates.

  function RepliesIn(commands: seq<Command>, p: string): seq<UpdateReply> {
    if commands == [] then []
    else RepliesIn(commands[..|commands| - 1], p) + ReplyIn(Emitted(commands[|commands| - 1]), p)
  }

  lemma {:induction false} RepliesFromCommands(trace: seq<Event>, p: string)
    ensures RepliesIn(CommandsOf(trace), p) == Replies(trace, p)
  {
    if trace != [] {
      var init, last := trace[..|trace| - 1], trace[|trace| - 1];
      RepliesFromCommands(init, p);
      assert CommandsOf(trace) == CommandsOf(init) + CommandIn(last);
      if last.Emitted? {
        assert CommandsOf(trace)[..|CommandsOf(trace)| - 1] == CommandsOf(init);
      } else {
        assert CommandsOf(trace) == CommandsOf(init);
      }
    }
  }

  /** The responses an update may ever get, in order. */
  predicate UpdateLanguage(replies: seq<UpdateReply>) {
    || replies == [] || replies == [Rejected] || replies == [Accepted]
    || (|replies| == 2 && replies[0] == Accepted && replies[1] != Accepted)
  }

  /**
   The responses to one protocol instance are a prefix of a rejection, or of an acceptance followed by
   one completion or rejection; and there are none without the update job.
   */
  lemma UpdateResponses(env: Env, mem: Mem, body: Local, inputs: seq<Input>, p: string)
    requires RunOf(env, mem, body, inputs).RunOk? && UpdateCount(AllJobs(inputs), p) <= 1
    ensures UpdateLanguage(RepliesIn(RunOf(env, mem, body, inputs).outputs, p))
    ensures RepliesIn(RunOf(env, mem, body, inputs).outputs, p) == [] <==> UpdateCount(AllJobs(inputs), p) == 0
  {
    RunSound(env, mem, body, inputs);
    var s := RunOf(env, mem, body, inputs).state;
    RepliesFromCommands(s.out.trace, p);
    assert Begins(Start(mem, body).out.trace, p) == 0;
    assert Begins(s.out.trace, p) == UpdateCount(AllJobs(inputs), p);
    RepliesAreInLanguage(s, p);
  }

  lemma RepliesAreInLanguage(s: Exec, p: string)
    requires Integrity(s) && Begins(s.out.trace, p) <= 1
    ensures UpdateLanguage(Replies(s.out.trace, p))
    ensures Replies(s.out.trace, p) == [] <==> Begins(s.out.trace, p) == 0
  {
    assert UpdateOk(s.coroutines, s.out.trace, p);
  }

  /** Each update gets its first response in the activation that brought it. */
  lemma FirstResponseAtOnce(env: Env, s: Exec, jobs: seq<Job>, fuel: nat, p: string)
    requires Sound(s) && Activate(env, s, jobs, fuel).Activated? && UpdateCount(jobs, p) > 0
    ensures var commands := Activate(env, s, jobs, fuel).commands;
            UpdateResponse(p, Accepted) in commands || UpdateResponse(p, Rejected) in commands
  {
    var r := Activate(env, s, jobs, fuel);
    ActivateStep(env, s, jobs, fuel);
    ActivatedCommands(env, s, jobs, fuel);
    var t1, t2 := s.out.trace, r.state.out.trace;
    var i := NewBegin(t1, t2, p);
    assert FirstReply(t2[i], t2[i + 1]);
    EmittedIsCommand(t2[|t1|..], i + 1 - |t1|);
  }

  lemma {:induction false} NewBegin(t1: seq<Event>, t2: seq<Event>, p: string) returns (i: nat)
    requires t1 <= t2 && Begins(t1, p) < Begins(t2, p)
    ensures |t1| <= i < |t2| && t2[i] == UpdateBegun(p)
    decreases |t2|
  {
    var last := |t2| - 1;
    assert t1 != t2;
    if t2[last] == UpdateBegun(p) {
      i := last;
    } else {
      assert t1 <= t2[..last];
      i := NewBegin(t1, t2[..last], p);
    }
  }

  lemma {:induction false} EmittedIsCommand(trace: seq<Event>, i: nat)
    requires i < |trace| && trace[i].Emitted?
    ensures trace[i].command in CommandsOf(trace)
  {
    var init, last := trace[..|trace| - 1], trace[|trace| - 1];
    if i < |init| {
      EmittedIsCommand(init, i);
      assert init[i] == trace[i];
    }
  }

  // Signals.

  /**
   For every signal name, the signals handed to receivers followed by those still buffered are all
   signals of that name in job order; none is buffered while a receiver waits. A receiver that had to
   wait holds exactly the signal it was handed.
   */
  lemma SignalsConserved(env: Env, mem: Mem, body: Local, inputs: seq<Input>, n: string)
    requires RunOf(env, mem, body, inputs).RunOk?
    ensures var channel := ChannelOf(RunOf(env, mem, body, inputs).state, n);
            && channel.received + channel.buffer == SignalInputs(AllJobs(inputs), n)
            && (channel.buffer == [] || channel.waiters == [])
            && ReceiptsOk(RunOf(env, mem, body, inputs).state.futures, channel)
  {
    RunSound(env, mem, body, inputs);
    var s := RunOf(env, mem, body, inputs).state;
    assert DeliveredTo(Start(mem, body).channels, n) == [];
    assert DeliveredTo(s.channels, n) == SignalInputs(AllJobs(inputs), n);
    if n in s.channels {
      assert ChannelOk(s.futures, s.channels[n]);
    }
  }

  // Operations.

  function SequencesIn(commands: seq<Command>): seq<nat> {
    if commands == [] then []
    else SequencesIn(commands[..|commands| - 1]) + ScheduledIn(Emitted(commands[|commands| - 1]))
  }

  lemma {:induction false} SequencesFromCommands(trace: seq<Event>)
    ensures SequencesIn(CommandsOf(trace)) == Scheduled(trace)
  {
    if trace != [] {
      var init, last := trace[..|trace| - 1], trace[|trace| - 1];
      SequencesFromCommands(init);
      assert CommandsOf(trace) == CommandsOf(init) + CommandIn(last);
      if last.Emitted? {
        assert CommandsOf(trace)[..|CommandsOf(trace)| - 1] == CommandsOf(init);
      } else {
        assert CommandsOf(trace) == CommandsOf(init);
      }
    }
  }

  /** Each of the numbers 1..n is outstanding or was resolved once, and there are no others. */
  ghost predicate EachOnce(table: Table, n: nat) {
    && table.nextSequence == n
    && forall q: nat :: table.resolved[q] + (if q in table.operations then 1 else 0) == if 1 <= q <= n then 1 else 0
  }

  lemma UnwrappedSequences(table: Table, trace: seq<Event>)
    requires SequencesOk(table, trace) && |Scheduled(trace)| < SEQUENCE_SPAN
    ensures EachOnce(table, |Scheduled(trace)|)
    ensures forall i :: 0 <= i < |Scheduled(trace)| ==> Scheduled(trace)[i] == i + 1
  {
    forall i | 0 <= i < |Scheduled(trace)|
      ensures Scheduled(trace)[i] == i + 1
    {
      WithinSpan(i);
    }
  }

  /**
   Schedule commands are numbered 1, 2, 3, ...; until the 32-bit counter wraps, each number belongs to
   one outstanding operation or has been resolved exactly once, and nothing else is in the table.
   Outstanding results are unready and no two operations share one.
   */
  lemma EveryOperationOnce(env: Env, mem: Mem, body: Local, inputs: seq<Input>)
    requires RunOf(env, mem, body, inputs).RunOk?
    requires |SequencesIn(RunOf(env, mem, body, inputs).outputs)| < SEQUENCE_SPAN
    ensures var r := RunOf(env, mem, body, inputs);
            var numbers := SequencesIn(r.outputs);
            && (forall i :: 0 <= i < |numbers| ==> numbers[i] == i + 1)
            && EachOnce(r.state.table, |numbers|)
            && OperationsOk(r.state.futures, r.state.table.operations)
  {
    RunSound(env, mem, body, inputs);
    var s := RunOf(env, mem, body, inputs).state;
    SequencesFromCommands(s.out.trace);
    UnwrappedSequences(s.table, s.out.trace);
  }

  /** Sequence numbers stay unambiguous exactly as long as at most 2^32 operations were scheduled. */
  lemma NumbersDistinctUntilWrap(env: Env, mem: Mem, body: Local, inputs: seq<Input>)
    requires RunOf(env, mem, body, inputs).RunOk?
    ensures var numbers := SequencesIn(RunOf(env, mem, body, inputs).outputs);
            (forall i, j :: 0 <= i < j < |numbers| ==> numbers[i] != numbers[j]) <==> |numbers| <= SEQUENCE_SPAN
  {
    RunSound(env, mem, body, inputs);
    var s := RunOf(env, mem, body, inputs).state;
    SequencesFromCommands(s.out.trace);
    var numbers := SequencesIn(RunOf(env, mem, body, inputs).outputs);
    assert SequencesOk(s.table, s.out.trace);
    if |numbers| > SEQUENCE_SPAN {
      assert numbers[0] == 1 && numbers[SEQUENCE_SPAN] == (SEQUENCE_SPAN + 1) % SEQUENCE_SPAN == 1;
    } else {
      forall i, j | 0 <= i < j < |numbers|
        ensures numbers[i] != numbers[j]
      {
        WithinSpan(i);
        WithinSpan(j);
      }
    }
  }

  lemma WithinSpan(i: nat)
    requires i < SEQUENCE_SPAN
    ensures (i + 1) % SEQUENCE_SPAN == if i + 1 == SEQUENCE_SPAN then 0 else i + 1
  {
  }
}
