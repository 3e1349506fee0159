/**
 What every reachable state of an execution satisfies. Each predicate below reads only the part of the
 state it is about; `Integrity` is their conjunction.
 */
module Invariants {
  import opened Basics
  import opened Futures
  import opened FutureGraph
  import opened Interpreter

  // ---- Reading the trace ----

  function Replies(trace: seq<Event>, protocolId: string): seq<UpdateReply> {
    if trace == [] then []
    else Replies(trace[..|trace| - 1], protocolId) + ReplyIn(trace[|trace| - 1], protocolId)
  }

  function ReplyIn(e: Event, protocolId: string): seq<UpdateReply> {
    if e.Emitted? && e.command.UpdateResponse? && e.command.protocolId == protocolId then [e.command.reply] else []
  }

  function Begins(trace: seq<Event>, protocolId: string): nat {
    if trace == [] then 0
    else Begins(trace[..|trace| - 1], protocolId) + (if trace[|trace| - 1] == UpdateBegun(protocolId) then 1 else 0)
  }

  predicate IsSchedule(c: Command) {
    c.StartTimer? || c.ScheduleActivity? || c.ScheduleLocalActivity? || c.StartChild?
  }

  function Scheduled(trace: seq<Event>): seq<nat> {
    if trace == [] then [] else Scheduled(trace[..|trace| - 1]) + ScheduledIn(trace[|trace| - 1])
  }

  function ScheduledIn(e: Event): seq<nat> {
    if e.Emitted? && IsSchedule(e.command) then [e.command.sequence] else []
  }

  function CommandsOf(trace: seq<Event>): seq<Command> {
    if trace == [] then [] else CommandsOf(trace[..|trace| - 1]) + CommandIn(trace[|trace| - 1])
  }

  function CommandIn(e: Event): seq<Command> {
    if e.Emitted? then [e.command] else []
  }

  lemma TraceAppend(trace: seq<Event>, e: Event)
    ensures forall p :: Replies(trace + [e], p) == Replies(trace, p) + ReplyIn(e, p)
    ensures forall p :: Begins(trace + [e], p) == Begins(trace, p) + (if e == UpdateBegun(p) then 1 else 0)
    ensures Scheduled(trace + [e]) == Scheduled(trace) + ScheduledIn(e)
    ensures CommandsOf(trace + [e]) == CommandsOf(trace) + CommandIn(e)
  {
    assert (trace + [e])[..|trace + [e]| - 1] == trace;
  }

  predicate IsTerminal(e: Event) {
    e.Emitted? && (e.command.CompleteWorkflow? || e.command.FailWorkflow?)
  }

  /** All that may still happen once the workflow has completed or failed. */
  predicate IsLight(e: Event) {
    || e.UpdateBegun?
    || (e.Emitted? && e.command.UpdateResponse? && (e.command.reply == Accepted || e.command.reply == Rejected))
    || (e.Emitted? && e.command.QueryResponse?)
  }

  // ---- The invariants ----

  function Slots(operation: Operation): set<FutureId> {
    if operation.kind.Child? then {operation.result, operation.kind.started} else {operation.result}
  }

  ghost predicate OperationOk(h: Store, operation: Operation) {
    && operation.result < |h| && h[operation.result].role == Runtime && !h[operation.result].ready
    && (operation.kind.Child? ==>
          var f := operation.kind.started;
          f != operation.result && f < |h| && h[f].role == Runtime && (h[f].ready ==> h[f].outcome.fault == None))
  }

  /** Outstanding results are unready and belong to one operation each. */
  ghost predicate OperationsOk(h: Store, operations: map<nat, Operation>) {
    && (forall q :: q in operations ==> OperationOk(h, operations[q]))
    && (forall q, r :: q in operations && r in operations && q != r ==> Slots(operations[q]) !! Slots(operations[r]))
  }

  /**
   Schedule commands carry the sequence numbers 1, 2, 3, ... modulo 2^32. As long as the counter has
   not wrapped around, each of them is outstanding or was resolved, exactly once.
   */
  ghost predicate SequencesOk(table: Table, trace: seq<Event>) {
    var scheduled := Scheduled(trace);
    && table.nextSequence == |scheduled| % SEQUENCE_SPAN
    && (forall i :: 0 <= i < |scheduled| ==> scheduled[i] == (i + 1) % SEQUENCE_SPAN)
    && (|scheduled| < SEQUENCE_SPAN ==>
          forall q: nat :: table.resolved[q] + (if q in table.operations then 1 else 0)
                           == (if 1 <= q <= |scheduled| then 1 else 0))
  }

  ghost predicate WaiterOk(h: Store, w: FutureId) {
    w < |h| && h[w].role == Hidden && !h[w].ready && h[w].chained == []
  }

  /** The waiter has been given exactly this signal. */
  ghost predicate GivenTo(h: Store, w: FutureId, input: seq<Payload>) {
    w < |h| && h[w].role == Hidden && h[w].ready && h[w].outcome == Outcome(SignalValue(input), None)
  }

  /** Every signal that was handed to a waiter is what that waiter holds. */
  ghost predicate ReceiptsOk(h: Store, c: Channel) {
    && |c.receivers| == |c.received|
    && forall i :: 0 <= i < |c.receivers| && c.receivers[i].Some? ==> GivenTo(h, c.receivers[i].value, c.received[i])
  }

  ghost predicate ChannelOk(h: Store, c: Channel) {
    && (forall i :: 0 <= i < |c.waiters| ==> WaiterOk(h, c.waiters[i]))
    && (forall i, j :: 0 <= i < j < |c.waiters| ==> c.waiters[i] != c.waiters[j])
    && (c.waiters == [] || c.buffer == [])
    && c.received + c.buffer == c.delivered
    && ReceiptsOk(h, c)
  }

  /** No signal is lost, duplicated or reordered, and no receiver waits while one is buffered. */
  ghost predicate ChannelsOk(h: Store, channels: map<string, Channel>) {
    && (forall n :: n in channels ==> ChannelOk(h, channels[n]))
    && (forall n, m, i, j :: n in channels && m in channels && n != m
          && 0 <= i < |channels[n].waiters| && 0 <= j < |channels[m].waiters|
          ==> channels[n].waiters[i] != channels[m].waiters[j])
  }

  ghost predicate CoroutinesOk(h: Store, coroutines: seq<Coroutine>) {
    forall c :: 0 <= c < |coroutines| ==>
      && (coroutines[c].waiting.Some? ==> coroutines[c].waiting.value < |h|)
      && (coroutines[c].kind == Root ==> !coroutines[c].highPriority)
      && (coroutines[c].kind.UpdateBody? ==> coroutines[c].highPriority)
  }

  /** The workflow completes or fails at most once, and after that emits light commands only. */
  ghost predicate TerminalOk(terminal: bool, trace: seq<Event>) {
    && (terminal <==> exists i :: 0 <= i < |trace| && IsTerminal(trace[i]))
    && (forall i, j :: 0 <= i < j < |trace| && IsTerminal(trace[i]) ==> IsLight(trace[j]))
  }

  ghost predicate HasBody(coroutines: seq<Coroutine>, protocolId: string) {
    exists c :: 0 <= c < |coroutines| && coroutines[c].kind == UpdateBody(protocolId)
  }

  /** The only coroutine that runs the handler of this update is `c`. */
  ghost predicate OnlyBody(coroutines: seq<Coroutine>, protocolId: string, c: nat) {
    && c < |coroutines| && coroutines[c].kind == UpdateBody(protocolId)
    && forall d :: 0 <= d < |coroutines| && coroutines[d].kind == UpdateBody(protocolId) ==> d == c
  }

  ghost predicate Rejection(coroutines: seq<Coroutine>, replies: seq<UpdateReply>, protocolId: string) {
    replies == [Rejected] && !HasBody(coroutines, protocolId)
  }

  ghost predicate Acceptance(coroutines: seq<Coroutine>, replies: seq<UpdateReply>, protocolId: string, c: nat) {
    && OnlyBody(coroutines, protocolId, c)
    && (replies == [Accepted] ||
        (coroutines[c].done && |replies| == 2 && replies[0] == Accepted && replies[1] != Accepted))
  }

  /** The responses to an update that was begun once so far. */
  ghost predicate UpdateOk(coroutines: seq<Coroutine>, trace: seq<Event>, protocolId: string) {
    && (Begins(trace, protocolId) == 0 ==>
          Replies(trace, protocolId) == [] && !HasBody(coroutines, protocolId))
    && (Begins(trace, protocolId) == 1 ==>
          || Rejection(coroutines, Replies(trace, protocolId), protocolId)
          || exists c :: Acceptance(coroutines, Replies(trace, protocolId), protocolId, c))
  }

  ghost predicate UpdatesOk(coroutines: seq<Coroutine>, trace: seq<Event>) {
    && (forall p :: UpdateOk(coroutines, trace, p))
    && (forall i :: 0 <= i < |trace| && trace[i].UpdateBegun? ==> i + 1 < |trace| && FirstReply(trace[i], trace[i + 1]))
  }

  ghost predicate FirstReply(begun: Event, e: Event)
    requires begun.UpdateBegun?
  {
    e.Emitted? && e.command.UpdateResponse? && e.command.protocolId == begun.protocolId
    && (e.command.reply == Accepted || e.command.reply == Rejected)
  }

  ghost predicate OutputOk(out: Output) {
    CommandsOf(out.trace) == out.sent + out.commands
  }

  ghost predicate Integrity(s: Exec) {
    && ManualChains(s.futures)
    && OperationsOk(s.futures, s.table.operations)
    && SequencesOk(s.table, s.out.trace)
    && ChannelsOk(s.futures, s.channels)
    && CoroutinesOk(s.futures, s.coroutines)
    && TerminalOk(s.terminal, s.out.trace)
    && UpdatesOk(s.coroutines, s.out.trace)
    && OutputOk(s.out)
  }
}
