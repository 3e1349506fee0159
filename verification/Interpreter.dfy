/**
 The workflow interpreter as functions on its state: the workflow API that user code calls, one
 slice of a coroutine, and the scheduler `drive`.

 User code is arbitrary. A coroutine is a control point (`Local`); `Env.step` maps the memory that
 the coroutines of one workflow share, the control point and the answer to the previous API call to
 the next API call. The code need not terminate, so slices and `drive` run on fuel; `Starved` means
 that the fuel was too small, and FuelIrrelevant (in Scheduling) says that more fuel changes nothing.
 */
module Interpreter {
  import opened Basics
  import opened Futures

  /** Sequence numbers are 32-bit and wrap around. */
  const SEQUENCE_SPAN: nat := 0x1_0000_0000

  type Mem(!new)
  type Local(!new)
  type Handler(!new)

  // ---- Requests, commands and the record of a run ----

  datatype ActivityRequest = ActivityRequest(
    activityType: string,
    scheduleToClose: int, scheduleToStart: int, startToClose: int, retryThreshold: int,
    input: Option<seq<Payload>>)  // None: the payload converter refused the arguments

  datatype ChildRequest = ChildRequest(
    workflowType: string, workflowId: string,
    executionTimeout: int, runTimeout: int, taskTimeout: int,
    input: Option<seq<Payload>>)

  datatype UpdateReply = Accepted | Rejected | Completed(result: Value)

  datatype Command =
    | StartTimer(sequence: nat, duration: nat)
    | ScheduleActivity(sequence: nat, activity: ActivityRequest)
    | ScheduleLocalActivity(sequence: nat, activity: ActivityRequest)
    | StartChild(sequence: nat, child: ChildRequest, id: WorkflowId)
    | CompleteWorkflow(result: Value)
    | FailWorkflow(fault: Fault)
    | UpdateResponse(protocolId: string, reply: UpdateReply)
    | QueryResponse(queryId: string, answer: Option<Value>)

  /** What the trace of an execution records: `Emitted` is every command ever emitted. */
  datatype Event = Emitted(command: Command) | UpdateBegun(protocolId: string) | Resumed(coroutine: nat)

  // ---- State ----

  datatype OperationKind = Timer | Activity | LocalActivity | Child(started: FutureId, workflowId: WorkflowId)

  datatype Operation = Operation(kind: OperationKind, result: FutureId)

  /**
   `delivered`, `received` and `receivers` are history: all signals delivered, those handed out, and the
   waiter that each of the latter completed, or none when it was taken from the buffer.
   */
  datatype Channel = Channel(
    buffer: seq<seq<Payload>>, waiters: seq<FutureId>,
    delivered: seq<seq<Payload>>, received: seq<seq<Payload>>, receivers: seq<Option<FutureId>>)

  datatype UpdateHandler = UpdateHandler(handler: Handler, validator: Option<Handler>)

  /** What a coroutine learns when it runs next. */
  datatype Resume = Answered(response: Response) | AfterGet(future: FutureId) | AfterReceive(waiter: FutureId)

  datatype CoroutineKind = Root | UpdateBody(protocolId: string) | Routine

  datatype Coroutine = Coroutine(
    local: Local, resume: Resume, kind: CoroutineKind,
    highPriority: bool, waiting: Option<FutureId>, done: bool)

  /** `resolved` is history: the sequences taken out of `operations`. */
  datatype Table = Table(nextSequence: nat, operations: map<nat, Operation>, resolved: multiset<nat>)

  /**
   `commands` are those of the running activation. The rest is history: `sent` are the commands that
   earlier activations returned, `trace` is everything emitted, begun and resumed.
   */
  datatype Output = Output(commands: seq<Command>, sent: seq<Command>, trace: seq<Event>)

  datatype Handlers = Handlers(queries: map<string, Handler>, updates: map<string, UpdateHandler>)

  datatype Life = Life(started: bool, bootstrapped: bool, stopped: bool)

  datatype Exec = Exec(
    futures: Store,
    table: Table,
    channels: map<string, Channel>,
    handlers: Handlers,
    coroutines: seq<Coroutine>,
    current: Option<nat>,
    out: Output,
    terminal: bool,
    life: Life,
    mem: Mem)

  // ---- User code ----

  datatype Action =
    | MakeFuture
    | SetFuture(target: FutureId, outcome: Outcome)
    | ChainFuture(target: FutureId, other: FutureId)
    | IsReady(future: FutureId)
    | Get(future: FutureId)
    | NewTimer(duration: int)
    | ExecuteActivity(activity: ActivityRequest)
    | ExecuteLocalActivity(activity: ActivityRequest)
    | ExecuteChild(child: ChildRequest)
    | Go(local: Local)
    | Receive(name: string)
    | ReceiveAsync(name: string)
    | SignalCount(name: string)
    | SetUpdateHandler(name: string, update: UpdateHandler)
    | SetQueryHandler(name: string, query: Handler)
    | Return(outcome: Outcome)
    | Panic

  datatype Response =
    | Begin | Unit | Ref(future: FutureId) | ChildRef(result: FutureId, started: FutureId)
    | Flag(flag: bool) | Got(outcome: Outcome) | Received(value: Value)
    | MaybeReceived(signal: Option<seq<Payload>>) | Count(count: nat)
    | Panicked

  datatype Move = Move(mem: Mem, local: Local, action: Action)

  /** Validators and query handlers can look at futures and signal buffers but not change them. */
  datatype View = View(futures: Store, channels: map<string, Channel>)

  datatype Env = Env(
    runId: string,
    step: (Mem, Local, Response) -> Move,
    decode: (Handler, seq<Payload>) -> Option<Local>,
    validate: (Mem, View, Handler, Local) -> (Mem, bool),
    answer: (Mem, View, Handler, seq<Payload>) -> (Mem, Option<Value>))

  // ---- Building blocks ----

  function Emit(s: Exec, command: Command): (r: Exec)
    ensures r.coroutines == s.coroutines
  {
    s.(out := s.out.(commands := s.out.commands + [command], trace := s.out.trace + [Emitted(command)]))
  }

  function Allocate(s: Exec, role: Role): (r: Exec)
    ensures r.coroutines == s.coroutines
  {
    s.(futures := s.futures + [Fresh(role)])
  }

  /** A future that is born ready, as invalid requests return. */
  function AllocateReady(s: Exec, outcome: Outcome): (r: Exec)
    ensures r.coroutines == s.coroutines
  {
    s.(futures := s.futures + [Future(Runtime, true, outcome, [])])
  }

  function NextSequence(s: Exec): nat {
    (s.table.nextSequence + 1) % SEQUENCE_SPAN
  }

  function AddCoroutine(s: Exec, local: Local, kind: CoroutineKind, highPriority: bool): (r: Exec)
    ensures |r.coroutines| == |s.coroutines| + 1
  {
    s.(coroutines := s.coroutines + [Coroutine(local, Answered(Begin), kind, highPriority, None, false)])
  }

  function FailExecution(s: Exec, fault: Fault): (r: Exec)
    ensures r.coroutines == s.coroutines
  {
    if s.terminal then s else Emit(s, FailWorkflow(fault)).(terminal := true)
  }

  /** Registers an operation under the next sequence number and emits the command for it. */
  function Schedule(s: Exec, operation: Operation, command: Command): (r: Exec)
    ensures r.coroutines == s.coroutines
  {
    Emit(s.(table := s.table.(nextSequence := NextSequence(s),
                              operations := s.table.operations[NextSequence(s) := operation])),
         command)
  }

  // ---- Timers, activities and children ----

  predicate ActivityValid(request: ActivityRequest) {
    request.activityType != "" && request.startToClose > 0
  }

  predicate LocalActivityValid(request: ActivityRequest) {
    && request.activityType != ""
    && (request.scheduleToClose > 0 || request.startToClose > 0)
    && request.scheduleToClose >= 0 && request.scheduleToStart >= 0
    && request.startToClose >= 0 && request.retryThreshold >= 0
  }

  predicate ChildValid(request: ChildRequest) {
    && request.workflowType != ""
    && request.executionTimeout >= 0 && request.runTimeout >= 0 && request.taskTimeout >= 0
  }

  function RefuseWith(valid: bool): Outcome {
    Outcome(NilValue, Some(if valid then EncodingFailed else InvalidRequest))
  }

  function StartTimerOp(s: Exec, duration: int): (r: Exec)
    ensures r.coroutines == s.coroutines
  {
    if duration < 0 then AllocateReady(s, RefuseWith(false))
    else Schedule(Allocate(s, Runtime), Operation(Timer, |s.futures|), StartTimer(NextSequence(s), duration))
  }

  function StartActivityOp(s: Exec, request: ActivityRequest): (r: Exec)
    ensures r.coroutines == s.coroutines
  {
    if !ActivityValid(request) || request.input == None then
      AllocateReady(s, RefuseWith(ActivityValid(request)))
    else
      Schedule(Allocate(s, Runtime), Operation(Activity, |s.futures|),
               ScheduleActivity(NextSequence(s), request))
  }

  function StartLocalActivityOp(s: Exec, request: ActivityRequest): (r: Exec)
    ensures r.coroutines == s.coroutines
  {
    if !LocalActivityValid(request) || request.input == None then
      AllocateReady(s, RefuseWith(LocalActivityValid(request)))
    else
      Schedule(Allocate(s, Runtime), Operation(LocalActivity, |s.futures|),
               ScheduleLocalActivity(NextSequence(s), request))
  }

  function ChildId(runId: string, request: ChildRequest, sequence: nat): WorkflowId {
    if request.workflowId == "" then DerivedId(runId, sequence) else GivenId(request.workflowId)
  }

  /** The result future comes first, the started future right after it. */
  function StartChildOp(env: Env, s: Exec, request: ChildRequest): (r: Exec)
    ensures r.coroutines == s.coroutines
  {
    if !ChildValid(request) || request.input == None then
      AllocateReady(AllocateReady(s, RefuseWith(ChildValid(request))), RefuseWith(ChildValid(request)))
    else
      var id := ChildId(env.runId, request, NextSequence(s));
      Schedule(Allocate(Allocate(s, Runtime), Runtime),
               Operation(Child(|s.futures| + 1, id), |s.futures|),
               StartChild(NextSequence(s), request, id))
  }

  // ---- Signal channels ----

  function ChannelOf(s: Exec, name: string): Channel {
    if name in s.channels then s.channels[name] else Channel([], [], [], [], [])
  }

  /** Gives the signal to the first waiter that is not ready yet, or buffers it. */
  function DeliverTo(h: Store, c: Channel, input: seq<Payload>): (r: (Store, Channel))
    decreases |c.waiters|
  {
    if c.waiters == [] then (h, c.(buffer := c.buffer + [input]))
    else
      var w := c.waiters[0];
      var c' := c.(waiters := c.waiters[1..]);
      if w < |h| && h[w].ready then DeliverTo(h, c', input)
      else (SetOne(h, w, Outcome(SignalValue(input), None)).0,
            c'.(received := c'.received + [input], receivers := c'.receivers + [Some(w)]))
  }

  function Deliver(s: Exec, name: string, input: seq<Payload>): (r: Exec)
    ensures r.coroutines == s.coroutines
  {
    var r := DeliverTo(s.futures, ChannelOf(s, name), input);
    s.(futures := r.0, channels := s.channels[name := r.1.(delivered := r.1.delivered + [input])])
  }

  /** Takes the oldest buffered signal. */
  function TakeFrom(c: Channel): (r: (Channel, Option<seq<Payload>>)) {
    if c.buffer == [] then (c, None)
    else (c.(buffer := c.buffer[1..], received := c.received + [c.buffer[0]], receivers := c.receivers + [None]),
          Some(c.buffer[0]))
  }

  /** Drops the first occurrence of a waiter, as an evicted `Receive` does. */
  function RemoveWaiter(waiters: seq<FutureId>, waiter: FutureId): seq<FutureId> {
    if waiters == [] then []
    else if waiters[0] == waiter then waiters[1..]
    else [waiters[0]] + RemoveWaiter(waiters[1..], waiter)
  }

  // ---- One API call of a coroutine ----

  /** How an API call leaves the slice: it goes on, the coroutine blocks, or its function is over. */
  datatype SliceEnd = Continue | Park | Finish(fault: Option<Fault>)

  function Answer(s: Exec, c: nat, response: Response): (r: Exec)
    requires c < |s.coroutines|
    ensures |r.coroutines| == |s.coroutines|
  {
    s.(coroutines := s.coroutines[c := s.coroutines[c].(resume := Answered(response))])
  }

  function Block(s: Exec, c: nat, resume: Resume, future: FutureId): (r: Exec)
    requires c < |s.coroutines|
    ensures |r.coroutines| == |s.coroutines|
  {
    s.(coroutines := s.coroutines[c := s.coroutines[c].(resume := resume, waiting := Some(future))])
  }

  /** User code can only name futures that the API has handed out. */
  predicate Known(s: Exec, f: FutureId) {
    f < |s.futures| && s.futures[f].role != Hidden
  }

  predicate Settable(s: Exec, f: FutureId) {
    f < |s.futures| && s.futures[f].role == Manual
  }

  function ChainTo(h: Store, other: FutureId, f: FutureId): Store
    requires other < |h|
  {
    h[other := h[other].(chained := h[other].chained + [f])]
  }

  function SetManual(s: Exec, c: nat, f: FutureId, outcome: Outcome): (r: Exec)
    requires c < |s.coroutines|
    ensures |r.coroutines| == |s.coroutines|
  {
    var r := SetOne(s.futures, f, outcome);
    Answer(s.(futures := r.0), c, if r.1 then Unit else Panicked)
  }

  function PerformChain(s: Exec, c: nat, f: FutureId, other: FutureId): (r: Exec)
    requires c < |s.coroutines|
    ensures |r.coroutines| == |s.coroutines|
  {
    if !Settable(s, f) || !Known(s, other) || s.futures[f].ready then Answer(s, c, Panicked)
    else if s.futures[other].ready then SetManual(s, c, f, s.futures[other].outcome)
    else Answer(s.(futures := ChainTo(s.futures, other, f)), c, Unit)
  }

  function PerformGet(s: Exec, c: nat, f: FutureId): (r: (Exec, SliceEnd))
    requires c < |s.coroutines|
    ensures |r.0.coroutines| == |s.coroutines|
  {
    if !Known(s, f) then (Answer(s, c, Panicked), Continue)
    else if s.futures[f].ready then (Answer(s, c, Got(s.futures[f].outcome)), Continue)
    else (Block(s, c, AfterGet(f), f), Park)
  }

  function PerformReceive(s: Exec, c: nat, name: string): (r: (Exec, SliceEnd))
    requires c < |s.coroutines|
    ensures |r.0.coroutines| == |s.coroutines|
  {
    var taken := TakeFrom(ChannelOf(s, name));
    if taken.1.Some? then
      (Answer(s.(channels := s.channels[name := taken.0]), c, Received(SignalValue(taken.1.value))), Continue)
    else
      var channel := ChannelOf(s, name);
      var w := |s.futures|;
      (Block(Allocate(s, Hidden).(channels := s.channels[name := channel.(waiters := channel.waiters + [w])]),
             c, AfterReceive(w), w),
       Park)
  }

  function PerformReceiveAsync(s: Exec, c: nat, name: string): (r: Exec)
    requires c < |s.coroutines|
    ensures |r.coroutines| == |s.coroutines|
  {
    var taken := TakeFrom(ChannelOf(s, name));
    Answer(s.(channels := s.channels[name := taken.0]), c, MaybeReceived(taken.1))
  }

  /** The function of coroutine `c` returned. */
  function PerformReturn(s: Exec, c: nat, outcome: Outcome): (r: Exec)
    requires c < |s.coroutines|
    ensures r.coroutines == s.coroutines
  {
    match s.coroutines[c].kind
    case Root =>
      if outcome.fault.Some? then FailExecution(s, outcome.fault.value)
      else Emit(s, CompleteWorkflow(outcome.value)).(terminal := true)
    case UpdateBody(protocolId) =>
      Emit(s, UpdateResponse(protocolId, if outcome.fault.Some? then Rejected else Completed(outcome.value)))
    case Routine => s
  }

  /** Calls that schedule something outside the workflow. */
  function PerformSchedule(env: Env, s: Exec, c: nat, action: Action): (r: Exec)
    requires c < |s.coroutines|
    ensures |s.coroutines| == |r.coroutines|
  {
    var f := |s.futures|;
    match action
    case NewTimer(duration) => Answer(StartTimerOp(s, duration), c, Ref(f))
    case ExecuteActivity(request) => Answer(StartActivityOp(s, request), c, Ref(f))
    case ExecuteLocalActivity(request) => Answer(StartLocalActivityOp(s, request), c, Ref(f))
    case ExecuteChild(request) => Answer(StartChildOp(env, s, request), c, ChildRef(f, f + 1))
    case _ => s
  }

  /** Calls that only touch the state of the workflow and never block. */
  function PerformLocal(s: Exec, c: nat, action: Action): (r: Exec)
    requires c < |s.coroutines|
    ensures |s.coroutines| <= |r.coroutines|
  {
    match action
    case MakeFuture => Answer(Allocate(s, Manual), c, Ref(|s.futures|))
    case SetFuture(f, outcome) => if Settable(s, f) then SetManual(s, c, f, outcome) else Answer(s, c, Panicked)
    case ChainFuture(f, other) => PerformChain(s, c, f, other)
    case IsReady(f) => Answer(s, c, if Known(s, f) then Flag(s.futures[f].ready) else Panicked)
    case Go(local) => Answer(AddCoroutine(s, local, Routine, s.coroutines[c].highPriority), c, Unit)
    case ReceiveAsync(name) => PerformReceiveAsync(s, c, name)
    case SignalCount(name) => Answer(s, c, Count(|ChannelOf(s, name).buffer|))
    case SetUpdateHandler(name, update) =>
      Answer(s.(handlers := s.handlers.(updates := s.handlers.updates[name := update])), c, Unit)
    case SetQueryHandler(name, query) =>
      Answer(s.(handlers := s.handlers.(queries := s.handlers.queries[name := query])), c, Unit)
    case _ => s
  }

  function Perform(env: Env, s: Exec, c: nat, action: Action): (r: (Exec, SliceEnd))
    requires c < |s.coroutines|
    ensures |s.coroutines| <= |r.0.coroutines|
  {
    match action
    case Get(f) => PerformGet(s, c, f)
    case Receive(name) => PerformReceive(s, c, name)
    case Return(outcome) => (PerformReturn(s, c, outcome), Finish(None))
    case Panic =>
      // The root function recovers its own panic and fails the workflow.
      if s.coroutines[c].kind == Root then (FailExecution(s, CoroutinePanicked), Finish(None))
      else (s, Finish(Some(CoroutinePanicked)))
    case NewTimer(_) => (PerformSchedule(env, s, c, action), Continue)
    case ExecuteActivity(_) => (PerformSchedule(env, s, c, action), Continue)
    case ExecuteLocalActivity(_) => (PerformSchedule(env, s, c, action), Continue)
    case ExecuteChild(_) => (PerformSchedule(env, s, c, action), Continue)
    case _ => (PerformLocal(s, c, action), Continue)
  }

  // ---- One slice ----

  /** Picks the coroutine: it stops waiting and becomes the current one. */
  function Enter(s: Exec, c: nat): (r: Exec)
    requires c < |s.coroutines|
    ensures |r.coroutines| == |s.coroutines|
  {
    s.(coroutines := s.coroutines[c := s.coroutines[c].(waiting := None)],
       current := Some(c), out := s.out.(trace := s.out.trace + [Resumed(c)]))
  }

  function ResponseFor(s: Exec, c: nat): Response
    requires c < |s.coroutines|
  {
    match s.coroutines[c].resume
    case Answered(r) => r
    case AfterGet(f) => Got(if f < |s.futures| then s.futures[f].outcome else UNSET)
    case AfterReceive(w) => Received(if w < |s.futures| then s.futures[w].outcome.value else NilValue)
  }

  /** Runs user code up to its next API call; the answer to the previous one is used up. */
  function Advance(s: Exec, c: nat, move: Move): (r: Exec)
    requires c < |s.coroutines|
    ensures |r.coroutines| == |s.coroutines|
  {
    s.(mem := move.mem,
       coroutines := s.coroutines[c := s.coroutines[c].(local := move.local, resume := Answered(Unit))])
  }

  function MarkDone(s: Exec, c: nat): (r: Exec)
    requires c < |s.coroutines|
    ensures |r.coroutines| == |s.coroutines|
  {
    s.(coroutines := s.coroutines[c := s.coroutines[c].(done := true)])
  }

  datatype SliceResult = SliceStarved | Sliced(state: Exec, fault: Option<Fault>)

  /** Runs coroutine `c` until it blocks or its function is over. */
  function Slice(env: Env, s: Exec, c: nat, fuel: nat): (r: SliceResult)
    requires c < |s.coroutines|
    ensures r.Sliced? ==> |s.coroutines| <= |r.state.coroutines|
    decreases fuel
  {
    if fuel == 0 then SliceStarved
    else
      var move := env.step(s.mem, s.coroutines[c].local, ResponseFor(s, c));
      var (s', end) := Perform(env, Advance(s, c, move), c, move.action);
      match end
      case Continue => Slice(env, s', c, fuel - 1)
      case Park => Sliced(s'.(current := None), None)
      case Finish(fault) => Sliced(MarkDone(s', c).(current := None), fault)
  }

  // ---- The scheduler ----

  predicate Runnable(s: Exec, c: nat)
    requires c < |s.coroutines|
  {
    var co := s.coroutines[c];
    !co.done && (co.waiting == None || (co.waiting.value < |s.futures| && s.futures[co.waiting.value].ready))
  }

  /** `Settled` is the plain return of `drive`, `Errored` its error return. */
  datatype DriveResult = Starved | Settled(state: Exec) | Errored(state: Exec)

  /** The outcome of giving one coroutine its turn: `drive` returns, or goes on from a new state. */
  datatype TurnResult = TurnStarved | TurnReturns(result: DriveResult) | TurnGoes(state: Exec)

  function Turn(env: Env, s: Exec, i: nat, fuel: nat): (r: TurnResult)
    requires i < |s.coroutines|
    ensures r.TurnGoes? ==> |s.coroutines| <= |r.state.coroutines|
  {
    match Slice(env, Enter(s, i), i, fuel)
    case SliceStarved => TurnStarved
    case Sliced(s', fault) =>
      if fault.Some? && s'.coroutines[i].highPriority then TurnReturns(Errored(s'))
      else
        var s'' := if fault.Some? then FailExecution(s', fault.value) else s';
        if s''.terminal then TurnReturns(Settled(s'')) else TurnGoes(s'')
  }

  /**
   `drive` from the middle: at coroutine `i` of the first `n`, in the high- or low-priority pass of
   one round. `n` is the number of coroutines when the pass began, as for the `range` of the source.
   */
  function DriveFrom(env: Env, s: Exec, high: bool, i: nat, n: nat, progressed: bool, fuel: nat): DriveResult
    requires i <= n <= |s.coroutines|
    decreases fuel
  {
    if fuel == 0 then Starved
    else if i < n then
      if s.coroutines[i].highPriority != high || !Runnable(s, i) then
        DriveFrom(env, s, high, i + 1, n, progressed, fuel - 1)
      else
        match Turn(env, s, i, fuel - 1)
        case TurnStarved => Starved
        case TurnReturns(result) => result
        case TurnGoes(s') => DriveFrom(env, s', high, i + 1, n, true, fuel - 1)
    else if high then DriveFrom(env, s, false, 0, |s.coroutines|, progressed, fuel - 1)
    else if progressed then DriveFrom(env, s, true, 0, |s.coroutines|, false, fuel - 1)
    else Settled(s)
  }

  function Drive(env: Env, s: Exec, fuel: nat): DriveResult {
    if s.terminal then Settled(s)
    else DriveFrom(env, s, true, 0, |s.coroutines|, false, fuel)
  }

  /** Nothing can run: every coroutine is done or waits on an unready future. */
  ghost predicate Quiescent(s: Exec) {
    forall c :: 0 <= c < |s.coroutines| ==> !Runnable(s, c)
  }
}
