/**
 The completion pipeline as an interleaving of atomic steps. Ticket `i` is the i-th accepted one; its
 `phase` says how far its `run` goroutine has come. A result may be finalized as soon as it was
 received, also before `run` takes the next ticket.
 */
module Pipeline {
  import opened Basics

  const MAX_INT: int := 0x7fff_ffff_ffff_ffff
  newtype Int64 = x: int | -0x8000_0000_0000_0000 <= x <= 0x7fff_ffff_ffff_ffff

  const DEFAULT_MAX_WEIGHT: int := 0x400_0000

  /** What a 64-bit integer holds after an addition or multiplication. */
  function Wrap64(x: int): (r: int)
    ensures -0x8000_0000_0000_0000 <= r <= MAX_INT
  {
    (x + 0x8000_0000_0000_0000) % 0x1_0000_0000_0000_0000 - 0x8000_0000_0000_0000
  }

  datatype Phase = Waiting | Running | Submitted | Released | Landed | Finished

  /** The finalizer of a result: not called, called, slot given back. */
  datatype Slot = Held | Called | Freed

  datatype Ticket = Ticket(weight: int, phase: Phase, slot: Slot)

  datatype Pipe = Pipe(
    limit: int, maxItems: int, maxWeight: int,
    active: int, outstanding: int, totalWeight: int,
    queue: seq<nat>, results: seq<nat>,
    history: History)

  /** All accepted tickets, those started, and how often each was submitted, received and finalized. */
  datatype History = History(
    tickets: seq<Ticket>, started: seq<nat>,
    submitted: multiset<nat>, received: multiset<nat>, finalized: multiset<nat>)

  // ---- Construction ----

  datatype Setting = MaxOutstanding(limit: int) | MaxWeight(limit: int)

  function AtLeastOne(n: int): int {
    if n < 1 then 1 else n
  }

  function Configure(p: Pipe, settings: seq<Setting>): Pipe
    decreases |settings|
  {
    if settings == [] then p
    else
      match settings[0]
      case MaxOutstanding(n) => Configure(p.(maxItems := AtLeastOne(n)), settings[1..])
      case MaxWeight(n) => Configure(p.(maxWeight := AtLeastOne(n)), settings[1..])
  }

  function New(limit: int, settings: seq<Setting>): Pipe {
    var n := AtLeastOne(limit);
    var p := Configure(
      Pipe(n, Wrap64(n * 2), DEFAULT_MAX_WEIGHT, 0, 0, 0, [], [],
           History([], [], multiset{}, multiset{}, multiset{})),
      settings);
    if p.maxItems < p.limit then p.(maxItems := p.limit) else p
  }

  // ---- Steps ----

  datatype Request = Request(hasSubmit: bool, weight: int)

  datatype Verdict = Accepted | NoSubmit | InvalidSize | AtCapacity

  function NormalizedWeight(weight: int): int {
    if weight == 0 then 1 else weight
  }

  predicate OverWeight(p: Pipe, weight: int) {
    p.maxWeight > 0 && (weight > p.maxWeight || p.totalWeight > p.maxWeight - weight)
  }

  function VerdictOn(p: Pipe, r: Request): Verdict {
    if !r.hasSubmit then NoSubmit
    else if r.weight < 0 then InvalidSize
    else if p.outstanding >= p.maxItems || OverWeight(p, NormalizedWeight(r.weight)) then AtCapacity
    else Accepted
  }

  /** A ticket that has its own goroutine. */
  predicate InFlight(phase: Phase) {
    phase == Running || phase == Submitted || phase == Released || phase == Landed
  }

  function Accept(p: Pipe, weight: int): Pipe {
    var id := |p.history.tickets|;
    var q := p.(outstanding := p.outstanding + 1, totalWeight := p.totalWeight + weight);
    if p.active < p.limit then
      q.(active := p.active + 1,
         history := p.history.(tickets := p.history.tickets + [Ticket(weight, Running, Held)],
                               started := p.history.started + [id]))
    else
      q.(queue := p.queue + [id],
         history := p.history.(tickets := p.history.tickets + [Ticket(weight, Waiting, Held)]))
  }

  function Offer(p: Pipe, r: Request): Pipe {
    if VerdictOn(p, r) == Accepted then Accept(p, NormalizedWeight(r.weight)) else p
  }

  function SetPhase(h: History, i: nat, phase: Phase): History
    requires i < |h.tickets|
  {
    h.(tickets := h.tickets[i := h.tickets[i].(phase := phase)])
  }

  function SetSlot(h: History, i: nat, slot: Slot): History
    requires i < |h.tickets|
  {
    h.(tickets := h.tickets[i := h.tickets[i].(slot := slot)])
  }

  /** `finishAndTakeNext`: one critical section ends a ticket and starts the next one. */
  function FinishAndTakeNext(p: Pipe, i: nat): Pipe
    requires i < |p.history.tickets|
    requires forall k :: 0 <= k < |p.queue| ==> p.queue[k] < |p.history.tickets|
  {
    var h := SetPhase(p.history, i, Finished);
    if p.queue == [] then p.(active := p.active - 1, history := h)
    else p.(queue := p.queue[1..],
            history := SetPhase(h, p.queue[0], Running).(started := h.started + [p.queue[0]]))
  }

  datatype Step =
    | EnqueueTicket(request: Request)
    | Submit(id: nat)          // the submission returns, with or without error
    | AfterSubmit(id: nat)
    | PostResult(id: nat)      // blocks while the result channel is full
    | Finish(id: nat)
    | ReceiveResult            // the owner of the pipeline reads the result channel
    | CallFinalizer(id: nat)
    | FreeSlot(id: nat)

  predicate PhaseIs(p: Pipe, i: nat, phase: Phase) {
    i < |p.history.tickets| && p.history.tickets[i].phase == phase
  }

  predicate SlotIs(p: Pipe, i: nat, slot: Slot) {
    i < |p.history.tickets| && p.history.tickets[i].slot == slot
  }

  predicate Enabled(p: Pipe, step: Step) {
    match step
    case EnqueueTicket(_) => true
    case Submit(i) => PhaseIs(p, i, Running)
    case AfterSubmit(i) => PhaseIs(p, i, Submitted)
    case PostResult(i) => PhaseIs(p, i, Released) && |p.results| < p.limit
    case Finish(i) => PhaseIs(p, i, Landed) && forall k :: 0 <= k < |p.queue| ==> p.queue[k] < |p.history.tickets|
    case ReceiveResult => p.results != []
    case CallFinalizer(i) => SlotIs(p, i, Held) && p.history.received[i] > 0
    case FreeSlot(i) => SlotIs(p, i, Called)
  }

  function Apply(p: Pipe, step: Step): Pipe
    requires Enabled(p, step)
  {
    var h := p.history;
    match step
    case EnqueueTicket(r) => Offer(p, r)
    case Submit(i) => p.(history := SetPhase(h, i, Submitted).(submitted := h.submitted + multiset{i}))
    case AfterSubmit(i) => p.(history := SetPhase(h, i, Released))
    case PostResult(i) => p.(history := SetPhase(h, i, Landed), results := p.results + [i])
    case Finish(i) => FinishAndTakeNext(p, i)
    case ReceiveResult =>
      p.(history := h.(received := h.received + multiset{p.results[0]}), results := p.results[1..])
    case CallFinalizer(i) => p.(history := SetSlot(h, i, Called).(finalized := h.finalized + multiset{i}))
    case FreeSlot(i) =>
      p.(history := SetSlot(h, i, Freed),
         outstanding := p.outstanding - 1, totalWeight := p.totalWeight - h.tickets[i].weight)
  }

  function Run(p: Pipe, steps: seq<Step>): Option<Pipe>
    decreases |steps|
  {
    if steps == [] then Some(p)
    else if !Enabled(p, steps[0]) then None
    else Run(Apply(p, steps[0]), steps[1..])
  }

  // ---- Counting ----

  function Sum(ts: seq<Ticket>, f: Ticket -> int): int {
    if ts == [] then 0 else Sum(ts[..|ts| - 1], f) + f(ts[|ts| - 1])
  }

  function ActiveOne(t: Ticket): int {
    if InFlight(t.phase) then 1 else 0
  }

  function HeldOne(t: Ticket): int {
    if t.slot != Freed then 1 else 0
  }

  function HeldWeight(t: Ticket): int {
    if t.slot != Freed then t.weight else 0
  }

  lemma {:induction false} SumUpdate(ts: seq<Ticket>, i: nat, t: Ticket, f: Ticket -> int)
    requires i < |ts|
    ensures Sum(ts[i := t], f) == Sum(ts, f) - f(ts[i]) + f(t)
  {
    var init := ts[..|ts| - 1];
    if i < |init| {
      SumUpdate(init, i, t, f);
      assert ts[i := t][..|ts| - 1] == init[i := t];
    } else {
      assert ts[i := t][..|ts| - 1] == init;
    }
  }

  lemma SumAppend(ts: seq<Ticket>, t: Ticket, f: Ticket -> int)
    ensures Sum(ts + [t], f) == Sum(ts, f) + f(t)
  {
    assert (ts + [t])[..|ts + [t]| - 1] == ts;
  }

  /** A sum of non-negative numbers is positive exactly when one of them is. */
  lemma {:induction false} SumPositive(ts: seq<Ticket>, f: Ticket -> int)
    requires forall i :: 0 <= i < |ts| ==> f(ts[i]) >= 0
    ensures Sum(ts, f) >= 0
    ensures Sum(ts, f) > 0 <==> exists i :: 0 <= i < |ts| && f(ts[i]) > 0
  {
    if ts != [] {
      var init := ts[..|ts| - 1];
      assert forall i :: 0 <= i < |init| ==> init[i] == ts[i];
      SumPositive(init, f);
    }
  }

  // ---- The invariant ----

  ghost predicate LimitsOk(p: Pipe) {
    1 <= p.limit <= p.maxItems && 1 <= p.maxWeight
  }

  /** The counters are the true counts, and within their bounds. */
  ghost predicate CountsOk(p: Pipe) {
    var ts := p.history.tickets;
    && p.active == Sum(ts, ActiveOne) && 0 <= p.active <= p.limit
    && (p.queue != [] ==> p.active == p.limit)
    && p.outstanding == Sum(ts, HeldOne) && 0 <= p.outstanding <= p.maxItems
    && p.totalWeight == Sum(ts, HeldWeight) && 0 <= p.totalWeight <= p.maxWeight
    && forall i :: 0 <= i < |ts| ==> ts[i].weight >= 1
  }

  function UpTo(n: nat): seq<nat> {
    seq(n, i => i)
  }

  /** Nobody overtakes: started tickets and then the queue are the accepted tickets in order. */
  ghost predicate OrderOk(p: Pipe) {
    var h := p.history;
    && h.started + p.queue == UpTo(|h.tickets|)
    && forall i :: 0 <= i < |h.tickets| ==> (h.tickets[i].phase == Waiting <==> i >= |h.started|)
  }

  function Once(b: bool): nat {
    if b then 1 else 0
  }

  predicate HasSubmitted(phase: Phase) {
    phase != Waiting && phase != Running
  }

  predicate HasPosted(phase: Phase) {
    phase == Landed || phase == Finished
  }

  ghost predicate SubmittedOk(ts: seq<Ticket>, submitted: multiset<nat>) {
    forall i: nat :: submitted[i] == Once(i < |ts| && HasSubmitted(ts[i].phase))
  }

  ghost predicate FinalizedOk(ts: seq<Ticket>, finalized: multiset<nat>) {
    forall i: nat :: finalized[i] == Once(i < |ts| && ts[i].slot != Held)
  }

  ghost predicate PostedOk(ts: seq<Ticket>, posted: multiset<nat>) {
    forall i: nat :: posted[i] == Once(i < |ts| && HasPosted(ts[i].phase))
  }

  ghost predicate SlotsOk(ts: seq<Ticket>, received: multiset<nat>) {
    forall i :: 0 <= i < |ts| && ts[i].slot != Held ==> received[i] == 1
  }

  /** What was submitted, posted and finalized so far agrees with the phases. */
  ghost predicate LogsOk(p: Pipe) {
    var h := p.history;
    && |p.results| <= p.limit
    && SubmittedOk(h.tickets, h.submitted)
    && FinalizedOk(h.tickets, h.finalized)
    && PostedOk(h.tickets, multiset(p.results) + h.received)
    && SlotsOk(h.tickets, h.received)
  }

  ghost predicate Inv(p: Pipe) {
    LimitsOk(p) && CountsOk(p) && OrderOk(p) && LogsOk(p)
  }

  // ---- Every step keeps it ----

  lemma {:induction false} ConfigureKeeps(p: Pipe, settings: seq<Setting>)
    requires p.maxWeight >= 1
    ensures var r := Configure(p, settings);
            r == p.(maxItems := r.maxItems, maxWeight := r.maxWeight) && r.maxWeight >= 1
    decreases |settings|
  {
    if settings != [] {
      var q := match settings[0]
        case MaxOutstanding(n) => p.(maxItems := AtLeastOne(n))
        case MaxWeight(n) => p.(maxWeight := AtLeastOne(n));
      ConfigureKeeps(q, settings[1..]);
    }
  }

  lemma NewInv(limit: int, settings: seq<Setting>)
    ensures Inv(New(limit, settings))
  {
    var n := AtLeastOne(limit);
    ConfigureKeeps(Pipe(n, Wrap64(n * 2), DEFAULT_MAX_WEIGHT, 0, 0, 0, [], [],
                        History([], [], multiset{}, multiset{}, multiset{})), settings);
  }

  lemma AcceptKeeps(p: Pipe, weight: int)
    requires Inv(p) && p.outstanding < p.maxItems && weight >= 1 && p.totalWeight + weight <= p.maxWeight
    ensures Inv(Accept(p, weight))
  {
    AcceptCounts(p, weight);
    AcceptOrder(p, weight);
    var q := Accept(p, weight);
    var n := |p.history.tickets|;
    assert (multiset(p.results) + p.history.received)[n] == 0;
    assert LogsOk(q);
  }

  lemma AcceptCounts(p: Pipe, weight: int)
    requires LimitsOk(p) && CountsOk(p)
    requires p.outstanding < p.maxItems && weight >= 1 && p.totalWeight + weight <= p.maxWeight
    ensures CountsOk(Accept(p, weight))
  {
    var t := Ticket(weight, if p.active < p.limit then Running else Waiting, Held);
    SumAppend(p.history.tickets, t, ActiveOne);
    SumAppend(p.history.tickets, t, HeldOne);
    SumAppend(p.history.tickets, t, HeldWeight);
    assert Accept(p, weight).history.tickets == p.history.tickets + [t];
  }

  lemma AcceptOrder(p: Pipe, weight: int)
    requires CountsOk(p) && OrderOk(p)
    ensures OrderOk(Accept(p, weight))
  {
    var q := Accept(p, weight);
    var n := |p.history.tickets|;
    assert q.history.started + q.queue == (p.history.started + p.queue) + [n];
    assert UpTo(n) + [n] == UpTo(n + 1);
  }

  /** The counters after one ticket changed. */
  lemma UpdateCounts(p: Pipe, i: nat, t: Ticket)
    requires CountsOk(p) && i < |p.history.tickets|
    ensures Sum(p.history.tickets[i := t], ActiveOne)
            == p.active - ActiveOne(p.history.tickets[i]) + ActiveOne(t)
    ensures Sum(p.history.tickets[i := t], HeldOne) == p.outstanding - HeldOne(p.history.tickets[i]) + HeldOne(t)
    ensures Sum(p.history.tickets[i := t], HeldWeight)
            == p.totalWeight - HeldWeight(p.history.tickets[i]) + HeldWeight(t)
  {
    SumUpdate(p.history.tickets, i, t, ActiveOne);
    SumUpdate(p.history.tickets, i, t, HeldOne);
    SumUpdate(p.history.tickets, i, t, HeldWeight);
  }

  /** Steps that change one ticket. */
  predicate OneTicket(step: Step) {
    step.Submit? || step.AfterSubmit? || step.PostResult? || step.CallFinalizer? || step.FreeSlot?
  }

  function Moved(t: Ticket, step: Step): Ticket
    requires OneTicket(step)
  {
    match step
    case Submit(_) => t.(phase := Submitted)
    case AfterSubmit(_) => t.(phase := Released)
    case PostResult(_) => t.(phase := Landed)
    case CallFinalizer(_) => t.(slot := Called)
    case FreeSlot(_) => t.(slot := Freed)
  }

  lemma MovesOne(p: Pipe, step: Step)
    requires OneTicket(step) && Enabled(p, step)
    ensures var ts := p.history.tickets;
            step.id < |ts| && Apply(p, step).history.tickets == ts[step.id := Moved(ts[step.id], step)]
    ensures Apply(p, step).history.started == p.history.started && Apply(p, step).queue == p.queue
  {
  }

  lemma MoveCounts(p: Pipe, step: Step)
    requires CountsOk(p) && OneTicket(step) && Enabled(p, step)
    ensures CountsOk(Apply(p, step))
  {
    MovesOne(p, step);
    var ts := Apply(p, step).history.tickets;
    UpdateCounts(p, step.id, ts[step.id]);
    SumPositive(ts, HeldOne);
    SumPositive(ts, HeldWeight);
  }

  lemma MoveOrder(p: Pipe, step: Step)
    requires OrderOk(p) && OneTicket(step) && Enabled(p, step)
    ensures OrderOk(Apply(p, step))
  {
    MovesOne(p, step);
  }

  lemma PostLogs(p: Pipe, i: nat)
    requires LogsOk(p) && Enabled(p, PostResult(i))
    ensures LogsOk(Apply(p, PostResult(i)))
  {
    var q := Apply(p, PostResult(i));
    assert multiset(q.results) + q.history.received == multiset(p.results) + p.history.received + multiset{i};
  }

  lemma MovePhaseLogs(p: Pipe, step: Step)
    requires LogsOk(p) && (step.Submit? || step.AfterSubmit?) && Enabled(p, step)
    ensures LogsOk(Apply(p, step))
  {
    MovesOne(p, step);
  }

  lemma MoveSlotLogs(p: Pipe, step: Step)
    requires LogsOk(p) && (step.CallFinalizer? || step.FreeSlot?) && Enabled(p, step)
    ensures LogsOk(Apply(p, step))
  {
    MovesOne(p, step);
    assert (multiset(p.results) + p.history.received)[step.id] <= 1;
  }

  lemma MoveKeeps(p: Pipe, step: Step)
    requires Inv(p) && OneTicket(step) && Enabled(p, step)
    ensures Inv(Apply(p, step))
  {
    MoveCounts(p, step);
    MoveOrder(p, step);
    if step.CallFinalizer? || step.FreeSlot? {
      MoveSlotLogs(p, step);
    } else if step.PostResult? {
      PostLogs(p, step.id);
    } else {
      MovePhaseLogs(p, step);
    }
  }

  lemma ReceiveKeeps(p: Pipe)
    requires Inv(p) && Enabled(p, ReceiveResult)
    ensures Inv(Apply(p, ReceiveResult))
  {
    var q := Apply(p, ReceiveResult);
    assert p.results == [p.results[0]] + q.results;
    assert multiset(q.results) + q.history.received == multiset(p.results) + p.history.received;
    ReceivedAreNew(p, p.results[0]);
  }

  lemma ReceivedAreNew(p: Pipe, i: nat)
    requires LogsOk(p) && i in p.results
    ensures p.history.received[i] == 0
  {
    assert multiset(p.results)[i] >= 1;
    assert (multiset(p.results) + p.history.received)[i] <= 1;
  }

  lemma FinishKeeps(p: Pipe, i: nat)
    requires Inv(p) && Enabled(p, Finish(i))
    ensures Inv(Apply(p, Finish(i)))
  {
    if p.queue != [] {
      assert (p.history.started + p.queue)[|p.history.started|] == p.queue[0];
      assert p.queue[0] == |p.history.started|;
    }
    FinishCounts(p, i);
    FinishOrder(p, i);
    FinishLogs(p, i);
  }

  lemma FinishCounts(p: Pipe, i: nat)
    requires LimitsOk(p) && CountsOk(p) && Enabled(p, Finish(i))
    requires p.queue != [] ==> PhaseIs(p, p.queue[0], Waiting)
    ensures CountsOk(Apply(p, Finish(i)))
  {
    var ts := p.history.tickets;
    UpdateCounts(p, i, ts[i].(phase := Finished));
    var ts1 := ts[i := ts[i].(phase := Finished)];
    SumPositive(ts1, ActiveOne);
    if p.queue != [] {
      var t := ts1[p.queue[0]].(phase := Running);
      SumUpdate(ts1, p.queue[0], t, ActiveOne);
      SumUpdate(ts1, p.queue[0], t, HeldOne);
      SumUpdate(ts1, p.queue[0], t, HeldWeight);
    }
  }

  lemma FinishOrder(p: Pipe, i: nat)
    requires OrderOk(p) && Enabled(p, Finish(i))
    ensures OrderOk(Apply(p, Finish(i)))
  {
    if p.queue != [] {
      assert (p.history.started + p.queue)[|p.history.started|] == p.queue[0];
      assert p.history.started + [p.queue[0]] + p.queue[1..] == p.history.started + p.queue;
    }
  }

  lemma FinishLogs(p: Pipe, i: nat)
    requires LogsOk(p) && Enabled(p, Finish(i))
    requires p.queue != [] ==> PhaseIs(p, p.queue[0], Waiting)
    ensures LogsOk(Apply(p, Finish(i)))
  {
  }

  lemma StepKeeps(p: Pipe, step: Step)
    requires Inv(p) && Enabled(p, step)
    ensures Inv(Apply(p, step))
  {
    match step
    case EnqueueTicket(r) =>
      if VerdictOn(p, r) == Accepted {
        AcceptKeeps(p, NormalizedWeight(r.weight));
      }
    case Finish(i) => FinishKeeps(p, i);
    case ReceiveResult => ReceiveKeeps(p);
    case _ => MoveKeeps(p, step);
  }

  lemma {:induction false} RunKeeps(p: Pipe, steps: seq<Step>)
    requires Inv(p) && Run(p, steps).Some?
    ensures Inv(Run(p, steps).value)
    decreases |steps|
  {
    if steps != [] {
      StepKeeps(p, steps[0]);
      RunKeeps(Apply(p, steps[0]), steps[1..]);
    }
  }

  // ---- The main results ----

  /** The accounting, over every interleaving. */
  lemma Accounting(limit: int, settings: seq<Setting>, steps: seq<Step>)
    requires Run(New(limit, settings), steps).Some?
    ensures CountsOk(Run(New(limit, settings), steps).value)
    ensures OrderOk(Run(New(limit, settings), steps).value)
  {
    NewInv(limit, settings);
    RunKeeps(New(limit, settings), steps);
  }

  /** With 64-bit configuration values no counter leaves the 64-bit range. */
  lemma NoOverflow(limit: int, settings: seq<Setting>, steps: seq<Step>)
    requires limit <= MAX_INT && forall k :: 0 <= k < |settings| ==> settings[k].limit <= MAX_INT
    requires Run(New(limit, settings), steps).Some?
    ensures var p := Run(New(limit, settings), steps).value;
            0 <= p.active <= MAX_INT && 0 <= p.outstanding <= MAX_INT && 0 <= p.totalWeight <= MAX_INT
  {
    Accounting(limit, settings, steps);
    NewBounded(limit, settings);
    LimitsAreFixed(New(limit, settings), steps);
  }

  lemma {:induction false} ConfigureBounded(p: Pipe, settings: seq<Setting>)
    requires p.maxItems <= MAX_INT && p.maxWeight <= MAX_INT
    requires forall k :: 0 <= k < |settings| ==> settings[k].limit <= MAX_INT
    ensures Configure(p, settings).maxItems <= MAX_INT && Configure(p, settings).maxWeight <= MAX_INT
    ensures Configure(p, settings).limit == p.limit
    decreases |settings|
  {
    if settings != [] {
      var q := match settings[0]
        case MaxOutstanding(n) => p.(maxItems := AtLeastOne(n))
        case MaxWeight(n) => p.(maxWeight := AtLeastOne(n));
      ConfigureBounded(q, settings[1..]);
    }
  }

  lemma NewBounded(limit: int, settings: seq<Setting>)
    requires limit <= MAX_INT && forall k :: 0 <= k < |settings| ==> settings[k].limit <= MAX_INT
    ensures var p := New(limit, settings);
            p.limit <= MAX_INT && p.maxItems <= MAX_INT && p.maxWeight <= MAX_INT
  {
    var n := AtLeastOne(limit);
    ConfigureBounded(Pipe(n, Wrap64(n * 2), DEFAULT_MAX_WEIGHT, 0, 0, 0, [], [],
                          History([], [], multiset{}, multiset{}, multiset{})), settings);
  }

  lemma {:induction false} LimitsAreFixed(p: Pipe, steps: seq<Step>)
    requires Run(p, steps).Some?
    ensures var q := Run(p, steps).value;
            q.limit == p.limit && q.maxItems == p.maxItems && q.maxWeight == p.maxWeight
    decreases |steps|
  {
    if steps != [] {
      LimitsAreFixed(Apply(p, steps[0]), steps[1..]);
    }
  }

  /**
   Without an explicit bound, twice the concurrency limit may be outstanding; when doubling wraps
   around, only the limit itself.
   */
  lemma DefaultOutstanding(limit: int)
    requires 1 <= limit <= MAX_INT
    ensures New(limit, []).maxItems == (if limit * 2 <= MAX_INT then limit * 2 else limit)
  {
    if limit * 2 > MAX_INT {
      assert Wrap64(limit * 2) == limit * 2 - 0x1_0000_0000_0000_0000;
    }
  }

  // ---- Offered sizes ----

  /** The sizes of the tickets that were accepted, in that order. */
  function AcceptedSizes(p: Pipe, steps: seq<Step>): seq<int>
    requires Run(p, steps).Some?
    decreases |steps|
  {
    if steps == [] then []
    else
      (if steps[0].EnqueueTicket? && VerdictOn(p, steps[0].request) == Accepted then [steps[0].request.weight] else [])
      + AcceptedSizes(Apply(p, steps[0]), steps[1..])
  }

  /** A ticket of no size counts as one byte. */
  ghost predicate Weighs(ts: seq<Ticket>, sizes: seq<int>) {
    |sizes| == |ts| && forall i :: 0 <= i < |ts| ==> sizes[i] >= 0 && ts[i].weight == (if sizes[i] == 0 then 1 else sizes[i])
  }

  lemma StepWeighs(p: Pipe, step: Step, sizes: seq<int>)
    requires Enabled(p, step) && Weighs(p.history.tickets, sizes)
    ensures var more := if step.EnqueueTicket? && VerdictOn(p, step.request) == Accepted then [step.request.weight] else [];
            Weighs(Apply(p, step).history.tickets, sizes + more)
  {
  }

  lemma {:induction false} RunWeighs(p: Pipe, steps: seq<Step>, sizes: seq<int>)
    requires Run(p, steps).Some? && Weighs(p.history.tickets, sizes)
    ensures Weighs(Run(p, steps).value.history.tickets, sizes + AcceptedSizes(p, steps))
    decreases |steps|
  {
    if steps == [] {
      assert sizes + [] == sizes;
    } else {
      var more := if steps[0].EnqueueTicket? && VerdictOn(p, steps[0].request) == Accepted
                  then [steps[0].request.weight] else [];
      StepWeighs(p, steps[0], sizes);
      RunWeighs(Apply(p, steps[0]), steps[1..], sizes + more);
      assert sizes + (more + AcceptedSizes(Apply(p, steps[0]), steps[1..]))
          == (sizes + more) + AcceptedSizes(Apply(p, steps[0]), steps[1..]);
    }
  }

  /** How many accepted tickets still hold their slot, and how many bytes they were offered with. */
  function HeldTickets(ts: seq<Ticket>): nat {
    if ts == [] then 0 else HeldTickets(ts[..|ts| - 1]) + (if ts[|ts| - 1].slot == Freed then 0 else 1)
  }

  function HeldBytes(ts: seq<Ticket>, sizes: seq<int>): int
    requires |sizes| == |ts|
  {
    if ts == [] then 0
    else
      var n := |ts| - 1;
      HeldBytes(ts[..n], sizes[..n]) + (if ts[n].slot == Freed then 0 else if sizes[n] == 0 then 1 else sizes[n])
  }

  lemma {:induction false} HeldSums(ts: seq<Ticket>, sizes: seq<int>)
    requires Weighs(ts, sizes)
    ensures HeldTickets(ts) == Sum(ts, HeldOne) && HeldBytes(ts, sizes) == Sum(ts, HeldWeight)
  {
    if ts != [] {
      HeldSums(ts[..|ts| - 1], sizes[..|ts| - 1]);
    }
  }

  /**
   What the pipeline weighs is what it was offered: each accepted ticket has the size of its request, or
   one when that is zero, and `totalWeight` is the sum over the tickets that hold their slot.
   */
  lemma WeightIsOffered(limit: int, settings: seq<Setting>, steps: seq<Step>)
    requires Run(New(limit, settings), steps).Some?
    ensures var p := Run(New(limit, settings), steps).value;
            var sizes := AcceptedSizes(New(limit, settings), steps);
            && Weighs(p.history.tickets, sizes)
            && p.outstanding == HeldTickets(p.history.tickets)
            && p.totalWeight == HeldBytes(p.history.tickets, sizes)
  {
    NewFields(limit, settings);
    RunWeighs(New(limit, settings), steps, []);
    var p := Run(New(limit, settings), steps).value;
    var sizes := AcceptedSizes(New(limit, settings), steps);
    assert [] + sizes == sizes;
    Accounting(limit, settings, steps);
    HeldSums(p.history.tickets, sizes);
  }

  /**
   A request is refused exactly for want of a submission, for a negative size, or because the slots are
   all held or the bytes held and its own together exceed the bound.
   */
  lemma RefusedExactly(limit: int, settings: seq<Setting>, steps: seq<Step>, r: Request)
    requires Run(New(limit, settings), steps).Some?
    ensures var p := Run(New(limit, settings), steps).value;
            var sizes := AcceptedSizes(New(limit, settings), steps);
            && |sizes| == |p.history.tickets|
            && var held := HeldBytes(p.history.tickets, sizes);
            var full := HeldTickets(p.history.tickets) >= New(limit, settings).maxItems
                        || held + (if r.weight == 0 then 1 else r.weight) > New(limit, settings).maxWeight;
            && (VerdictOn(p, r) == NoSubmit <==> !r.hasSubmit)
            && (VerdictOn(p, r) == InvalidSize <==> r.hasSubmit && r.weight < 0)
            && (VerdictOn(p, r) == AtCapacity <==> r.hasSubmit && r.weight >= 0 && full)
            && (VerdictOn(p, r) == Accepted <==> r.hasSubmit && r.weight >= 0 && !full)
            && |Offer(p, r).history.tickets| == |p.history.tickets| + (if VerdictOn(p, r) == Accepted then 1 else 0)
  {
    WeightIsOffered(limit, settings, steps);
    LimitsAreFixed(New(limit, settings), steps);
    NewInv(limit, settings);
    RunKeeps(New(limit, settings), steps);
  }

  lemma NewFields(limit: int, settings: seq<Setting>)
    ensures var p := New(limit, settings);
            && p.limit == (if limit < 1 then 1 else limit)
            && p.history == History([], [], multiset{}, multiset{}, multiset{}) && p.results == [] && p.queue == []
            && p.active == 0 && p.outstanding == 0 && p.totalWeight == 0
  {
    var n := AtLeastOne(limit);
    ConfigureKeeps(Pipe(n, Wrap64(n * 2), DEFAULT_MAX_WEIGHT, 0, 0, 0, [], [],
                        History([], [], multiset{}, multiset{}, multiset{})), settings);
  }

  /** The last setting of each kind counts, as one at least; and there are never fewer slots than tickets that may run. */
  lemma {:induction false} LastSettingCounts(p: Pipe, settings: seq<Setting>, k: nat)
    requires k < |settings|
    ensures settings[k].MaxWeight? && (forall j :: k < j < |settings| ==> !settings[j].MaxWeight?) ==>
              Configure(p, settings).maxWeight == (if settings[k].limit < 1 then 1 else settings[k].limit)
    ensures settings[k].MaxOutstanding? && (forall j :: k < j < |settings| ==> !settings[j].MaxOutstanding?) ==>
              Configure(p, settings).maxItems == (if settings[k].limit < 1 then 1 else settings[k].limit)
    decreases |settings|
  {
    var q := match settings[0]
      case MaxOutstanding(n) => p.(maxItems := AtLeastOne(n))
      case MaxWeight(n) => p.(maxWeight := AtLeastOne(n));
    if k == 0 {
      OthersDoNotCount(q, settings[1..]);
      assert forall j :: 0 <= j < |settings[1..]| ==> settings[1..][j] == settings[j + 1];
    } else {
      LastSettingCounts(q, settings[1..], k - 1);
      assert forall j :: k - 1 < j < |settings[1..]| ==> settings[1..][j] == settings[j + 1];
    }
  }

  lemma {:induction false} OthersDoNotCount(p: Pipe, settings: seq<Setting>)
    ensures (forall j :: 0 <= j < |settings| ==> !settings[j].MaxWeight?) ==>
              Configure(p, settings).maxWeight == p.maxWeight
    ensures (forall j :: 0 <= j < |settings| ==> !settings[j].MaxOutstanding?) ==>
              Configure(p, settings).maxItems == p.maxItems
    decreases |settings|
  {
    if settings != [] {
      var q := match settings[0]
        case MaxOutstanding(n) => p.(maxItems := AtLeastOne(n))
        case MaxWeight(n) => p.(maxWeight := AtLeastOne(n));
      OthersDoNotCount(q, settings[1..]);
      assert forall j :: 0 <= j < |settings[1..]| ==> settings[1..][j] == settings[j + 1];
    }
  }

  /** Both bounds of a new pipeline, for every list of settings. */
  lemma BoundsOfNew(limit: int, settings: seq<Setting>, k: nat)
    ensures (forall j :: 0 <= j < |settings| ==> !settings[j].MaxWeight?) ==>
              New(limit, settings).maxWeight == 64 * 1024 * 1024
    ensures k < |settings| && settings[k].MaxWeight? && (forall j :: k < j < |settings| ==> !settings[j].MaxWeight?) ==>
              New(limit, settings).maxWeight == (if settings[k].limit < 1 then 1 else settings[k].limit)
    ensures k < |settings| && settings[k].MaxOutstanding?
            && (forall j :: k < j < |settings| ==> !settings[j].MaxOutstanding?) ==>
              var n := New(limit, settings).limit;
              New(limit, settings).maxItems == (if settings[k].limit < n then n else settings[k].limit)
  {
    var n := AtLeastOne(limit);
    var p := Pipe(n, Wrap64(n * 2), DEFAULT_MAX_WEIGHT, 0, 0, 0, [], [],
                  History([], [], multiset{}, multiset{}, multiset{}));
    ConfigureKeeps(p, settings);
    OthersDoNotCount(p, settings);
    if k < |settings| {
      LastSettingCounts(p, settings, k);
    }
  }

  // ---- Draining ----

  predicate Done(t: Ticket) {
    t.phase == Finished && t.slot == Freed
  }

  function Left(t: Ticket): int {
    (match t.phase
     case Waiting => 6
     case Running => 5
     case Submitted => 4
     case Released => 3
     case Landed => 1
     case Finished => 0)
    + (match t.slot
       case Held => 2
       case Called => 1
       case Freed => 0)
  }

  function WorkLeft(p: Pipe): int {
    Sum(p.history.tickets, Left) + |p.results|
  }

  /** Every step but accepting a ticket takes the pipeline strictly closer to being drained. */
  lemma StepDrains(p: Pipe, step: Step)
    requires Inv(p) && Enabled(p, step) && !step.EnqueueTicket?
    ensures WorkLeft(Apply(p, step)) < WorkLeft(p)
  {
    if step.Finish? {
      FinishDrains(p, step.id);
    } else if OneTicket(step) {
      MoveDrains(p, step);
    }
  }

  lemma MoveDrains(p: Pipe, step: Step)
    requires OneTicket(step) && Enabled(p, step)
    ensures WorkLeft(Apply(p, step)) < WorkLeft(p)
  {
    MovesOne(p, step);
    var ts := p.history.tickets;
    SumUpdate(ts, step.id, Moved(ts[step.id], step), Left);
  }

  lemma FinishDrains(p: Pipe, i: nat)
    requires OrderOk(p) && Enabled(p, Finish(i))
    ensures WorkLeft(Apply(p, Finish(i))) < WorkLeft(p)
  {
    var ts := p.history.tickets;
    var ts1 := ts[i := ts[i].(phase := Finished)];
    SumUpdate(ts, i, ts1[i], Left);
    if p.queue != [] {
      assert (p.history.started + p.queue)[|p.history.started|] == p.queue[0];
      SumUpdate(ts1, p.queue[0], ts1[p.queue[0]].(phase := Running), Left);
    }
  }

  /** Accepting a ticket adds the work of one ticket. */
  lemma OfferWork(p: Pipe, r: Request)
    ensures WorkLeft(Offer(p, r)) <= WorkLeft(p) + 8
  {
    if VerdictOn(p, r) == Accepted {
      var t := Ticket(NormalizedWeight(r.weight), if p.active < p.limit then Running else Waiting, Held);
      SumAppend(p.history.tickets, t, Left);
      assert Offer(p, r).history.tickets == p.history.tickets + [t];
    }
  }

  lemma WorkIsNatural(p: Pipe)
    ensures WorkLeft(p) >= 0
  {
    SumPositive(p.history.tickets, Left);
  }

  /** So draining takes a bounded number of steps, in any order. */
  lemma {:induction false} DrainBound(p: Pipe, steps: seq<Step>)
    requires Inv(p) && Run(p, steps).Some?
    requires forall k :: 0 <= k < |steps| ==> !steps[k].EnqueueTicket?
    ensures |steps| <= WorkLeft(p)
    decreases |steps|
  {
    SumPositive(p.history.tickets, Left);
    if steps != [] {
      StepKeeps(p, steps[0]);
      StepDrains(p, steps[0]);
      DrainBound(Apply(p, steps[0]), steps[1..]);
    }
  }

  /** And the pipeline never gets stuck: as long as a ticket is not done, some step is possible. */
  lemma NeverStuck(p: Pipe) returns (step: Step)
    requires Inv(p) && exists i :: 0 <= i < |p.history.tickets| && !Done(p.history.tickets[i])
    ensures !step.EnqueueTicket? && Enabled(p, step)
  {
    var ts := p.history.tickets;
    if p.results != [] {
      return ReceiveResult;
    }
    if i :| 0 <= i < |ts| && InFlight(ts[i].phase) {
      step := MoveOn(p, i);
      return;
    }
    var i :| 0 <= i < |ts| && !Done(ts[i]);
    SumPositive(ts, ActiveOne);
    step := if ts[i].slot == Held then CallFinalizer(i) else FreeSlot(i);
  }

  /** A ticket in flight can move on when the result channel has room. */
  lemma MoveOn(p: Pipe, i: nat) returns (step: Step)
    requires Inv(p) && p.results == [] && i < |p.history.tickets| && InFlight(p.history.tickets[i].phase)
    ensures !step.EnqueueTicket? && Enabled(p, step)
  {
    match p.history.tickets[i].phase
    case Running => step := Submit(i);
    case Submitted => step := AfterSubmit(i);
    case Released => step := PostResult(i);
    case Landed =>
      QueuedExist(p);
      step := Finish(i);
  }

  /** When no step is possible every accepted ticket was submitted, received and finalized, once each. */
  lemma DrainedIsComplete(limit: int, settings: seq<Setting>, steps: seq<Step>)
    requires Run(New(limit, settings), steps).Some?
    requires var p := Run(New(limit, settings), steps).value;
             forall step: Step :: Enabled(p, step) ==> step.EnqueueTicket?
    ensures var p := Run(New(limit, settings), steps).value;
            && p.active == 0 && p.outstanding == 0 && p.totalWeight == 0 && p.queue == [] && p.results == []
            && forall i :: 0 <= i < |p.history.tickets| ==>
                 p.history.submitted[i] == 1 && p.history.received[i] == 1 && p.history.finalized[i] == 1
  {
    NewInv(limit, settings);
    RunKeeps(New(limit, settings), steps);
    var p := Run(New(limit, settings), steps).value;
    if exists i :: 0 <= i < |p.history.tickets| && !Done(p.history.tickets[i]) {
      var step := NeverStuck(p);
    }
    SumPositive(p.history.tickets, ActiveOne);
    SumPositive(p.history.tickets, HeldOne);
    SumPositive(p.history.tickets, HeldWeight);
    assert !Enabled(p, ReceiveResult);
  }

  /** A slot can be free before the ticket that held it has ended: `outstanding` below `active`. */
  lemma OutstandingBelowActive()
    ensures var steps := [EnqueueTicket(Request(true, 1)), Submit(0), AfterSubmit(0), PostResult(0),
                          ReceiveResult, CallFinalizer(0), FreeSlot(0)];
            var r := Run(New(1, []), steps);
            r.Some? && r.value.outstanding == 0 && r.value.active == 1
  {
    var p0 := New(1, []);
    var p1 := Apply(p0, EnqueueTicket(Request(true, 1)));
    assert p1.history.tickets == [Ticket(1, Running, Held)];
    var p2 := Apply(p1, Submit(0));
    var p3 := Apply(p2, AfterSubmit(0));
    var p4 := Apply(p3, PostResult(0));
    var p5 := Apply(p4, ReceiveResult);
    var p6 := Apply(p5, CallFinalizer(0));
    var p7 := Apply(p6, FreeSlot(0));
    assert Run(p7, []) == Some(p7);
    assert Run(p5, [CallFinalizer(0), FreeSlot(0)]) == Some(p7) by {
      assert [CallFinalizer(0), FreeSlot(0)][1..] == [FreeSlot(0)];
      assert [FreeSlot(0)][1..] == [];
      assert Run(p6, [FreeSlot(0)]) == Some(p7);
    }
    var tail := [PostResult(0), ReceiveResult, CallFinalizer(0), FreeSlot(0)];
    assert Run(p3, tail) == Some(p7) by {
      assert tail[1..] == [ReceiveResult, CallFinalizer(0), FreeSlot(0)];
      assert tail[1..][1..] == [CallFinalizer(0), FreeSlot(0)];
      assert Run(p4, tail[1..]) == Some(p7);
    }
    var steps := [EnqueueTicket(Request(true, 1)), Submit(0), AfterSubmit(0)] + tail;
    assert steps[1..] == [Submit(0), AfterSubmit(0)] + tail;
    assert steps[1..][1..] == [AfterSubmit(0)] + tail;
    assert steps[1..][1..][1..] == tail;
    assert Run(p2, [AfterSubmit(0)] + tail) == Some(p7);
    assert Run(p1, [Submit(0), AfterSubmit(0)] + tail) == Some(p7);
  }

  // ---- The pipeline as an object ----

  /** `id` stands for the identity of the ticket. */
  datatype QueuedTicket = QueuedTicket(id: nat, weight: Int64)

  /** The entry carries the weight of its ticket. */
  ghost predicate Describes(entry: QueuedTicket, ts: seq<Ticket>) {
    entry.id < |ts| && ts[entry.id].weight == entry.weight as int
  }

  function IdsOf(queue: seq<QueuedTicket>): seq<nat> {
    seq(|queue|, k requires 0 <= k < |queue| => queue[k].id)
  }

  /** `p` is what these steps make of a new pipeline. */
  ghost predicate Reached(p: Pipe, run: PipeRun) {
    Run(New(run.limit, run.settings), run.steps) == Some(p)
  }

  datatype PipeRun = PipeRun(limit: int, settings: seq<Setting>, steps: seq<Step>)

  lemma {:induction false} RunAppend(p: Pipe, steps: seq<Step>, step: Step)
    requires Run(p, steps).Some? && Enabled(Run(p, steps).value, step)
    ensures Run(p, steps + [step]) == Some(Apply(Run(p, steps).value, step))
    decreases |steps|
  {
    if steps == [] {
      assert (steps + [step])[1..] == [];
      assert Run(Apply(p, step), []) == Some(Apply(p, step));
    } else {
      assert (steps + [step])[1..] == steps[1..] + [step];
      RunAppend(Apply(p, steps[0]), steps[1..], step);
    }
  }

  /** What a critical section may rely on. */
  lemma ReachedBounds(p: Pipe, run: PipeRun)
    requires Reached(p, run)
    ensures 0 <= p.active <= p.limit && 0 <= p.outstanding <= p.maxItems && 0 <= p.totalWeight <= p.maxWeight
    ensures forall k :: 0 <= k < |p.queue| ==> p.queue[k] < |p.history.tickets|
    ensures p.outstanding == 0 <==>
            forall i :: 0 <= i < |p.history.tickets| ==> SlotIs(p, i, Freed)
  {
    NewInv(run.limit, run.settings);
    RunKeeps(New(run.limit, run.settings), run.steps);
    QueuedExist(p);
    var ts := p.history.tickets;
    SumPositive(ts, HeldOne);
    assert forall i :: 0 <= i < |ts| ==> (HeldOne(ts[i]) > 0 <==> !SlotIs(p, i, Freed));
  }

  /** A ticket that still counts is counted. */
  lemma ReachedCounts(p: Pipe, run: PipeRun, i: nat)
    requires Reached(p, run) && i < |p.history.tickets|
    ensures InFlight(p.history.tickets[i].phase) ==> p.active >= 1
    ensures p.history.tickets[i].slot != Freed ==>
              p.outstanding >= 1 && p.totalWeight >= p.history.tickets[i].weight >= 1
  {
    NewInv(run.limit, run.settings);
    RunKeeps(New(run.limit, run.settings), run.steps);
    SumPositive(p.history.tickets, ActiveOne);
    if p.history.tickets[i].slot != Freed {
      HeldCounts(p, i);
    }
  }

  /**
   The mutable pipeline, in 64-bit arithmetic. Each method is one critical section, or one channel
   operation, of the goroutines that share it; `run` records them, so that what is proved about all
   runs holds of the object.
   */
  class CompletionPipeline {
    var limit: Int64
    var maxItems: Int64
    var maxWeight: Int64
    var active: Int64
    var outstanding: Int64
    var totalWeight: Int64
    var queue: seq<QueuedTicket>
    var results: seq<nat>
    var accepted: nat
    ghost var history: History
    ghost var run: PipeRun

    ghost function State(): Pipe
      reads this
    {
      Pipe(limit as int, maxItems as int, maxWeight as int,
           active as int, outstanding as int, totalWeight as int, IdsOf(queue), results, history)
    }

    ghost predicate Valid()
      reads this
    {
      && Reached(State(), run)
      && accepted == |history.tickets|
      && forall k :: 0 <= k < |queue| ==> Describes(queue[k], history.tickets)
    }

    constructor (limit: Int64, settings: seq<Setting>)
      requires forall k :: 0 <= k < |settings| ==> -MAX_INT <= settings[k].limit <= MAX_INT
      ensures Valid() && State() == New(limit as int, settings)
    {
      var n: Int64 := if limit < 1 then 1 else limit;
      var items, weight := Wrap64(n as int * 2) as Int64, DEFAULT_MAX_WEIGHT as Int64;
      ghost var p := Pipe(n as int, items as int, weight as int, 0, 0, 0, [], [],
                          History([], [], multiset{}, multiset{}, multiset{}));
      for k := 0 to |settings|
        invariant Configure(p, settings)
               == Configure(p.(maxItems := items as int, maxWeight := weight as int), settings[k..])
      {
        assert settings[k..][0] == settings[k] && settings[k..][1..] == settings[k + 1..];
        match settings[k]
        case MaxOutstanding(m) => items := AtLeastOne(m) as Int64;
        case MaxWeight(m) => weight := AtLeastOne(m) as Int64;
      }
      if items < n {
        items := n;
      }
      this.limit, maxItems, maxWeight := n, items, weight;
      active, outstanding, totalWeight := 0, 0, 0;
      queue, results, accepted := [], [], 0;
      history := History([], [], multiset{}, multiset{}, multiset{});
      run := PipeRun(limit as int, settings, []);
      new;
      assert State() == New(limit as int, settings);
    }

    /** Records a step of the goroutines. */
    ghost method Record(p: Pipe, step: Step)
      requires Reached(p, run) && Enabled(p, step)
      modifies this`run, this`history
      ensures Reached(Apply(p, step), run) && history == Apply(p, step).history
    {
      RunAppend(New(run.limit, run.settings), run.steps, step);
      run := run.(steps := run.steps + [step]);
      history := Apply(p, step).history;
    }

    /**
     Accepts the ticket or says why not; `finalized` is whether its finalizer was called at once, and
     `started` the ticket whose goroutine is started.
     */
    method Enqueue(hasSubmit: bool, weight: Int64)
      returns (verdict: Verdict, finalized: bool, started: Option<QueuedTicket>)
      requires Valid()
      modifies this
      ensures Valid() && State() == Offer(old(State()), Request(hasSubmit, weight as int))
      ensures verdict == VerdictOn(old(State()), Request(hasSubmit, weight as int))
      ensures finalized <==> verdict == InvalidSize || verdict == AtCapacity
      ensures started.Some? <==> verdict == Accepted && old(active) < limit
      ensures started.Some? ==> Describes(started.value, history.tickets) && PhaseIs(State(), started.value.id, Running)
    {
      ghost var p, r := State(), Request(hasSubmit, weight as int);
      ReachedBounds(p, run);
      if !hasSubmit {
        return NoSubmit, false, None;
      }
      if weight < 0 {
        return InvalidSize, true, None;
      }
      var w: Int64 := if weight == 0 then 1 else weight;
      var overWeight := maxWeight > 0 && (w > maxWeight || totalWeight > maxWeight - w);
      if outstanding >= maxItems || overWeight {
        return AtCapacity, true, None;
      }
      assert w as int == NormalizedWeight(r.weight) && VerdictOn(p, r) == Accepted;
      started := Admit(w, r);
      return Accepted, false, started;
    }

    /** The second half of `Enqueue`: the ticket is started or queued. */
    method Admit(weight: Int64, ghost r: Request) returns (started: Option<QueuedTicket>)
      requires Valid() && VerdictOn(State(), r) == Accepted && weight as int == NormalizedWeight(r.weight)
      modifies this
      ensures Valid() && State() == Accept(old(State()), weight as int)
      ensures started.Some? <==> old(active) < limit
      ensures started.Some? ==> Describes(started.value, history.tickets) && PhaseIs(State(), started.value.id, Running)
    {
      ghost var p := State();
      ReachedBounds(p, run);
      Record(p, EnqueueTicket(r));
      var entry := QueuedTicket(accepted, weight);
      accepted := accepted + 1;
      outstanding := outstanding + 1;
      totalWeight := totalWeight + weight;
      if active < limit {
        active := active + 1;
        return Some(entry);
      }
      queue := queue + [entry];
      assert IdsOf(queue) == p.queue + [entry.id];
      return None;
    }

    /** Ends a ticket whose result has been posted, and takes the next one from the queue. */
    method FinishAndTakeNext(ghost id: nat) returns (next: Option<QueuedTicket>)
      requires Valid() && PhaseIs(State(), id, Landed)
      modifies this
      ensures Valid() && Enabled(old(State()), Finish(id)) && State() == Apply(old(State()), Finish(id))
      ensures next == if old(queue) == [] then None else Some(old(queue)[0])
      ensures next.Some? ==> Describes(next.value, history.tickets) && PhaseIs(State(), next.value.id, Running)
    {
      ghost var p := State();
      ReachedBounds(p, run);
      ReachedCounts(p, run, id);
      Record(p, Finish(id));
      active := active - 1;
      if |queue| == 0 {
        return None;
      }
      next := Some(queue[0]);
      queue := queue[1..];
      active := active + 1;
      assert IdsOf(queue) == p.queue[1..];
    }

    /** Gives back the slot and the weight of a ticket; its finalizer has been called. */
    method FreeSlot(ghost id: nat, weight: Int64)
      requires Valid() && SlotIs(State(), id, Called) && history.tickets[id].weight == weight as int
      modifies this
      ensures Valid() && State() == Apply(old(State()), Step.FreeSlot(id))
    {
      ghost var p := State();
      ReachedBounds(p, run);
      ReachedCounts(p, run, id);
      Record(p, Step.FreeSlot(id));
      outstanding := outstanding - 1;
      totalWeight := totalWeight - weight;
    }

    /** The caller's functions run outside the lock. */
    ghost method RunCallback(step: Step)
      requires Valid() && Enabled(State(), step)
      requires step.Submit? || step.AfterSubmit? || step.CallFinalizer?
      modifies this`run, this`history
      ensures Valid() && State() == Apply(old(State()), step)
    {
      Record(State(), step);
    }

    /** The goroutine of a ticket posts its result. */
    method Post(id: nat)
      requires Valid() && Enabled(State(), PostResult(id))
      modifies this
      ensures Valid() && State() == Apply(old(State()), PostResult(id))
    {
      Record(State(), PostResult(id));
      results := results + [id];
    }

    method Receive() returns (id: nat)
      requires Valid() && Enabled(State(), ReceiveResult)
      modifies this
      ensures Valid() && State() == Apply(old(State()), ReceiveResult) && id == old(results)[0]
    {
      Record(State(), ReceiveResult);
      id := results[0];
      results := results[1..];
    }

    /** What the run loops poll to see whether every result has been finalized. */
    method Outstanding() returns (n: Int64)
      requires Valid()
      ensures n == outstanding
      ensures n == 0 <==> forall i :: 0 <= i < |history.tickets| ==> SlotIs(State(), i, Freed)
    {
      ReachedBounds(State(), run);
      n := outstanding;
    }
  }

  lemma QueuedExist(p: Pipe)
    requires OrderOk(p)
    ensures forall k :: 0 <= k < |p.queue| ==> p.queue[k] < |p.history.tickets|
  {
    forall k | 0 <= k < |p.queue|
      ensures p.queue[k] < |p.history.tickets|
    {
      assert (p.history.started + p.queue)[|p.history.started| + k] == p.queue[k];
    }
  }

  lemma HeldCounts(p: Pipe, i: nat)
    requires CountsOk(p) && i < |p.history.tickets| && p.history.tickets[i].slot != Freed
    ensures p.outstanding >= 1 && p.totalWeight >= p.history.tickets[i].weight
  {
    var ts := p.history.tickets[i := p.history.tickets[i].(slot := Freed)];
    UpdateCounts(p, i, ts[i]);
    SumPositive(ts, HeldOne);
    SumPositive(ts, HeldWeight);
  }
}
