/**
 The activity run loop together with the poller, the handlers it started and the completion pipeline,
 all interleaved freely. An activity ends once: by its handler's result, by a cancellation or because
 the worker drains; whatever comes later is ignored.

 Activities are numbered in the order in which they were started; `running` maps task tokens to them.
 Cancelling all running activities goes through the map in any order, one enqueue at a time.
 */
module ActivityLoop {
  import opened Basics
  import Pipeline

  // ---- State ----

  /** `Produced`: the handler has returned and offers its completion to the loop. */
  datatype Handler = Working | Produced(completion: Option<nat>) | Over

  datatype Activity = Activity(token: string, terminal: bool)

  datatype Task = Start(token: string) | Cancel(token: string) | Neither

  datatype PollEvent = GotTask(task: Task, codecFailed: bool) | GotError(cancelled: bool)

  datatype Poller = Polling | Sending(event: PollEvent) | Stopped

  datatype LoopError =
    | PollStopped | PollFailed | BadTask | OverLimit | DuplicateToken | NotEnqueued | NoCompletion | SubmitFailed

  datatype LoopAt =
    | AtSelect
    | Cancelling(left: set<string>, refused: seq<LoopError>)
    | Received(ticket: nat, failed: bool)
    | Finalizing(ticket: nat, failed: bool)

  datatype Loop = Loop(
    draining: bool, pollOpen: bool, ctxArmed: bool, activeExecutions: int, errors: seq<LoopError>, at: LoopAt)

  /** History: heartbeats that reached Core, and completion attempts. */
  datatype Entry = Beat(activity: nat) | Attempt(activity: nat)

  /**
   `handlers` are the goroutines of the activities. `tickets` maps an activity to the ticket of its
   completion, if the pipeline took it; `ticketActivities` maps back.
   */
  datatype World = World(
    limit: int, cancelled: bool, stopPolling: bool,
    poller: Poller, loop: Loop,
    activities: seq<Activity>, running: map<string, nat>, handlers: map<nat, Handler>,
    log: seq<Entry>, tickets: map<nat, nat>,
    ticketActivities: seq<Option<nat>>, pipe: Pipeline.Pipe)

  const DEFAULT_LIMIT := 1000

  function Limit(configured: int): int {
    if configured > 0 then configured else DEFAULT_LIMIT
  }

  function Begin(configured: int): World {
    var limit := Limit(configured);
    World(limit, false, false, Polling, Loop(false, true, true, 0, [], AtSelect),
          [], map[], map[], [], map[], [], Pipeline.New(limit, []))
  }

  // ---- Handlers of the loop ----

  /** The first time, everything that still runs is going to be cancelled. */
  function StartDraining(w: World, errors: seq<LoopError>): World {
    var w1 := w.(loop := w.loop.(errors := w.loop.errors + errors, at := AtSelect));
    if w.loop.draining then w1
    else w1.(loop := w1.loop.(draining := true, ctxArmed := false, at := Cancelling(w.running.Keys, [])),
             stopPolling := true)
  }

  function FailWith(w: World, error: Option<LoopError>): World {
    if error == None then w else StartDraining(w, [error.value])
  }

  /** Drops an activity from the map unless another one has taken its token. */
  function Forget(w: World, a: nat): World
    requires a < |w.activities|
  {
    var token := w.activities[a].token;
    if token in w.running && w.running[token] == a then w.(running := w.running - {token}) else w
  }

  function Verdict(w: World, size: nat): Pipeline.Verdict {
    Pipeline.VerdictOn(w.pipe, Pipeline.Request(true, size))
  }

  function Accepted(w: World, size: nat, activity: Option<nat>): World {
    w.(pipe := Pipeline.Offer(w.pipe, Pipeline.Request(true, size)),
       ticketActivities := w.ticketActivities + [activity])
  }

  /** A completion that belongs to no running activity. */
  function EnqueuePlain(w: World, size: nat): (World, Option<LoopError>) {
    if Verdict(w, size) == Pipeline.Accepted then (Accepted(w, size, None), None) else (w, Some(NotEnqueued))
  }

  /** The activity is terminal from now on. */
  function MarkTerminal(w: World, a: nat): World
    requires a < |w.activities|
  {
    w.(activities := w.activities[a := w.activities[a].(terminal := true)],
       loop := w.loop.(activeExecutions := w.loop.activeExecutions - 1),
       log := w.log + [Attempt(a)])
  }

  /** `enqueueActivityCompletion`: nothing happens for an activity that has already ended. */
  function EnqueueCompletion(w: World, a: nat, completion: Option<nat>): (World, Option<LoopError>)
    requires a < |w.activities|
  {
    if w.activities[a].terminal then (w, None)
    else
      var w1 := MarkTerminal(w, a);
      if completion == None then (Forget(w1, a), Some(NoCompletion))
      else if Verdict(w, completion.value) == Pipeline.Accepted then
        var ticket := |w.ticketActivities|;
        (Accepted(w1.(tickets := w1.tickets[a := ticket]), completion.value, Some(a)), None)
      else (Forget(w1, a), Some(NotEnqueued))
  }

  function StartActivity(w: World, token: string): (World, Option<LoopError>) {
    if w.loop.activeExecutions >= w.limit then (w, Some(OverLimit))
    else if token in w.running then (w, Some(DuplicateToken))
    else
      (w.(activities := w.activities + [Activity(token, false)],
          handlers := w.handlers[|w.activities| := Working],
          running := w.running[token := |w.activities|],
          loop := w.loop.(activeExecutions := w.loop.activeExecutions + 1)), None)
  }

  function HandleTask(w: World, task: Task, size: nat): (World, Option<LoopError>) {
    match task
    case Start(token) => if !w.loop.draining then StartActivity(w, token) else EnqueuePlain(w, size)
    case Cancel(token) =>
      if token in w.running && w.running[token] < |w.activities|
      then EnqueueCompletion(w, w.running[token], Some(size)) else (w, None)
    case Neither => (w, Some(BadTask))
  }

  function HandlePollEvent(w: World, event: PollEvent, size: nat): World {
    match event
    case GotError(cancelled) =>
      StartDraining(w.(poller := Stopped), if w.cancelled && cancelled then [] else [PollFailed])
    case GotTask(task, codecFailed) =>
      var w1 := w.(poller := Polling);
      var r := if codecFailed then EnqueuePlain(w1, size) else HandleTask(w1, task, size);
      FailWith(r.0, r.1)
  }

  function HandlePollClosed(w: World): World {
    var w1 := w.(loop := w.loop.(pollOpen := false));
    if w.loop.draining then w1 else StartDraining(w1, if w.cancelled then [] else [PollStopped])
  }

  function SetHandler(w: World, a: nat, handler: Handler): World {
    w.(handlers := w.handlers[a := handler])
  }

  predicate IsRunning(w: World, a: nat) {
    a < |w.activities| && w.activities[a].token in w.running && w.running[w.activities[a].token] == a
  }

  /** The handler of `a` has returned, or is still working. */
  predicate HandlerIs(w: World, a: nat, produced: bool) {
    a in w.handlers && (if produced then w.handlers[a].Produced? else w.handlers[a] == Working)
  }

  /** The result of a handler whose activity has left the map is stale. */
  function HandleActivityEvent(w: World, a: nat): World
    requires a < |w.activities| && HandlerIs(w, a, true)
  {
    var w1 := SetHandler(w, a, Over);
    if !IsRunning(w, a) then w1
    else
      var r := EnqueueCompletion(w1, a, w.handlers[a].completion);
      FailWith(r.0, r.1)
  }

  /** One round of the loop over the map in `cancelRunningActivities`. */
  function CancelNext(w: World, token: string, size: nat): World
    requires w.loop.at.Cancelling? && token in w.running && w.running[token] < |w.activities|
  {
    var r := EnqueueCompletion(w, w.running[token], Some(size));
    r.0.(loop := r.0.loop.(at := Cancelling(w.loop.at.left - {token},
                                            w.loop.at.refused + (if r.1 == None then [] else [r.1.value]))))
  }

  predicate ShouldFinish(w: World) {
    w.loop.at == AtSelect && w.loop.draining && !w.loop.pollOpen && w.pipe.outstanding == 0
  }

  // ---- Steps ----

  datatype Step =
    | CancelContext
    | CoreReturns(task: Task, codecFailed: bool)
    | CoreFails(cancelled: bool)
    | PollerGivesUp
    | SeeCancel
    | TakePollEvent(size: nat)
    | TakePollClosed
    | Produce(activity: nat, completion: Option<nat>)
    | Heartbeat(activity: nat)
    | Quit(activity: nat)                  // a handler whose activity has ended drops its result
    | TakeActivityEvent(activity: nat)
    | CancelOne(token: string, size: nat)
    | CancelDone
    | TakeResult(failed: bool)
    | CallFinalizer
    | FreeSlot
    | RunTicket(step: Pipeline.Step)       // the goroutine of a ticket

  predicate IsTicketStep(step: Pipeline.Step) {
    step.Submit? || step.AfterSubmit? || step.PostResult? || step.Finish?
  }

  predicate Enabled(w: World, step: Step) {
    match step
    case CancelContext => true
    case CoreReturns(_, _) => w.poller == Polling
    case CoreFails(_) => w.poller == Polling
    case PollerGivesUp => w.poller.Sending? && w.poller.event.GotError? && (w.cancelled || w.stopPolling)
    case SeeCancel => w.loop.at == AtSelect && w.cancelled && w.loop.ctxArmed
    case TakePollEvent(_) => w.loop.at == AtSelect && w.loop.pollOpen && w.poller.Sending?
    case TakePollClosed => w.loop.at == AtSelect && w.loop.pollOpen && w.poller == Stopped
    case Produce(a, _) => HandlerIs(w, a, false)
    case Heartbeat(a) => a < |w.activities|
    case Quit(a) => HandlerIs(w, a, true) && a < |w.activities| && w.activities[a].terminal
    case TakeActivityEvent(a) => w.loop.at == AtSelect && a < |w.activities| && HandlerIs(w, a, true)
    case CancelOne(token, _) =>
      && w.loop.at.Cancelling? && token in w.loop.at.left
      && token in w.running && w.running[token] < |w.activities|
    case CancelDone => w.loop.at.Cancelling? && w.loop.at.left !! w.running.Keys
    case TakeResult(_) => w.loop.at == AtSelect && Pipeline.Enabled(w.pipe, Pipeline.ReceiveResult)
    case CallFinalizer =>
      && w.loop.at.Received? && Pipeline.Enabled(w.pipe, Pipeline.CallFinalizer(w.loop.at.ticket))
      && w.loop.at.ticket < |w.ticketActivities|
      && (w.ticketActivities[w.loop.at.ticket].Some? ==> w.ticketActivities[w.loop.at.ticket].value < |w.activities|)
    case FreeSlot => w.loop.at.Finalizing? && Pipeline.Enabled(w.pipe, Pipeline.FreeSlot(w.loop.at.ticket))
    case RunTicket(s) => IsTicketStep(s) && Pipeline.Enabled(w.pipe, s)
  }

  function Apply(w: World, step: Step): World
    requires Enabled(w, step)
  {
    match step
    case CancelContext => w.(cancelled := true)
    case CoreReturns(task, codecFailed) => w.(poller := Sending(GotTask(task, codecFailed)))
    case CoreFails(cancelled) => w.(poller := Sending(GotError(cancelled)))
    case PollerGivesUp => w.(poller := Stopped)
    case SeeCancel => StartDraining(w, [])
    case TakePollEvent(size) => HandlePollEvent(w, w.poller.event, size)
    case TakePollClosed => HandlePollClosed(w)
    case Produce(a, completion) => SetHandler(w, a, Produced(completion))
    case Heartbeat(a) => if w.activities[a].terminal then w else w.(log := w.log + [Beat(a)])
    case Quit(a) => SetHandler(w, a, Over)
    case TakeActivityEvent(a) => HandleActivityEvent(w, a)
    case CancelOne(token, size) => CancelNext(w, token, size)
    case CancelDone => w.(loop := w.loop.(at := AtSelect, errors := w.loop.errors + w.loop.at.refused))
    case TakeResult(failed) =>
      w.(loop := w.loop.(at := Received(w.pipe.results[0], failed)),
         pipe := Pipeline.Apply(w.pipe, Pipeline.ReceiveResult))
    case CallFinalizer =>
      var i := w.loop.at.ticket;
      var w1 := w.(loop := w.loop.(at := Finalizing(i, w.loop.at.failed)),
                   pipe := Pipeline.Apply(w.pipe, Pipeline.CallFinalizer(i)));
      if w.ticketActivities[i].Some? then Forget(w1, w.ticketActivities[i].value) else w1
    case FreeSlot =>
      var w1 := w.(loop := w.loop.(at := AtSelect),
                   pipe := Pipeline.Apply(w.pipe, Pipeline.FreeSlot(w.loop.at.ticket)));
      if w.loop.at.failed then StartDraining(w1, [SubmitFailed]) else w1
    case RunTicket(s) => w.(pipe := Pipeline.Apply(w.pipe, s))
  }

  function Run(w: World, steps: seq<Step>): Option<World>
    decreases |steps|
  {
    if steps == [] then Some(w)
    else if !Enabled(w, steps[0]) then None
    else Run(Apply(w, steps[0]), steps[1..])
  }

  // ---- The invariant ----

  /** The activities that have not ended. */
  ghost function Live(activities: seq<Activity>): set<nat> {
    set a: nat | a < |activities| && !activities[a].terminal
  }

  /** An activity that has not ended is in the map under its token; one that has was attempted. */
  ghost predicate ActivityAt(a: nat, activities: seq<Activity>, running: map<string, nat>, loop: Loop)
    requires a < |activities|
  {
    var activity := activities[a];
    && (activity.terminal || (activity.token in running && running[activity.token] == a))
    && (!activity.terminal && loop.draining ==> loop.at.Cancelling? && activity.token in loop.at.left)
  }

  ghost predicate ActivitiesOk(limit: int, activities: seq<Activity>, running: map<string, nat>, loop: Loop) {
    && loop.activeExecutions == |Live(activities)| && loop.activeExecutions <= limit
    && forall a :: 0 <= a < |activities| ==> ActivityAt(a, activities, running, loop)
  }

  /** An ended activity stays in the map until the ticket of its completion is finalized. */
  ghost predicate EntryAt(
      key: string, running: map<string, nat>, activities: seq<Activity>, ticketOf: map<nat, nat>,
      tickets: seq<Pipeline.Ticket>)
    requires key in running
  {
    var a := running[key];
    && a < |activities| && activities[a].token == key
    && (activities[a].terminal ==>
          a in ticketOf && ticketOf[a] < |tickets| && tickets[ticketOf[a]].slot == Pipeline.Held)
  }

  ghost predicate RunningOk(
      running: map<string, nat>, activities: seq<Activity>, ticketOf: map<nat, nat>, tickets: seq<Pipeline.Ticket>) {
    forall key :: key in running ==> EntryAt(key, running, activities, ticketOf, tickets)
  }

  /** A ticket that is not finalized keeps its activity in the map. */
  ghost predicate TicketAt(
      i: nat, ticketActivities: seq<Option<nat>>, tickets: seq<Pipeline.Ticket>, received: multiset<nat>,
      activities: seq<Activity>, ticketOf: map<nat, nat>, running: map<string, nat>, at: LoopAt)
    requires i < |tickets| == |ticketActivities|
  {
    && (ticketActivities[i].Some? ==>
          var a := ticketActivities[i].value;
          && a < |activities| && activities[a].terminal && a in ticketOf && ticketOf[a] == i
          && (tickets[i].slot == Pipeline.Held ==>
                activities[a].token in running && running[activities[a].token] == a))
    && (received[i] > 0 && tickets[i].slot != Pipeline.Freed ==>
          if tickets[i].slot == Pipeline.Held then at.Received? && at.ticket == i else at.Finalizing? && at.ticket == i)
  }

  ghost predicate TicketsOk(
      ticketActivities: seq<Option<nat>>, tickets: seq<Pipeline.Ticket>, received: multiset<nat>,
      activities: seq<Activity>, ticketOf: map<nat, nat>, running: map<string, nat>, at: LoopAt) {
    && |ticketActivities| == |tickets|
    && (forall i :: 0 <= i < |tickets| ==>
          TicketAt(i, ticketActivities, tickets, received, activities, ticketOf, running, at))
    && (forall a :: a in ticketOf ==>
          && a < |activities| && activities[a].terminal
          && ticketOf[a] < |ticketActivities| && ticketActivities[ticketOf[a]] == Some(a))
  }

  /** The completion attempt of an activity is the last thing the log says about it. */
  ghost predicate LogOk(log: seq<Entry>, activities: seq<Activity>) {
    && (forall i :: 0 <= i < |log| ==> log[i].activity < |activities|)
    && (forall a :: 0 <= a < |activities| ==> (activities[a].terminal <==> Attempt(a) in log))
    && (forall i, j :: 0 <= i < j < |log| && log[i].Attempt? ==> log[j].activity != log[i].activity)
  }

  ghost predicate LoopOk(loop: Loop, poller: Poller, pipe: Pipeline.Pipe) {
    && (!loop.pollOpen ==> poller == Stopped && loop.draining)
    && (loop.draining ==> !loop.ctxArmed)
    && match loop.at
       case Received(i, _) =>
         i < |pipe.history.tickets| && pipe.history.tickets[i].slot == Pipeline.Held && pipe.history.received[i] == 1
       case Finalizing(i, _) => i < |pipe.history.tickets| && pipe.history.tickets[i].slot == Pipeline.Called
       case Cancelling(_, _) => loop.draining
       case AtSelect => true
  }

  ghost predicate Linked(w: World) {
    && w.limit == w.pipe.limit
    && ActivitiesOk(w.limit, w.activities, w.running, w.loop)
    && RunningOk(w.running, w.activities, w.tickets, w.pipe.history.tickets)
    && TicketsOk(w.ticketActivities, w.pipe.history.tickets, w.pipe.history.received, w.activities, w.tickets, w.running, w.loop.at)
    && LogOk(w.log, w.activities)
    && LoopOk(w.loop, w.poller, w.pipe)
  }

  ghost predicate Inv(w: World) {
    Pipeline.Inv(w.pipe) && Linked(w)
  }

  // ---- One completion attempt ----

  lemma MarkKeeps(w: World, a: nat)
    requires ActivitiesOk(w.limit, w.activities, w.running, w.loop) && LogOk(w.log, w.activities)
    requires a < |w.activities| && !w.activities[a].terminal
    ensures var v := MarkTerminal(w, a);
            ActivitiesOk(v.limit, v.activities, v.running, v.loop) && LogOk(v.log, v.activities)
  {
    var v := MarkTerminal(w, a);
    assert Live(v.activities) == Live(w.activities) - {a};
    forall b | 0 <= b < |v.activities|
      ensures ActivityAt(b, v.activities, v.running, v.loop)
    {
      assert ActivityAt(b, w.activities, w.running, w.loop);
    }
    MarkLogs(w, a);
  }

  lemma MarkLogs(w: World, a: nat)
    requires LogOk(w.log, w.activities) && a < |w.activities| && !w.activities[a].terminal
    ensures LogOk(w.log + [Attempt(a)], w.activities[a := w.activities[a].(terminal := true)])
  {
    var log := w.log + [Attempt(a)];
    forall i, j | 0 <= i < j < |log| && log[i].Attempt?
      ensures log[j].activity != log[i].activity
    {
      if j == |w.log| {
        assert w.log[i] == Attempt(w.log[i].activity);
        assert Attempt(w.log[i].activity) in w.log;
      }
    }
    assert log[|w.log|] == Attempt(a);
  }

  /** The activity has ended and has no ticket: it leaves the map. */
  lemma ForgetKeeps(w: World, v: World, a: nat)
    requires Linked(w) && a < |w.activities| && !w.activities[a].terminal && v == Forget(MarkTerminal(w, a), a)
    ensures Linked(v)
  {
    MarkKeeps(w, a);
    assert ActivityAt(a, w.activities, w.running, w.loop);
    var tickets := w.pipe.history.tickets;
    forall b | 0 <= b < |v.activities|
      ensures ActivityAt(b, v.activities, v.running, v.loop)
    {
      assert ActivityAt(b, w.activities, w.running, w.loop);
    }
    forall key | key in v.running
      ensures EntryAt(key, v.running, v.activities, v.tickets, tickets)
    {
      assert EntryAt(key, w.running, w.activities, w.tickets, tickets);
    }
    forall i | 0 <= i < |tickets|
      ensures TicketAt(i, v.ticketActivities, tickets, v.pipe.history.received, v.activities, v.tickets, v.running, v.loop.at)
    {
      assert TicketAt(i, w.ticketActivities, tickets, w.pipe.history.received, w.activities, w.tickets, w.running, w.loop.at);
    }
  }

  /** The pipeline after it accepted a completion of this size. */
  lemma OfferAccepts(p: Pipeline.Pipe, size: nat)
    requires Pipeline.VerdictOn(p, Pipeline.Request(true, size)) == Pipeline.Accepted
    ensures var q := Pipeline.Offer(p, Pipeline.Request(true, size));
            && q.limit == p.limit && q.history.received == p.history.received
            && |q.history.tickets| == |p.history.tickets| + 1
            && q.history.tickets[..|p.history.tickets|] == p.history.tickets
            && q.history.tickets[|p.history.tickets|].slot == Pipeline.Held
  {
  }

  lemma AcceptKeeps(w: World, v: World, a: nat, size: nat)
    requires Linked(w) && a < |w.activities| && !w.activities[a].terminal && Verdict(w, size) == Pipeline.Accepted
    requires w.pipe.history.received[|w.pipe.history.tickets|] == 0
    requires v == EnqueueCompletion(w, a, Some(size)).0
    ensures Linked(v)
  {
    MarkKeeps(w, a);
    OfferAccepts(w.pipe, size);
    AcceptEntries(w, v, a);
    AcceptTickets(w, v, a);
  }

  /** A ticket for the completion of activity `a` is the new last one. */
  ghost predicate Ticketed(w: World, v: World, a: nat) {
    var was, now, n := w.pipe.history.tickets, v.pipe.history.tickets, |w.pipe.history.tickets|;
    && a < |w.activities| && v.activities == w.activities[a := w.activities[a].(terminal := true)]
    && v.running == w.running && v.loop.at == w.loop.at && v.tickets == w.tickets[a := n]
    && v.ticketActivities == w.ticketActivities + [Some(a)]
    && v.pipe.history.received == w.pipe.history.received
    && |now| == n + 1 && now[..n] == was && now[n].slot == Pipeline.Held
  }

  lemma AcceptEntries(w: World, v: World, a: nat)
    requires Linked(w) && Ticketed(w, v, a) && !w.activities[a].terminal
    ensures RunningOk(v.running, v.activities, v.tickets, v.pipe.history.tickets)
  {
    var was, tickets, n := w.pipe.history.tickets, v.pipe.history.tickets, |w.pipe.history.tickets|;
    assert forall i :: 0 <= i < n ==> tickets[i] == tickets[..n][i];
    forall key | key in v.running
      ensures EntryAt(key, v.running, v.activities, v.tickets, tickets)
    {
      assert EntryAt(key, w.running, w.activities, w.tickets, was);
    }
  }

  lemma AcceptTickets(w: World, v: World, a: nat)
    requires Linked(w) && Ticketed(w, v, a) && !w.activities[a].terminal
    requires w.pipe.history.received[|w.pipe.history.tickets|] == 0
    ensures TicketsOk(v.ticketActivities, v.pipe.history.tickets, v.pipe.history.received, v.activities, v.tickets,
                      v.running, v.loop.at)
  {
    var was, tickets, n := w.pipe.history.tickets, v.pipe.history.tickets, |w.pipe.history.tickets|;
    assert ActivityAt(a, w.activities, w.running, w.loop);
    assert forall i :: 0 <= i < n ==> tickets[i] == tickets[..n][i];
    forall i | 0 <= i < |tickets|
      ensures TicketAt(i, v.ticketActivities, tickets, v.pipe.history.received, v.activities, v.tickets, v.running, v.loop.at)
    {
      if i < n {
        assert TicketAt(i, w.ticketActivities, was, w.pipe.history.received, w.activities, w.tickets, w.running, w.loop.at);
      }
    }
  }

  lemma EnqueueKeeps(w: World, a: nat, completion: Option<nat>)
    requires Linked(w) && a < |w.activities| && w.pipe.history.received[|w.pipe.history.tickets|] == 0
    ensures Linked(EnqueueCompletion(w, a, completion).0)
    ensures EnqueueCompletion(w, a, completion).0.loop
            == w.loop.(activeExecutions := EnqueueCompletion(w, a, completion).0.loop.activeExecutions)
    ensures |EnqueueCompletion(w, a, completion).0.activities| == |w.activities|
    ensures EnqueueCompletion(w, a, completion).0.activities[a].terminal
  {
    var v := EnqueueCompletion(w, a, completion).0;
    if !w.activities[a].terminal {
      if completion.Some? && Verdict(w, completion.value) == Pipeline.Accepted {
        AcceptKeeps(w, v, a, completion.value);
      } else {
        ForgetKeeps(w, v, a);
      }
    }
  }

  lemma PlainKeeps(w: World, size: nat)
    requires Linked(w) && w.pipe.history.received[|w.pipe.history.tickets|] == 0
    ensures Linked(EnqueuePlain(w, size).0) && EnqueuePlain(w, size).0.loop == w.loop
  {
    if Verdict(w, size) == Pipeline.Accepted {
      OfferAccepts(w.pipe, size);
      var v := Accepted(w, size, None);
      var was, tickets, n := w.pipe.history.tickets, v.pipe.history.tickets, |w.pipe.history.tickets|;
      assert forall i :: 0 <= i < n ==> tickets[i] == tickets[..n][i];
      forall key | key in v.running
        ensures EntryAt(key, v.running, v.activities, v.tickets, tickets)
      {
        assert EntryAt(key, w.running, w.activities, w.tickets, was);
      }
      forall i | 0 <= i < |tickets|
        ensures TicketAt(i, v.ticketActivities, tickets, v.pipe.history.received, v.activities, v.tickets, v.running, v.loop.at)
      {
        if i < n {
          assert TicketAt(i, w.ticketActivities, was, w.pipe.history.received, w.activities, w.tickets, w.running, w.loop.at);
        }
      }
    }
  }

  // ---- Starting and draining ----

  lemma StartKeeps(w: World, token: string)
    requires Linked(w) && !w.loop.draining
    ensures Linked(StartActivity(w, token).0)
    ensures StartActivity(w, token).0.loop
            == w.loop.(activeExecutions := StartActivity(w, token).0.loop.activeExecutions)
  {
    if w.loop.activeExecutions < w.limit && token !in w.running {
      var v := StartActivity(w, token).0;
      var tickets := w.pipe.history.tickets;
      assert Live(v.activities) == Live(w.activities) + {|w.activities|};
      forall b | 0 <= b < |v.activities|
        ensures ActivityAt(b, v.activities, v.running, v.loop)
      {
        assert b < |w.activities| ==> ActivityAt(b, w.activities, w.running, w.loop);
      }
      forall key | key in v.running
        ensures EntryAt(key, v.running, v.activities, v.tickets, tickets)
      {
        assert key != token ==> EntryAt(key, w.running, w.activities, w.tickets, tickets);
      }
      forall i | 0 <= i < |tickets|
        ensures TicketAt(i, v.ticketActivities, tickets, v.pipe.history.received, v.activities, v.tickets, v.running, v.loop.at)
      {
        assert TicketAt(i, w.ticketActivities, tickets, w.pipe.history.received, w.activities, w.tickets, w.running, w.loop.at);
      }
      StartLogs(w, v);
    }
  }

  lemma StartLogs(w: World, v: World)
    requires LogOk(w.log, w.activities) && v.log == w.log
    requires |v.activities| == |w.activities| + 1 && !v.activities[|w.activities|].terminal
    requires forall a :: 0 <= a < |w.activities| ==> v.activities[a] == w.activities[a]
    ensures LogOk(v.log, v.activities)
  {
  }

  /** The loop moves to another place, with all that depends on it. */
  lemma MoveKeeps(w: World, v: World)
    requires Linked(w) && (w.loop.at == AtSelect || w.loop.at.Cancelling?) && (v.loop.at == AtSelect || v.loop.at.Cancelling?)
    requires v == w.(loop := v.loop, stopPolling := v.stopPolling, poller := v.poller)
    requires v.loop.activeExecutions == w.loop.activeExecutions
    requires LoopOk(v.loop, v.poller, v.pipe)
    requires forall a :: 0 <= a < |w.activities| && !w.activities[a].terminal && v.loop.draining ==>
               v.loop.at.Cancelling? && w.activities[a].token in v.loop.at.left
    ensures Linked(v)
  {
    forall b | 0 <= b < |v.activities|
      ensures ActivityAt(b, v.activities, v.running, v.loop)
    {
      assert ActivityAt(b, w.activities, w.running, w.loop);
    }
    var tickets := w.pipe.history.tickets;
    forall i | 0 <= i < |tickets|
      ensures TicketAt(i, v.ticketActivities, tickets, v.pipe.history.received, v.activities, v.tickets, v.running, v.loop.at)
    {
      assert TicketAt(i, w.ticketActivities, tickets, w.pipe.history.received, w.activities, w.tickets, w.running, w.loop.at);
    }
  }

  lemma DrainingKeeps(w: World, errors: seq<LoopError>)
    requires Linked(w) && w.loop.at == AtSelect
    ensures Linked(StartDraining(w, errors))
  {
    var v := StartDraining(w, errors);
    forall a | 0 <= a < |w.activities| && !w.activities[a].terminal
      ensures v.loop.at.Cancelling? && w.activities[a].token in v.loop.at.left
    {
      assert ActivityAt(a, w.activities, w.running, w.loop);
    }
    MoveKeeps(w, v);
  }

  lemma FailKeeps(w: World, error: Option<LoopError>)
    requires Linked(w) && w.loop.at == AtSelect
    ensures Linked(FailWith(w, error))
  {
    if error.Some? {
      DrainingKeeps(w, [error.value]);
    }
  }

  lemma CancelNextKeeps(w: World, token: string, size: nat)
    requires Linked(w) && Enabled(w, CancelOne(token, size)) && w.pipe.history.received[|w.pipe.history.tickets|] == 0
    ensures Linked(CancelNext(w, token, size))
  {
    var a := w.running[token];
    EnqueueKeeps(w, a, Some(size));
    var m := EnqueueCompletion(w, a, Some(size)).0;
    var v := CancelNext(w, token, size);
    assert EntryAt(token, w.running, w.activities, w.tickets, w.pipe.history.tickets);
    CancelledLeaves(w, m, a, token);
    MoveKeeps(m, v);
  }

  /** Everything that still runs is left to be cancelled. */
  lemma CancelledLeaves(w: World, m: World, a: nat, token: string)
    requires ActivitiesOk(w.limit, w.activities, w.running, w.loop) && w.loop.at.Cancelling? && w.loop.draining
    requires a < |w.activities| == |m.activities| && w.activities[a].token == token
    requires token in w.running && w.running[token] == a && m.activities[a].terminal
    requires forall b :: 0 <= b < |w.activities| && b != a ==> m.activities[b] == w.activities[b]
    ensures forall b :: 0 <= b < |m.activities| && !m.activities[b].terminal ==>
                          m.activities[b].token in w.loop.at.left - {token}
  {
    forall b | 0 <= b < |m.activities| && !m.activities[b].terminal
      ensures m.activities[b].token in w.loop.at.left - {token}
    {
      assert ActivityAt(b, w.activities, w.running, w.loop);
    }
  }

  lemma CancelDoneKeeps(w: World)
    requires Linked(w) && Enabled(w, CancelDone)
    ensures Linked(Apply(w, CancelDone))
  {
    forall a | 0 <= a < |w.activities|
      ensures w.activities[a].terminal
    {
      assert ActivityAt(a, w.activities, w.running, w.loop);
    }
    MoveKeeps(w, Apply(w, CancelDone));
  }

  // ---- Poll events and handlers ----

  lemma PollEventKeeps(w: World, size: nat)
    requires Linked(w) && Enabled(w, TakePollEvent(size)) && w.pipe.history.received[|w.pipe.history.tickets|] == 0
    ensures Linked(Apply(w, TakePollEvent(size)))
  {
    match w.poller.event
    case GotError(_) => DrainingKeeps(w.(poller := Stopped), if w.cancelled && w.poller.event.cancelled then [] else [PollFailed]);
    case GotTask(task, codecFailed) =>
      var w1 := w.(poller := Polling);
      var r := if codecFailed then EnqueuePlain(w1, size) else HandleTask(w1, task, size);
      if codecFailed || (task.Start? && w.loop.draining) {
        PlainKeeps(w1, size);
      } else if task.Start? {
        StartKeeps(w1, task.token);
      } else if task.Cancel? && task.token in w.running && w.running[task.token] < |w.activities| {
        EnqueueKeeps(w1, w.running[task.token], Some(size));
      }
      FailKeeps(r.0, r.1);
  }

  lemma ActivityEventKeeps(w: World, a: nat)
    requires Linked(w) && Enabled(w, TakeActivityEvent(a)) && w.pipe.history.received[|w.pipe.history.tickets|] == 0
    ensures Linked(HandleActivityEvent(w, a))
  {
    var w1 := SetHandler(w, a, Over);
    if IsRunning(w, a) {
      EnqueueKeeps(w1, a, w.handlers[a].completion);
      var r := EnqueueCompletion(w1, a, w.handlers[a].completion);
      FailKeeps(r.0, r.1);
    }
  }

  lemma HeartbeatKeeps(w: World, a: nat)
    requires Linked(w) && Enabled(w, Heartbeat(a))
    ensures Linked(Apply(w, Heartbeat(a)))
  {
    var log := w.log + [Beat(a)];
    if !w.activities[a].terminal {
      forall i, j | 0 <= i < j < |log| && log[i].Attempt?
        ensures log[j].activity != log[i].activity
      {
        if j == |w.log| {
          assert w.log[i] == Attempt(w.log[i].activity);
          assert Attempt(w.log[i].activity) in w.log;
        }
      }
      assert LogOk(log, w.activities);
    }
  }

  // ---- Results and tickets ----

  lemma TakeResultKeeps(w: World, failed: bool)
    requires Linked(w) && Enabled(w, TakeResult(failed))
    requires Pipeline.SlotIs(w.pipe, w.pipe.results[0], Pipeline.Held)
    requires w.pipe.history.received[w.pipe.results[0]] == 0
    ensures Linked(Apply(w, TakeResult(failed)))
  {
    var v := Apply(w, TakeResult(failed));
    SameActivities(w, v);
    var tickets := w.pipe.history.tickets;
    forall i | 0 <= i < |tickets|
      ensures TicketAt(i, v.ticketActivities, tickets, v.pipe.history.received, v.activities, v.tickets, v.running, v.loop.at)
    {
      assert TicketAt(i, w.ticketActivities, tickets, w.pipe.history.received, w.activities, w.tickets, w.running, w.loop.at);
    }
  }

  lemma SameActivities(w: World, v: World)
    requires ActivitiesOk(w.limit, w.activities, w.running, w.loop)
    requires v.limit == w.limit && v.activities == w.activities && v.running == w.running
    requires v.loop == w.loop.(at := v.loop.at) && !w.loop.at.Cancelling?
    ensures ActivitiesOk(v.limit, v.activities, v.running, v.loop)
  {
    forall b | 0 <= b < |v.activities|
      ensures ActivityAt(b, v.activities, v.running, v.loop)
    {
      assert ActivityAt(b, w.activities, w.running, w.loop);
    }
  }

  /** What the finalizer of a ticket does: its slot is called, and its activity leaves the map. */
  ghost predicate Finalized(w: World, v: World, id: nat) {
    var was, now := w.pipe.history.tickets, v.pipe.history.tickets;
    && w.loop.at.Received? && w.loop.at.ticket == id
    && v == w.(loop := v.loop, pipe := v.pipe, running := v.running)
    && v.loop == w.loop.(at := Finalizing(id, w.loop.at.failed))
    && v.pipe.limit == w.pipe.limit && v.pipe.history.received == w.pipe.history.received
    && id < |was| == |w.ticketActivities| && was[id].slot == Pipeline.Held
    && now == was[id := was[id].(slot := Pipeline.Called)]
    && v.running == (match w.ticketActivities[id]
                     case None => w.running
                     case Some(a) => if a < |w.activities| then Forget(w, a).running else w.running)
  }

  lemma FinalizeEntries(w: World, v: World, id: nat)
    requires Linked(w) && Finalized(w, v, id)
    ensures RunningOk(v.running, v.activities, v.tickets, v.pipe.history.tickets)
  {
    var was, tickets := w.pipe.history.tickets, v.pipe.history.tickets;
    assert TicketAt(id, w.ticketActivities, was, w.pipe.history.received, w.activities, w.tickets, w.running, w.loop.at);
    forall key | key in v.running
      ensures EntryAt(key, v.running, v.activities, v.tickets, tickets)
    {
      assert EntryAt(key, w.running, w.activities, w.tickets, was);
    }
  }

  lemma FinalizeTickets(w: World, v: World, id: nat)
    requires Linked(w) && Finalized(w, v, id)
    ensures TicketsOk(v.ticketActivities, v.pipe.history.tickets, v.pipe.history.received, v.activities, v.tickets,
                      v.running, v.loop.at)
  {
    var was, tickets := w.pipe.history.tickets, v.pipe.history.tickets;
    assert TicketAt(id, w.ticketActivities, was, w.pipe.history.received, w.activities, w.tickets, w.running, w.loop.at);
    forall i | 0 <= i < |tickets|
      ensures TicketAt(i, v.ticketActivities, tickets, v.pipe.history.received, v.activities, v.tickets, v.running, v.loop.at)
    {
      assert TicketAt(i, w.ticketActivities, was, w.pipe.history.received, w.activities, w.tickets, w.running, w.loop.at);
    }
  }

  lemma FinalizeActivities(w: World, v: World, id: nat)
    requires Linked(w) && Finalized(w, v, id)
    ensures ActivitiesOk(v.limit, v.activities, v.running, v.loop)
  {
    var was := w.pipe.history.tickets;
    assert TicketAt(id, w.ticketActivities, was, w.pipe.history.received, w.activities, w.tickets, w.running, w.loop.at);
    forall b | 0 <= b < |v.activities|
      ensures ActivityAt(b, v.activities, v.running, v.loop)
    {
      assert ActivityAt(b, w.activities, w.running, w.loop);
    }
  }

  /** The finalizer removes the activity of the ticket, and only that. */
  lemma FinalizeKeeps(w: World)
    requires Linked(w) && Enabled(w, CallFinalizer)
    ensures Linked(Apply(w, CallFinalizer))
  {
    var v := Apply(w, CallFinalizer);
    FinalizeEntries(w, v, w.loop.at.ticket);
    FinalizeTickets(w, v, w.loop.at.ticket);
    FinalizeActivities(w, v, w.loop.at.ticket);
  }

  lemma FreeSlotKeeps(w: World)
    requires Linked(w) && Enabled(w, FreeSlot)
    ensures Linked(Apply(w, FreeSlot))
  {
    var v := w.(loop := w.loop.(at := AtSelect),
                pipe := Pipeline.Apply(w.pipe, Pipeline.FreeSlot(w.loop.at.ticket)));
    SameActivities(w, v);
    var was, tickets := w.pipe.history.tickets, v.pipe.history.tickets;
    forall key | key in v.running
      ensures EntryAt(key, v.running, v.activities, v.tickets, tickets)
    {
      assert EntryAt(key, w.running, w.activities, w.tickets, was);
    }
    forall i | 0 <= i < |tickets|
      ensures TicketAt(i, v.ticketActivities, tickets, v.pipe.history.received, v.activities, v.tickets, v.running, v.loop.at)
    {
      assert TicketAt(i, w.ticketActivities, was, w.pipe.history.received, w.activities, w.tickets, w.running, w.loop.at);
    }
    if w.loop.at.failed {
      DrainingKeeps(v, [SubmitFailed]);
    }
  }

  /** The goroutine of a ticket moves neither slots nor received results. */
  lemma TicketStepIs(p: Pipeline.Pipe, s: Pipeline.Step)
    requires IsTicketStep(s) && Pipeline.Enabled(p, s)
    ensures var q := Pipeline.Apply(p, s);
            && q.limit == p.limit && q.history.received == p.history.received
            && |q.history.tickets| == |p.history.tickets|
            && forall i :: 0 <= i < |p.history.tickets| ==> q.history.tickets[i].slot == p.history.tickets[i].slot
  {
  }

  lemma RunTicketKeeps(w: World, s: Pipeline.Step)
    requires Linked(w) && Enabled(w, RunTicket(s))
    ensures Linked(Apply(w, RunTicket(s)))
  {
    TicketStepIs(w.pipe, s);
    var v := Apply(w, RunTicket(s));
    var was, tickets := w.pipe.history.tickets, v.pipe.history.tickets;
    forall key | key in v.running
      ensures EntryAt(key, v.running, v.activities, v.tickets, tickets)
    {
      assert EntryAt(key, w.running, w.activities, w.tickets, was);
    }
    forall i | 0 <= i < |tickets|
      ensures TicketAt(i, v.ticketActivities, tickets, v.pipe.history.received, v.activities, v.tickets, v.running, v.loop.at)
    {
      assert TicketAt(i, w.ticketActivities, was, w.pipe.history.received, w.activities, w.tickets, w.running, w.loop.at);
    }
  }

  // ---- Putting the parts together ----

  lemma PipeFacts(p: Pipeline.Pipe)
    requires Pipeline.Inv(p)
    ensures p.history.received[|p.history.tickets|] == 0
    ensures p.results != [] ==>
              Pipeline.SlotIs(p, p.results[0], Pipeline.Held) && p.history.received[p.results[0]] == 0
  {
    assert (multiset(p.results) + p.history.received)[|p.history.tickets|] == 0;
    if p.results != [] {
      Pipeline.ReceivedAreNew(p, p.results[0]);
      assert (multiset(p.results) + p.history.received)[p.results[0]] >= 1;
    }
  }

  lemma LinksKeep(w: World, step: Step)
    requires Inv(w) && Enabled(w, step)
    ensures Linked(Apply(w, step))
  {
    PipeFacts(w.pipe);
    match step
    case SeeCancel => DrainingKeeps(w, []);
    case TakePollEvent(size) => PollEventKeeps(w, size);
    case TakePollClosed => ClosedKeeps(w);
    case Heartbeat(a) => HeartbeatKeeps(w, a);
    case TakeActivityEvent(a) => ActivityEventKeeps(w, a);
    case CancelOne(token, size) => CancelNextKeeps(w, token, size);
    case CancelDone => CancelDoneKeeps(w);
    case TakeResult(failed) => TakeResultKeeps(w, failed);
    case CallFinalizer => FinalizeKeeps(w);
    case FreeSlot => FreeSlotKeeps(w);
    case RunTicket(s) => RunTicketKeeps(w, s);
    case _ =>
  }

  lemma ClosedKeeps(w: World)
    requires Linked(w) && Enabled(w, TakePollClosed)
    ensures Linked(Apply(w, TakePollClosed))
  {
    var v := Apply(w, TakePollClosed);
    forall a | 0 <= a < |w.activities| && !w.activities[a].terminal
      ensures v.loop.at.Cancelling? && w.activities[a].token in v.loop.at.left
    {
      assert ActivityAt(a, w.activities, w.running, w.loop);
    }
    MoveKeeps(w, v);
  }

  /** The step of the pipeline that a step of the whole contains. */
  function PlainStep(size: nat): Option<Pipeline.Step> {
    Some(Pipeline.EnqueueTicket(Pipeline.Request(true, size)))
  }

  function CompletionStep(w: World, a: nat, completion: Option<nat>): Option<Pipeline.Step>
    requires a < |w.activities|
  {
    if w.activities[a].terminal || completion == None then None else PlainStep(completion.value)
  }

  function TaskStep(w: World, task: Task, codecFailed: bool, size: nat): Option<Pipeline.Step> {
    if codecFailed || (task.Start? && w.loop.draining) then PlainStep(size)
    else if task.Cancel? && task.token in w.running && w.running[task.token] < |w.activities| then
      CompletionStep(w, w.running[task.token], Some(size))
    else None
  }

  function PipeStep(w: World, step: Step): Option<Pipeline.Step>
    requires Enabled(w, step)
  {
    match step
    case TakePollEvent(size) =>
      if w.poller.event.GotTask? then TaskStep(w, w.poller.event.task, w.poller.event.codecFailed, size) else None
    case TakeActivityEvent(a) =>
      if IsRunning(w, a) then CompletionStep(w, a, w.handlers[a].completion) else None
    case CancelOne(token, size) => CompletionStep(w, w.running[token], Some(size))
    case TakeResult(_) => Some(Pipeline.ReceiveResult)
    case CallFinalizer => Some(Pipeline.CallFinalizer(w.loop.at.ticket))
    case FreeSlot => Some(Pipeline.FreeSlot(w.loop.at.ticket))
    case RunTicket(s) => Some(s)
    case _ => None
  }

  ghost predicate Takes(w: World, v: World, s: Option<Pipeline.Step>) {
    match s
    case None => v.pipe == w.pipe
    case Some(s) => Pipeline.Enabled(w.pipe, s) && v.pipe == Pipeline.Apply(w.pipe, s)
  }

  lemma CompletionTakes(w: World, a: nat, completion: Option<nat>)
    requires a < |w.activities|
    ensures Takes(w, EnqueueCompletion(w, a, completion).0, CompletionStep(w, a, completion))
  {
  }

  lemma PollEventTakes(w: World, size: nat)
    requires Enabled(w, TakePollEvent(size))
    ensures Takes(w, Apply(w, TakePollEvent(size)), PipeStep(w, TakePollEvent(size)))
  {
    if w.poller.event.GotTask? {
      var task, w1 := w.poller.event.task, w.(poller := Polling);
      if task.Cancel? && task.token in w.running && w.running[task.token] < |w.activities| {
        CompletionTakes(w1, w.running[task.token], Some(size));
      }
    }
  }

  lemma PipePart(w: World, step: Step)
    requires Enabled(w, step)
    ensures Takes(w, Apply(w, step), PipeStep(w, step))
  {
    match step
    case TakePollEvent(size) => PollEventTakes(w, size);
    case TakeActivityEvent(a) =>
      CompletionTakes(SetHandler(w, a, Over), a, w.handlers[a].completion);
    case CancelOne(token, size) => CompletionTakes(w, w.running[token], Some(size));
    case _ =>
  }

  lemma StepKeeps(w: World, step: Step)
    requires Inv(w) && Enabled(w, step)
    ensures Inv(Apply(w, step))
  {
    LinksKeep(w, step);
    PipePart(w, step);
    if PipeStep(w, step).Some? {
      Pipeline.StepKeeps(w.pipe, PipeStep(w, step).value);
    }
  }

  lemma {:induction false} RunKeeps(w: World, steps: seq<Step>)
    requires Inv(w) && Run(w, steps).Some?
    ensures Inv(Run(w, steps).value)
    decreases |steps|
  {
    if steps != [] {
      StepKeeps(w, steps[0]);
      RunKeeps(Apply(w, steps[0]), steps[1..]);
    }
  }

  lemma BeginInv(configured: int)
    ensures Inv(Begin(configured))
  {
    Pipeline.NewInv(Limit(configured), []);
  }

  lemma ReachableInv(configured: int, steps: seq<Step>)
    requires Run(Begin(configured), steps).Some?
    ensures Inv(Run(Begin(configured), steps).value)
  {
    BeginInv(configured);
    RunKeeps(Begin(configured), steps);
  }

  // ---- The main results ----

  /** The entries of the map that have not ended. */
  ghost function Active(w: World): set<string> {
    set key | key in w.running && w.running[key] < |w.activities| && !w.activities[w.running[key]].terminal
  }

  /**
   `activeExecutions` is the number of entries in `running` that have not ended, and within the limit.
   Once the loop is done starting to drain it is zero.
   */
  lemma CounterIsExact(configured: int, steps: seq<Step>)
    requires Run(Begin(configured), steps).Some?
    ensures var w := Run(Begin(configured), steps).value;
            && w.loop.activeExecutions == |Active(w)| <= w.limit
            && (w.loop.draining && !w.loop.at.Cancelling? ==> w.loop.activeExecutions == 0)
  {
    ReachableInv(configured, steps);
    var w := Run(Begin(configured), steps).value;
    ActiveAreLive(w);
    if w.loop.draining && !w.loop.at.Cancelling? {
      forall a | 0 <= a < |w.activities|
        ensures w.activities[a].terminal
      {
        assert ActivityAt(a, w.activities, w.running, w.loop);
      }
      assert Live(w.activities) == {};
    }
  }

  /** Tokens of live entries and live activities correspond one to one. */
  lemma ActiveAreLive(w: World)
    requires Linked(w)
    ensures |Active(w)| == |Live(w.activities)|
  {
    forall a | a in Live(w.activities)
      ensures w.activities[a].token in Active(w) && w.running[w.activities[a].token] == a
    {
      assert ActivityAt(a, w.activities, w.running, w.loop);
    }
    forall key | key in Active(w)
      ensures w.running[key] in Live(w.activities) && w.activities[w.running[key]].token == key
    {
      assert EntryAt(key, w.running, w.activities, w.tickets, w.pipe.history.tickets);
    }
    SameSize(Active(w), Live(w.activities), w.running, w.activities);
  }

  lemma {:induction false} SameSize(keys: set<string>, ids: set<nat>, running: map<string, nat>, activities: seq<Activity>)
    requires forall key :: key in keys ==>
               key in running && running[key] in ids && running[key] < |activities| && activities[running[key]].token == key
    requires forall a :: a in ids ==> a < |activities| && activities[a].token in keys
    requires forall a :: a in ids ==> activities[a].token in running && running[activities[a].token] == a
    ensures |keys| == |ids|
    decreases |keys|
  {
    if keys == {} {
      assert ids == {};
    } else {
      var key :| key in keys;
      SameSize(keys - {key}, ids - {running[key]}, running, activities);
    }
  }

  /**
   Exactly one completion attempt per activity that has ended, none before, and nothing after it: no
   second attempt and no heartbeat.
   */
  lemma OneAttemptThenSilence(configured: int, steps: seq<Step>, a: nat)
    requires Run(Begin(configured), steps).Some? && a < |Run(Begin(configured), steps).value.activities|
    ensures var w := Run(Begin(configured), steps).value;
            if w.activities[a].terminal then
              exists i :: 0 <= i < |w.log| && w.log[i] == Attempt(a)
                          && forall j :: 0 <= j < |w.log| && j != i && w.log[j].activity == a ==> j < i && w.log[j] == Beat(a)
            else Attempt(a) !in w.log
  {
    ReachableInv(configured, steps);
    var w := Run(Begin(configured), steps).value;
    if w.activities[a].terminal {
      var i :| 0 <= i < |w.log| && w.log[i] == Attempt(a);
      forall j | 0 <= j < |w.log| && j != i && w.log[j].activity == a
        ensures j < i && w.log[j] == Beat(a)
      {
      }
    }
  }

  /**
   When the loop finishes: every started activity has ended, with its one attempt made; the map is
   empty; and every accepted ticket was submitted, received and finalized exactly once.
   */
  lemma DrainIsComplete(configured: int, steps: seq<Step>)
    requires Run(Begin(configured), steps).Some? && ShouldFinish(Run(Begin(configured), steps).value)
    ensures var w := Run(Begin(configured), steps).value;
            && w.running == map[] && w.loop.activeExecutions == 0
            && (forall a :: 0 <= a < |w.activities| ==> w.activities[a].terminal)
            && (forall i: nat :: i < |w.pipe.history.tickets| ==> SettledOnce(w.pipe.history, i))
  {
    ReachableInv(configured, steps);
    CounterIsExact(configured, steps);
    var w := Run(Begin(configured), steps).value;
    AllFreed(w.pipe);
    forall a | 0 <= a < |w.activities|
      ensures w.activities[a].terminal
    {
      assert ActivityAt(a, w.activities, w.running, w.loop);
    }
    assert w.running.Keys == {};
  }

  ghost predicate SettledOnce(h: Pipeline.History, i: nat) {
    h.submitted[i] == 1 && h.received[i] == 1 && h.finalized[i] == 1
  }

  lemma AllFreed(p: Pipeline.Pipe)
    requires Pipeline.Inv(p) && p.outstanding == 0
    ensures forall i :: 0 <= i < |p.history.tickets| ==> p.history.tickets[i].slot == Pipeline.Freed
    ensures forall i: nat :: i < |p.history.tickets| ==> SettledOnce(p.history, i)
  {
    var ts := p.history.tickets;
    Pipeline.SumPositive(ts, Pipeline.HeldOne);
    forall i | 0 <= i < |ts|
      ensures ts[i].slot == Pipeline.Freed && SettledOnce(p.history, i)
    {
      assert Pipeline.HeldOne(ts[i]) <= 0;
      assert (multiset(p.results) + p.history.received)[i] >= 1;
    }
  }
}
