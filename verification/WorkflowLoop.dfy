/**
 The workflow run loop together with everything it talks to: the poller, the processors that run
 activations, the lanes they wait on and the completion pipeline. All of them interleave freely.

 The loop is one goroutine; `at` is where it stands. Core may return any activation or error at any
 time, activations may take as long as they like, and submissions may fail.
 */
module WorkflowLoop {
  import opened Basics
  import Pipeline
  import Lanes

  // ---- State ----

  /** An activation that Core returned and the poller decoded. `Attempted`: its completion was enqueued or refused. */
  datatype Stage = AtPoller | InProcessor(turn: Option<nat>) | Attempted

  datatype Activation = Activation(run: string, stage: Stage)

  datatype PollEvent = GotActivation(id: nat, codecFailed: bool) | GotError(cancelled: bool)

  datatype Poller = Polling | Sending(event: PollEvent) | Stopped

  datatype LoopError = PollStopped | PollFailed | OverLimit | NotEnqueued | SubmitFailed

  /** Between two statements of a handler other goroutines may run. */
  datatype LoopAt =
    | AtSelect
    | Received(ticket: nat, failed: bool)    // before the finalizer of the result
    | Finalizing(ticket: nat, failed: bool)  // before the slot is given back
    | Closing(turn: nat)                     // giving up the turn of a refused completion
    | Dropping(turn: nat)

  /** `errors` is the first error followed by the later ones. */
  datatype Loop = Loop(
    draining: bool, pollOpen: bool, ctxArmed: bool, activeProcessors: int, errors: seq<LoopError>, at: LoopAt)

  /** Who is to release a turn. */
  datatype Place = WithProcessor(activation: nat) | InTicket(ticket: nat) | WithLoop | Gone

  /** `attempts` counts the enqueue attempts per activation; `ticketTurns` and `places` link the parts. */
  datatype World = World(
    limit: int, cancelled: bool, stopPolling: bool,
    poller: Poller, loop: Loop,
    activations: seq<Activation>, attempts: multiset<nat>,
    ticketTurns: seq<Option<nat>>, places: seq<Place>,
    pipe: Pipeline.Pipe, lanes: Lanes.RunTable)

  const DEFAULT_LIMIT := 1000

  /** `workflowCompletionLimit`. */
  function Limit(configured: int): int {
    if configured > 0 then configured else DEFAULT_LIMIT
  }

  function Start(configured: int): World {
    var limit := Limit(configured);
    World(limit, false, false, Polling, Loop(false, true, true, 0, [], AtSelect),
          [], multiset{}, [], [], Pipeline.New(limit, []), Lanes.EMPTY)
  }

  // ---- Handlers ----

  function StartDraining(w: World, errors: seq<LoopError>): World {
    w.(loop := w.loop.(draining := true, ctxArmed := w.loop.ctxArmed && w.loop.draining,
                       errors := w.loop.errors + errors),
       stopPolling := true)
  }

  /** Moves the turn on; nothing happens for a turn that cannot. */
  function LaneStep(w: World, step: Lanes.Step): World {
    if Lanes.Enabled(w.lanes, step) then w.(lanes := Lanes.Apply(w.lanes, step)) else w
  }

  function Refused(completion: Option<nat>): Lanes.Ending {
    if completion == None then Lanes.NoCompletion else Lanes.CompletionRejected
  }

  /**
   `enqueueWorkflowCompletion`: one attempt to hand a completion of this size to the pipeline. A turn
   goes with the ticket, or is given up by the loop when there is no ticket.
   */
  function EnqueueCompletion(w: World, completion: Option<nat>, turn: Option<nat>): World {
    var request := Pipeline.Request(true, if completion == None then 0 else completion.value);
    if completion.Some? && Pipeline.VerdictOn(w.pipe, request) == Pipeline.Accepted then
      var id := |w.pipe.history.tickets|;
      w.(pipe := Pipeline.Offer(w.pipe, request), ticketTurns := w.ticketTurns + [turn],
         places := if turn.Some? && turn.value < |w.places| then w.places[turn.value := InTicket(id)] else w.places)
    else if turn.Some? && turn.value < |w.places| then
      LaneStep(w, Lanes.Settle(turn.value, Refused(completion)))
        .(loop := w.loop.(at := Closing(turn.value)), places := w.places[turn.value := WithLoop])
    else StartDraining(w, [NotEnqueued])
  }

  function SetStage(w: World, a: nat, stage: Stage): World
    requires a < |w.activations|
  {
    w.(activations := w.activations[a := w.activations[a].(stage := stage)])
  }

  /** The attempt for activation `a`. */
  function Attempt(w: World, a: nat, completion: Option<nat>, turn: Option<nat>): World
    requires a < |w.activations|
  {
    EnqueueCompletion(SetStage(w, a, Attempted).(attempts := w.attempts + multiset{a}), completion, turn)
  }

  function Dispatch(w: World, a: nat, weight: nat): World
    requires a < |w.activations|
  {
    if w.loop.activeProcessors >= w.limit then Attempt(StartDraining(w, [OverLimit]), a, Some(weight), None)
    else
      var w1 := w.(loop := w.loop.(activeProcessors := w.loop.activeProcessors + 1));
      var run := w.activations[a].run;
      if run == "" then SetStage(w1, a, InProcessor(None))
      else
        LaneStep(SetStage(w1, a, InProcessor(Some(|w.lanes.turns|))), Lanes.ReserveTurn(run))
          .(places := w.places + [WithProcessor(a)])
  }

  /** `handlePollEvent`; the poller goes on polling, or stops after an error. */
  function HandlePollEvent(w: World, event: PollEvent, weight: nat): World
    requires event.GotActivation? ==> event.id < |w.activations|
  {
    match event
    case GotError(cancelled) =>
      StartDraining(w.(poller := Stopped), if w.cancelled && cancelled then [] else [PollFailed])
    case GotActivation(a, codecFailed) =>
      if codecFailed then Attempt(w.(poller := Polling), a, Some(weight), None)
      else Dispatch(w.(poller := Polling), a, weight)
  }

  function HandlePollClosed(w: World): World {
    var w1 := w.(loop := w.loop.(pollOpen := false));
    if w.loop.draining then w1 else StartDraining(w1, if w.cancelled then [] else [PollStopped])
  }

  function HandleProcessorResult(w: World, a: nat, completion: Option<nat>): World
    requires a < |w.activations| && w.activations[a].stage.InProcessor?
  {
    Attempt(w.(loop := w.loop.(activeProcessors := w.loop.activeProcessors - 1)), a, completion,
            w.activations[a].stage.turn)
  }

  predicate ShouldFinish(w: World) {
    && w.loop.at == AtSelect
    && w.loop.draining && !w.loop.pollOpen && w.loop.activeProcessors == 0 && w.pipe.outstanding == 0
  }

  // ---- Steps ----

  datatype Step =
    | CancelContext
    | CoreActivates(run: string, codecFailed: bool)
    | CoreFails(cancelled: bool)                       // also: the activation could not be decoded
    | PollerGivesUp                                    // an error event, not delivered after cancellation
    | SeeCancel
    | TakePollEvent(weight: nat)
    | TakePollClosed
    | TakeProcessorResult(activation: nat, completion: Option<nat>)
    | TakeResult(failed: bool)
    | CallFinalizer
    | FreeSlot
    | GiveUpTurn
    | DropTurn
    | Process(step: Lanes.Step)                        // a processor goroutine
    | SubmitTicket(ticket: nat)                        // the goroutine of a ticket
    | CloseTurn(ticket: nat)
    | AfterSubmit(ticket: nat)
    | PostResult(ticket: nat)
    | FinishTicket(ticket: nat)

  predicate Turning(w: World, i: nat) {
    i < |w.ticketTurns| && w.ticketTurns[i].Some?
  }

  predicate IsProcessing(step: Lanes.Step) {
    step.PassWait? || step.SetRun? || step.DeleteRun? || step.Complete?
  }

  /** The processor of activation `a` has its completion and waits for the loop to take it. */
  predicate HasResult(w: World, a: nat) {
    && a < |w.activations| && w.activations[a].stage.InProcessor?
    && match w.activations[a].stage.turn
       case None => true
       case Some(t) => Lanes.Exists(w.lanes, t) && w.lanes.phases[t] == Lanes.Processed
  }

  predicate Enabled(w: World, step: Step) {
    match step
    case CancelContext => true
    case CoreActivates(_, _) => w.poller == Polling
    case CoreFails(_) => w.poller == Polling
    case PollerGivesUp => w.poller.Sending? && w.poller.event.GotError? && (w.cancelled || w.stopPolling)
    case SeeCancel => w.loop.at == AtSelect && w.cancelled && w.loop.ctxArmed
    case TakePollEvent(_) =>
      && w.loop.at == AtSelect && w.loop.pollOpen && w.poller.Sending?
      && (w.poller.event.GotActivation? ==> w.poller.event.id < |w.activations|)
    case TakePollClosed => w.loop.at == AtSelect && w.loop.pollOpen && w.poller == Stopped
    case TakeProcessorResult(a, _) => w.loop.at == AtSelect && HasResult(w, a)
    case TakeResult(_) => w.loop.at == AtSelect && Pipeline.Enabled(w.pipe, Pipeline.ReceiveResult)
    case CallFinalizer =>
      w.loop.at.Received? && Pipeline.Enabled(w.pipe, Pipeline.CallFinalizer(w.loop.at.ticket))
    case FreeSlot => w.loop.at.Finalizing? && Pipeline.Enabled(w.pipe, Pipeline.FreeSlot(w.loop.at.ticket))
    case GiveUpTurn => w.loop.at.Closing? && Lanes.Enabled(w.lanes, Lanes.CloseDone(w.loop.at.turn))
    case DropTurn =>
      && w.loop.at.Dropping? && w.loop.at.turn < |w.places|
      && Lanes.Enabled(w.lanes, Lanes.ReleaseTurn(w.loop.at.turn))
    case Process(step) => IsProcessing(step) && Lanes.Enabled(w.lanes, step)
    case SubmitTicket(i) =>
      && Pipeline.Enabled(w.pipe, Pipeline.Submit(i))
      && (Turning(w, i) ==> Lanes.Enabled(w.lanes, Lanes.Settle(w.ticketTurns[i].value, Lanes.CompletionSubmitted)))
    case CloseTurn(i) =>
      && Pipeline.PhaseIs(w.pipe, i, Pipeline.Submitted)
      && Turning(w, i) && Lanes.Enabled(w.lanes, Lanes.CloseDone(w.ticketTurns[i].value))
    case AfterSubmit(i) =>
      && Pipeline.Enabled(w.pipe, Pipeline.AfterSubmit(i))
      && (Turning(w, i) ==> Lanes.Enabled(w.lanes, Lanes.ReleaseTurn(w.ticketTurns[i].value)))
    case PostResult(i) => Pipeline.Enabled(w.pipe, Pipeline.PostResult(i))
    case FinishTicket(i) => Pipeline.Enabled(w.pipe, Pipeline.Finish(i))
  }

  function Apply(w: World, step: Step): World
    requires Enabled(w, step)
  {
    match step
    case CancelContext => w.(cancelled := true)
    case CoreActivates(run, codecFailed) =>
      w.(activations := w.activations + [Activation(run, AtPoller)],
         poller := Sending(GotActivation(|w.activations|, codecFailed)))
    case CoreFails(cancelled) => w.(poller := Sending(GotError(cancelled)))
    case PollerGivesUp => w.(poller := Stopped)
    case SeeCancel => StartDraining(w, [])
    case TakePollEvent(weight) => HandlePollEvent(w, w.poller.event, weight)
    case TakePollClosed => HandlePollClosed(w)
    case TakeProcessorResult(a, completion) => HandleProcessorResult(w, a, completion)
    case TakeResult(failed) =>
      w.(loop := w.loop.(at := Received(w.pipe.results[0], failed)),
         pipe := Pipeline.Apply(w.pipe, Pipeline.ReceiveResult))
    case CallFinalizer =>
      w.(loop := w.loop.(at := Finalizing(w.loop.at.ticket, w.loop.at.failed)),
         pipe := Pipeline.Apply(w.pipe, Pipeline.CallFinalizer(w.loop.at.ticket)))
    case FreeSlot =>
      var w1 := w.(loop := w.loop.(at := AtSelect),
                   pipe := Pipeline.Apply(w.pipe, Pipeline.FreeSlot(w.loop.at.ticket)));
      if w.loop.at.failed then StartDraining(w1, [SubmitFailed]) else w1
    case GiveUpTurn => LaneStep(w, Lanes.CloseDone(w.loop.at.turn)).(loop := w.loop.(at := Dropping(w.loop.at.turn)))
    case DropTurn =>
      StartDraining(LaneStep(w, Lanes.ReleaseTurn(w.loop.at.turn))
                      .(loop := w.loop.(at := AtSelect), places := w.places[w.loop.at.turn := Gone]),
                    [NotEnqueued])
    case Process(step) => LaneStep(w, step)
    case SubmitTicket(i) =>
      var w1 := w.(pipe := Pipeline.Apply(w.pipe, Pipeline.Submit(i)));
      if Turning(w, i) then LaneStep(w1, Lanes.Settle(w.ticketTurns[i].value, Lanes.CompletionSubmitted)) else w1
    case CloseTurn(i) => LaneStep(w, Lanes.CloseDone(w.ticketTurns[i].value))
    case AfterSubmit(i) =>
      var w1 := w.(pipe := Pipeline.Apply(w.pipe, Pipeline.AfterSubmit(i)));
      if Turning(w, i) then LaneStep(w1, Lanes.ReleaseTurn(w.ticketTurns[i].value)) else w1
    case PostResult(i) => w.(pipe := Pipeline.Apply(w.pipe, Pipeline.PostResult(i)))
    case FinishTicket(i) => w.(pipe := Pipeline.Apply(w.pipe, Pipeline.Finish(i)))
  }

  function Run(w: World, steps: seq<Step>): Option<World>
    decreases |steps|
  {
    if steps == [] then Some(w)
    else if !Enabled(w, steps[0]) then None
    else Run(Apply(w, steps[0]), steps[1..])
  }

  // ---- The invariant ----

  /** An activation is where its stage says. */
  ghost predicate ActivationOk(a: nat, activation: Activation, poller: Poller, places: seq<Place>) {
    match activation.stage
    case AtPoller => poller.Sending? && poller.event.GotActivation? && poller.event.id == a
    case InProcessor(None) => activation.run == ""
    case InProcessor(Some(t)) => t < |places| && places[t] == WithProcessor(a)
    case Attempted => true
  }

  ghost predicate ActivationsOk(activations: seq<Activation>, poller: Poller, places: seq<Place>) {
    && (forall a :: 0 <= a < |activations| ==> ActivationOk(a, activations[a], poller, places))
    && (poller.Sending? && poller.event.GotActivation? ==>
          poller.event.id < |activations| && activations[poller.event.id].stage == AtPoller)
  }

  ghost function InProcessors(activations: seq<Activation>): set<nat> {
    set a: nat | a < |activations| && activations[a].stage.InProcessor?
  }

  ghost function AttemptedOnes(activations: seq<Activation>): set<nat> {
    set a: nat | a < |activations| && activations[a].stage == Attempted
  }

  ghost predicate CountsOk(limit: int, activations: seq<Activation>, attempts: multiset<nat>, active: int) {
    && active == |InProcessors(activations)| && active <= limit
    && AttemptsOk(activations, attempts)
  }

  /** How far the turn of a ticket is, given how far the ticket is. */
  predicate Matches(phase: Pipeline.Phase, turn: Lanes.TurnPhase) {
    match phase
    case Waiting => turn == Lanes.Processed
    case Running => turn == Lanes.Processed
    case Submitted => turn == Lanes.Settled(Lanes.CompletionSubmitted) || turn == Lanes.Closed(Lanes.CompletionSubmitted)
    case _ => turn == Lanes.Released(Lanes.CompletionSubmitted)
  }

  predicate IsRefusal(how: Lanes.Ending) {
    how == Lanes.CompletionRejected || how == Lanes.NoCompletion
  }

  /** Exactly one party is going to release the turn, or one has done so. */
  ghost predicate PlaceOk(
      t: nat, place: Place, phase: Lanes.TurnPhase, run: string, activations: seq<Activation>,
      ticketTurns: seq<Option<nat>>, tickets: seq<Pipeline.Ticket>, at: LoopAt) {
    match place
    case WithProcessor(a) =>
      && a < |activations| && activations[a] == Activation(run, InProcessor(Some(t)))
      && (phase == Lanes.Reserved || phase == Lanes.Processing || phase == Lanes.Processed)
    case InTicket(i) =>
      i < |ticketTurns| && ticketTurns[i] == Some(t) && i < |tickets| && Matches(tickets[i].phase, phase)
    case WithLoop =>
      || (at == Closing(t) && phase.Settled? && IsRefusal(phase.how))
      || (at == Dropping(t) && phase.Closed? && IsRefusal(phase.how))
    case Gone => phase.Released? && IsRefusal(phase.how)
  }

  ghost predicate PlaceAt(
      t: nat, places: seq<Place>, lanes: Lanes.RunTable, activations: seq<Activation>,
      ticketTurns: seq<Option<nat>>, tickets: seq<Pipeline.Ticket>, at: LoopAt)
    requires t < |places| == |lanes.turns| == |lanes.phases|
  {
    PlaceOk(t, places[t], lanes.phases[t], lanes.turns[t].run, activations, ticketTurns, tickets, at)
  }

  /** Every turn but `handed`, which the loop is about to hand on, is accounted for. */
  ghost predicate PlacesOk(
      handed: Option<nat>, places: seq<Place>, lanes: Lanes.RunTable, activations: seq<Activation>,
      ticketTurns: seq<Option<nat>>, tickets: seq<Pipeline.Ticket>, at: LoopAt) {
    && |places| == |lanes.turns| == |lanes.phases|
    && forall t :: 0 <= t < |places| && Some(t) != handed ==>
         PlaceAt(t, places, lanes, activations, ticketTurns, tickets, at)
  }

  /** A result that was received is being finalized by the loop, or has been. */
  ghost predicate TicketOk(
      i: nat, ticket: Pipeline.Ticket, received: nat, turn: Option<nat>, places: seq<Place>, at: LoopAt) {
    && (turn.Some? ==> turn.value < |places| && places[turn.value] == InTicket(i))
    && (received > 0 && ticket.slot != Pipeline.Freed ==>
          if ticket.slot == Pipeline.Held then at.Received? && at.ticket == i else at.Finalizing? && at.ticket == i)
  }

  ghost predicate TicketAt(
      i: nat, ticketTurns: seq<Option<nat>>, tickets: seq<Pipeline.Ticket>, received: multiset<nat>,
      places: seq<Place>, at: LoopAt)
    requires i < |tickets| == |ticketTurns|
  {
    TicketOk(i, tickets[i], received[i], ticketTurns[i], places, at)
  }

  ghost predicate TicketsOk(
      ticketTurns: seq<Option<nat>>, tickets: seq<Pipeline.Ticket>, received: multiset<nat>,
      places: seq<Place>, at: LoopAt) {
    && |ticketTurns| == |tickets|
    && forall i :: 0 <= i < |tickets| ==> TicketAt(i, ticketTurns, tickets, received, places, at)
  }

  ghost predicate LoopOk(loop: Loop, poller: Poller, places: seq<Place>, pipe: Pipeline.Pipe) {
    && (!loop.pollOpen ==> poller == Stopped && loop.draining)
    && (loop.draining ==> !loop.ctxArmed)
    && match loop.at
       case Received(i, _) =>
         i < |pipe.history.tickets| && pipe.history.tickets[i].slot == Pipeline.Held && pipe.history.received[i] == 1
       case Finalizing(i, _) => i < |pipe.history.tickets| && pipe.history.tickets[i].slot == Pipeline.Called
       case Closing(t) => t < |places| && places[t] == WithLoop
       case Dropping(t) => t < |places| && places[t] == WithLoop
       case AtSelect => true
  }

  /** The parts agree with each other, while the loop is about to hand on the turn `handed`. */
  ghost predicate Linked(w: World, handed: Option<nat>) {
    && w.limit == w.pipe.limit
    && ActivationsOk(w.activations, w.poller, w.places)
    && CountsOk(w.limit, w.activations, w.attempts, w.loop.activeProcessors)
    && PlacesOk(handed, w.places, w.lanes, w.activations, w.ticketTurns, w.pipe.history.tickets, w.loop.at)
    && TicketsOk(w.ticketTurns, w.pipe.history.tickets, w.pipe.history.received, w.places, w.loop.at)
    && LoopOk(w.loop, w.poller, w.places, w.pipe)
  }

  ghost predicate Inv(w: World) {
    Pipeline.Inv(w.pipe) && Lanes.Inv(w.lanes) && Linked(w, None)
  }

  // ---- Activations change their stage ----

  lemma StageSets(activations: seq<Activation>, a: nat, stage: Stage)
    requires a < |activations| && activations[a].stage != Attempted && stage != AtPoller
    ensures var acts := activations[a := activations[a].(stage := stage)];
            && InProcessors(acts) == (if stage.InProcessor? then InProcessors(activations) + {a}
                                      else InProcessors(activations) - {a})
            && AttemptedOnes(acts) == AttemptedOnes(activations) + (if stage == Attempted then {a} else {})
            && a !in AttemptedOnes(activations)
            && (a in InProcessors(activations) <==> activations[a].stage.InProcessor?)
  {
  }

  lemma StageCounts(w: World, a: nat, stage: Stage, active: int, attempts: multiset<nat>)
    requires CountsOk(w.limit, w.activations, w.attempts, w.loop.activeProcessors)
    requires a < |w.activations| && w.activations[a].stage != Attempted && stage != AtPoller
    requires active == w.loop.activeProcessors
                       - (if w.activations[a].stage.InProcessor? then 1 else 0) + (if stage.InProcessor? then 1 else 0)
    requires active <= w.limit
    requires attempts == (if stage == Attempted then w.attempts + multiset{a} else w.attempts)
    ensures CountsOk(w.limit, SetStage(w, a, stage).activations, attempts, active)
  {
    StageSets(w.activations, a, stage);
    Sizes(InProcessors(w.activations), a);
    StageAttempts(w.activations, w.attempts, a, stage);
  }

  lemma Sizes(s: set<nat>, a: nat)
    ensures |s + {a}| == (if a in s then |s| else |s| + 1)
    ensures |s - {a}| == (if a in s then |s| - 1 else |s|)
  {
    if a in s {
      assert s + {a} == s;
    } else {
      assert s - {a} == s;
    }
  }

  /** Every activation has been attempted once when it is `Attempted`, and not at all before. */
  ghost predicate AttemptsOk(activations: seq<Activation>, attempts: multiset<nat>) {
    && |attempts| == |AttemptedOnes(activations)|
    && forall a: nat :: attempts[a] == (if a < |activations| && activations[a].stage == Attempted then 1 else 0)
  }

  lemma StageAttempts(activations: seq<Activation>, attempts: multiset<nat>, a: nat, stage: Stage)
    requires AttemptsOk(activations, attempts)
    requires a < |activations| && activations[a].stage != Attempted && stage != AtPoller
    ensures AttemptsOk(activations[a := activations[a].(stage := stage)],
                       if stage == Attempted then attempts + multiset{a} else attempts)
  {
    StageSets(activations, a, stage);
  }

  lemma ArrivalCounts(limit: int, activations: seq<Activation>, attempts: multiset<nat>, active: int, run: string)
    requires CountsOk(limit, activations, attempts, active)
    ensures CountsOk(limit, activations + [Activation(run, AtPoller)], attempts, active)
  {
    var acts := activations + [Activation(run, AtPoller)];
    assert InProcessors(acts) == InProcessors(activations);
    assert AttemptedOnes(acts) == AttemptedOnes(activations);
  }

  /** The places do not mention an activation that is not in a processor. */
  lemma PlacesWithout(w: World, handed: Option<nat>, a: nat, stage: Stage)
    requires PlacesOk(handed, w.places, w.lanes, w.activations, w.ticketTurns, w.pipe.history.tickets, w.loop.at)
    requires a < |w.activations|
    requires w.activations[a].stage.InProcessor? ==> handed == None && ActivationOk(a, w.activations[a], w.poller, w.places)
    ensures PlacesOk(if w.activations[a].stage.InProcessor? then w.activations[a].stage.turn else handed,
                     w.places, w.lanes, SetStage(w, a, stage).activations,
                     w.ticketTurns, w.pipe.history.tickets, w.loop.at)
  {
    var skip := if w.activations[a].stage.InProcessor? then w.activations[a].stage.turn else handed;
    var acts := SetStage(w, a, stage).activations;
    forall t | 0 <= t < |w.places| && Some(t) != skip
      ensures PlaceAt(t, w.places, w.lanes, acts, w.ticketTurns, w.pipe.history.tickets, w.loop.at)
    {
      assert PlaceAt(t, w.places, w.lanes, w.activations, w.ticketTurns, w.pipe.history.tickets, w.loop.at);
    }
  }

  // ---- The poller ----

  lemma PollerKeeps(w: World, step: Step)
    requires Linked(w, None) && Enabled(w, step)
    requires step.CancelContext? || step.CoreActivates? || step.CoreFails? || step.PollerGivesUp? || step.SeeCancel?
    ensures Linked(Apply(w, step), None)
  {
    if step.CoreActivates? {
      ArrivalCounts(w.limit, w.activations, w.attempts, w.loop.activeProcessors, step.run);
      var acts := Apply(w, step).activations;
      forall t | 0 <= t < |w.places|
        ensures PlaceAt(t, w.places, w.lanes, acts, w.ticketTurns, w.pipe.history.tickets, w.loop.at)
      {
        assert PlaceAt(t, w.places, w.lanes, w.activations, w.ticketTurns, w.pipe.history.tickets, w.loop.at);
      }
    }
  }

  lemma DrainingKeeps(w: World, handed: Option<nat>, errors: seq<LoopError>)
    requires Linked(w, handed)
    ensures Linked(StartDraining(w, errors), handed)
  {
  }

  // ---- One enqueue attempt ----

  /** The loop has taken activation `a`; its turn, if it has one, is still to be handed on. */
  lemma AttemptBegins(w: World, a: nat, w1: World)
    requires Linked(w, None) && a < |w.activations|
    requires if w.activations[a].stage == AtPoller then
               w1 == w.(poller := Polling)
             else
               && HasResult(w, a)
               && w1 == w.(loop := w.loop.(activeProcessors := w.loop.activeProcessors - 1))
    ensures var turn := if w.activations[a].stage.InProcessor? then w.activations[a].stage.turn else None;
            var w2 := SetStage(w1, a, Attempted).(attempts := w1.attempts + multiset{a});
            && Linked(w2, turn)
            && (turn.Some? ==> turn.value < |w.places| && w.places[turn.value] == WithProcessor(a)
                               && w.lanes.phases[turn.value] == Lanes.Processed)
  {
    StageCounts(w, a, Attempted, w1.loop.activeProcessors, w.attempts + multiset{a});
    PlacesWithout(w, None, a, Attempted);
    var acts := SetStage(w1, a, Attempted).activations;
    forall b | 0 <= b < |acts|
      ensures ActivationOk(b, acts[b], w1.poller, w.places)
    {
      assert ActivationOk(b, w.activations[b], w.poller, w.places);
    }
    assert ActivationOk(a, w.activations[a], w.poller, w.places);
  }

  lemma AcceptedKeeps(w: World, turn: Option<nat>, a: nat, weight: nat)
    requires Linked(w, turn) && w.loop.at == AtSelect
    requires turn.Some? ==> && turn.value < |w.places| && w.places[turn.value] == WithProcessor(a)
                            && w.lanes.phases[turn.value] == Lanes.Processed
    requires a < |w.activations| && w.activations[a].stage == Attempted
    requires Pipeline.VerdictOn(w.pipe, Pipeline.Request(true, weight)) == Pipeline.Accepted
    requires w.pipe.history.received[|w.pipe.history.tickets|] == 0
    ensures Linked(EnqueueCompletion(w, Some(weight), turn), None)
  {
    var request := Pipeline.Request(true, weight);
    var v := EnqueueCompletion(w, Some(weight), turn);
    var tickets, n := v.pipe.history.tickets, |w.pipe.history.tickets|;
    assert tickets[..n] == w.pipe.history.tickets && |tickets| == n + 1;
    assert tickets[n].slot == Pipeline.Held && (tickets[n].phase == Pipeline.Running || tickets[n].phase == Pipeline.Waiting);
    AcceptedPlaces(w, turn, a, v, tickets);
    forall i | 0 <= i < |tickets|
      ensures TicketAt(i, v.ticketTurns, tickets, v.pipe.history.received, v.places, v.loop.at)
    {
      if i < n {
        assert TicketAt(i, w.ticketTurns, w.pipe.history.tickets, w.pipe.history.received, w.places, w.loop.at);
      }
    }
    forall b | 0 <= b < |w.activations|
      ensures ActivationOk(b, v.activations[b], v.poller, v.places)
    {
      assert ActivationOk(b, w.activations[b], w.poller, w.places);
    }
  }

  lemma AcceptedPlaces(w: World, turn: Option<nat>, a: nat, v: World, tickets: seq<Pipeline.Ticket>)
    requires PlacesOk(turn, w.places, w.lanes, w.activations, w.ticketTurns, w.pipe.history.tickets, w.loop.at)
    requires |w.ticketTurns| == |w.pipe.history.tickets|
    requires turn.Some? ==> turn.value < |w.places| && w.lanes.phases[turn.value] == Lanes.Processed
    requires |tickets| == |w.ticketTurns| + 1 && tickets[..|w.ticketTurns|] == w.pipe.history.tickets
    requires var phase := tickets[|w.ticketTurns|].phase; phase == Pipeline.Running || phase == Pipeline.Waiting
    requires v.ticketTurns == w.ticketTurns + [turn] && v.lanes == w.lanes && v.activations == w.activations
    requires v.loop.at == w.loop.at
    requires v.places == if turn.Some? then w.places[turn.value := InTicket(|w.ticketTurns|)] else w.places
    ensures PlacesOk(None, v.places, v.lanes, v.activations, v.ticketTurns, tickets, v.loop.at)
  {
    forall t | 0 <= t < |v.places|
      ensures PlaceAt(t, v.places, v.lanes, v.activations, v.ticketTurns, tickets, v.loop.at)
    {
      if Some(t) != turn {
        assert PlaceAt(t, w.places, w.lanes, w.activations, w.ticketTurns, w.pipe.history.tickets, w.loop.at);
        assert forall i :: 0 <= i < |w.ticketTurns| ==> tickets[i] == tickets[..|w.ticketTurns|][i];
      }
    }
  }

  lemma RefusedKeeps(w: World, turn: nat, a: nat, completion: Option<nat>)
    requires Linked(w, Some(turn)) && w.loop.at == AtSelect
    requires turn < |w.places| && w.places[turn] == WithProcessor(a) && w.lanes.phases[turn] == Lanes.Processed
    requires a < |w.activations| && w.activations[a].stage == Attempted
    requires Lanes.Enabled(w.lanes, Lanes.Settle(turn, Refused(completion)))
    ensures Linked(LaneStep(w, Lanes.Settle(turn, Refused(completion)))
                  .(loop := w.loop.(at := Closing(turn)), places := w.places[turn := WithLoop]), None)
  {
    var step := Lanes.Settle(turn, Refused(completion));
    var v := LaneStep(w, step).(loop := w.loop.(at := Closing(turn)), places := w.places[turn := WithLoop]);
    var tickets := w.pipe.history.tickets;
    forall t | 0 <= t < |v.places|
      ensures PlaceAt(t, v.places, v.lanes, v.activations, v.ticketTurns, tickets, v.loop.at)
    {
      if t != turn {
        assert PlaceAt(t, w.places, w.lanes, w.activations, w.ticketTurns, tickets, w.loop.at);
      }
    }
    forall i | 0 <= i < |tickets|
      ensures TicketAt(i, v.ticketTurns, tickets, v.pipe.history.received, v.places, v.loop.at)
    {
      assert TicketAt(i, w.ticketTurns, tickets, w.pipe.history.received, w.places, w.loop.at);
    }
    forall b | 0 <= b < |w.activations|
      ensures ActivationOk(b, v.activations[b], v.poller, v.places)
    {
      assert ActivationOk(b, w.activations[b], w.poller, w.places);
    }
  }

  lemma EnqueueKeeps(w: World, turn: Option<nat>, a: nat, completion: Option<nat>)
    requires Linked(w, turn) && w.loop.at == AtSelect
    requires turn.Some? ==> && turn.value < |w.places| && w.places[turn.value] == WithProcessor(a)
                            && w.lanes.phases[turn.value] == Lanes.Processed
    requires a < |w.activations| && w.activations[a].stage == Attempted
    requires w.pipe.history.received[|w.pipe.history.tickets|] == 0
    requires turn.Some? ==> Lanes.Exists(w.lanes, turn.value)
    ensures Linked(EnqueueCompletion(w, completion, turn), None)
  {
    if completion.Some?
       && Pipeline.VerdictOn(w.pipe, Pipeline.Request(true, completion.value)) == Pipeline.Accepted {
      AcceptedKeeps(w, turn, a, completion.value);
    } else if turn.Some? {
      RefusedKeeps(w, turn.value, a, completion);
    } else {
      DrainingKeeps(w, None, [NotEnqueued]);
    }
  }

  // ---- Poll events ----

  lemma DispatchKeeps(w: World, a: nat, weight: nat)
    requires Linked(w, None) && a < |w.activations| && w.activations[a].stage == AtPoller
    requires w.loop.activeProcessors < w.limit && w.loop.at == AtSelect
    requires Lanes.Enabled(w.lanes, Lanes.ReserveTurn(w.activations[a].run))
    ensures Linked(Dispatch(w.(poller := Polling), a, weight), None)
  {
    var v := Dispatch(w.(poller := Polling), a, weight);
    var stage := v.activations[a].stage;
    StageCounts(w, a, stage, w.loop.activeProcessors + 1, w.attempts);
    PlacesWithout(w, None, a, stage);
    DispatchPlaces(w, v, a);
    var tickets := w.pipe.history.tickets;
    forall i | 0 <= i < |tickets|
      ensures TicketAt(i, v.ticketTurns, tickets, v.pipe.history.received, v.places, v.loop.at)
    {
      assert TicketAt(i, w.ticketTurns, tickets, w.pipe.history.received, w.places, w.loop.at);
    }
    forall b | 0 <= b < |v.activations|
      ensures ActivationOk(b, v.activations[b], v.poller, v.places)
    {
      assert ActivationOk(b, w.activations[b], w.poller, w.places);
    }
  }

  lemma DispatchPlaces(w: World, v: World, a: nat)
    requires a < |w.activations| && w.activations[a].stage == AtPoller
    requires w.loop.activeProcessors < w.limit
    requires Lanes.Enabled(w.lanes, Lanes.ReserveTurn(w.activations[a].run))
    requires v == Dispatch(w.(poller := Polling), a, 0)
    requires PlacesOk(None, w.places, w.lanes, v.activations, w.ticketTurns, w.pipe.history.tickets, w.loop.at)
    ensures PlacesOk(None, v.places, v.lanes, v.activations, v.ticketTurns, v.pipe.history.tickets, v.loop.at)
  {
    var tickets := w.pipe.history.tickets;
    forall t | 0 <= t < |v.places|
      ensures PlaceAt(t, v.places, v.lanes, v.activations, v.ticketTurns, tickets, v.loop.at)
    {
      if t < |w.places| {
        assert PlaceAt(t, w.places, w.lanes, v.activations, w.ticketTurns, tickets, w.loop.at);
      }
    }
  }

  lemma PollEventKeeps(w: World, weight: nat)
    requires Linked(w, None) && Enabled(w, TakePollEvent(weight))
    requires w.pipe.history.received[|w.pipe.history.tickets|] == 0
    requires forall run :: Lanes.Enabled(w.lanes, Lanes.ReserveTurn(run))
    ensures Linked(Apply(w, TakePollEvent(weight)), None)
  {
    match w.poller.event
    case GotError(_) => DrainingKeeps(w.(poller := Stopped), None, []);
    case GotActivation(a, codecFailed) =>
      if codecFailed {
        RefuseActivation(w, a, weight);
      } else if w.loop.activeProcessors >= w.limit {
        DrainingKeeps(w, None, [OverLimit]);
        RefuseActivation(StartDraining(w, [OverLimit]), a, weight);
        assert StartDraining(w, [OverLimit]).(poller := Polling) == StartDraining(w.(poller := Polling), [OverLimit]);
      } else {
        DispatchKeeps(w, a, weight);
      }
  }

  /** A failed completion for an activation that is not run. */
  lemma RefuseActivation(w: World, a: nat, weight: nat)
    requires Linked(w, None) && w.loop.at == AtSelect && w.pipe.history.received[|w.pipe.history.tickets|] == 0
    requires a < |w.activations| && w.activations[a].stage == AtPoller
    ensures Linked(Attempt(w.(poller := Polling), a, Some(weight), None), None)
  {
    var w1 := w.(poller := Polling);
    AttemptBegins(w, a, w1);
    EnqueueKeeps(SetStage(w1, a, Attempted).(attempts := w.attempts + multiset{a}), None, a, Some(weight));
  }

  lemma ProcessorResultKeeps(w: World, a: nat, completion: Option<nat>)
    requires Linked(w, None) && Enabled(w, TakeProcessorResult(a, completion))
    requires w.pipe.history.received[|w.pipe.history.tickets|] == 0
    ensures Linked(Apply(w, TakeProcessorResult(a, completion)), None)
  {
    var w1 := w.(loop := w.loop.(activeProcessors := w.loop.activeProcessors - 1));
    AttemptBegins(w, a, w1);
    EnqueueKeeps(SetStage(w1, a, Attempted).(attempts := w.attempts + multiset{a}), w.activations[a].stage.turn, a, completion);
  }

  // ---- Processors ----

  lemma ProcessKeeps(w: World, step: Lanes.Step)
    requires Linked(w, None) && Enabled(w, Process(step))
    ensures Linked(Apply(w, Process(step)), None)
  {
    var v := Apply(w, Process(step));
    var tickets := w.pipe.history.tickets;
    forall t | 0 <= t < |v.places|
      ensures PlaceAt(t, v.places, v.lanes, v.activations, v.ticketTurns, tickets, v.loop.at)
    {
      assert PlaceAt(t, w.places, w.lanes, w.activations, w.ticketTurns, tickets, w.loop.at);
    }
  }

  // ---- Tickets ----

  /** One ticket moved on, and its turn with it. */
  ghost predicate MovedOn(w: World, v: World, i: nat) {
    var was, now := w.pipe.history.tickets, v.pipe.history.tickets;
    && v == w.(pipe := v.pipe, lanes := v.lanes) && v.pipe.limit == w.pipe.limit
    && v.pipe.history.received == w.pipe.history.received
    && i < |was| == |now| == |w.ticketTurns| && now == was[i := now[i]] && now[i].slot == was[i].slot
    && v.lanes.turns == w.lanes.turns && |v.lanes.phases| == |w.lanes.phases|
    && (forall t :: 0 <= t < |w.lanes.phases| && Some(t) != w.ticketTurns[i] ==> v.lanes.phases[t] == w.lanes.phases[t])
    && (w.ticketTurns[i].Some? && w.ticketTurns[i].value < |v.lanes.phases| ==>
          Matches(now[i].phase, v.lanes.phases[w.ticketTurns[i].value]))
  }

  lemma TicketMoves(w: World, v: World, i: nat)
    requires Linked(w, None) && MovedOn(w, v, i)
    ensures Linked(v, None)
  {
    var was, tickets := w.pipe.history.tickets, v.pipe.history.tickets;
    MovedPlaces(w, v, i);
    forall k | 0 <= k < |tickets|
      ensures TicketAt(k, v.ticketTurns, tickets, v.pipe.history.received, v.places, v.loop.at)
    {
      assert TicketAt(k, w.ticketTurns, was, w.pipe.history.received, w.places, w.loop.at);
    }
  }

  lemma MovedPlaces(w: World, v: World, i: nat)
    requires MovedOn(w, v, i)
    requires PlacesOk(None, w.places, w.lanes, w.activations, w.ticketTurns, w.pipe.history.tickets, w.loop.at)
    requires TicketsOk(w.ticketTurns, w.pipe.history.tickets, w.pipe.history.received, w.places, w.loop.at)
    ensures PlacesOk(None, v.places, v.lanes, v.activations, v.ticketTurns, v.pipe.history.tickets, v.loop.at)
  {
    var was, tickets := w.pipe.history.tickets, v.pipe.history.tickets;
    assert TicketAt(i, w.ticketTurns, was, w.pipe.history.received, w.places, w.loop.at);
    forall t | 0 <= t < |v.places|
      ensures PlaceAt(t, v.places, v.lanes, v.activations, v.ticketTurns, tickets, v.loop.at)
    {
      assert PlaceAt(t, w.places, w.lanes, w.activations, w.ticketTurns, was, w.loop.at);
    }
  }

  /** The turn of a ticket matches the ticket. */
  lemma TurnOfTicket(w: World, i: nat)
    requires Linked(w, None) && i < |w.pipe.history.tickets|
    ensures |w.ticketTurns| == |w.pipe.history.tickets|
    ensures w.ticketTurns[i].Some? ==>
              && w.ticketTurns[i].value < |w.lanes.turns| == |w.lanes.phases|
              && Matches(w.pipe.history.tickets[i].phase, w.lanes.phases[w.ticketTurns[i].value])
  {
    assert TicketAt(i, w.ticketTurns, w.pipe.history.tickets, w.pipe.history.received, w.places, w.loop.at);
    if w.ticketTurns[i].Some? {
      assert PlaceAt(w.ticketTurns[i].value, w.places, w.lanes, w.activations, w.ticketTurns, w.pipe.history.tickets, w.loop.at);
    }
  }

  lemma TurnStepMoves(w: World, step: Step)
    requires Linked(w, None) && Enabled(w, step) && (step.SubmitTicket? || step.AfterSubmit?)
    ensures MovedOn(w, Apply(w, step), step.ticket)
  {
    TurnOfTicket(w, step.ticket);
  }

  lemma OtherStepMoves(w: World, step: Step)
    requires Linked(w, None) && Enabled(w, step) && (step.CloseTurn? || step.PostResult?)
    ensures MovedOn(w, Apply(w, step), step.ticket)
  {
    TurnOfTicket(w, step.ticket);
    assert w.pipe.history.tickets == w.pipe.history.tickets[step.ticket := w.pipe.history.tickets[step.ticket]];
  }

  lemma TicketStepKeeps(w: World, step: Step)
    requires Linked(w, None) && Enabled(w, step)
    requires step.SubmitTicket? || step.CloseTurn? || step.AfterSubmit? || step.PostResult?
    ensures Linked(Apply(w, step), None)
  {
    if step.SubmitTicket? || step.AfterSubmit? {
      TurnStepMoves(w, step);
    } else {
      OtherStepMoves(w, step);
    }
    TicketMoves(w, Apply(w, step), step.ticket);
  }

  lemma FinishTicketKeeps(w: World, i: nat)
    requires Linked(w, None) && Enabled(w, FinishTicket(i))
    requires w.pipe.queue != [] ==> Pipeline.PhaseIs(w.pipe, w.pipe.queue[0], Pipeline.Waiting)
    ensures Linked(Apply(w, FinishTicket(i)), None)
  {
    var v := Apply(w, FinishTicket(i));
    var was, tickets := w.pipe.history.tickets, v.pipe.history.tickets;
    assert |tickets| == |was| && forall k :: 0 <= k < |was| ==> SameMatch(was[k], tickets[k]);
    forall t | 0 <= t < |v.places|
      ensures PlaceAt(t, v.places, v.lanes, v.activations, v.ticketTurns, tickets, v.loop.at)
    {
      assert PlaceAt(t, w.places, w.lanes, w.activations, w.ticketTurns, was, w.loop.at);
    }
    forall k | 0 <= k < |tickets|
      ensures TicketAt(k, v.ticketTurns, tickets, v.pipe.history.received, v.places, v.loop.at)
    {
      assert TicketAt(k, w.ticketTurns, was, w.pipe.history.received, w.places, w.loop.at);
    }
  }

  /** Starting or ending a ticket does not concern its turn. */
  ghost predicate SameMatch(was: Pipeline.Ticket, now: Pipeline.Ticket) {
    now.slot == was.slot && forall phase :: Matches(was.phase, phase) ==> Matches(now.phase, phase)
  }

  // ---- The loop ----

  lemma ResultPlaces(w: World, v: World)
    requires PlacesOk(None, w.places, w.lanes, w.activations, w.ticketTurns, w.pipe.history.tickets, w.loop.at)
    requires v == w.(loop := v.loop, pipe := v.pipe, stopPolling := v.stopPolling)
    requires !w.loop.at.Closing? && !w.loop.at.Dropping?
    requires var was, now := w.pipe.history.tickets, v.pipe.history.tickets;
             |was| == |now| && forall k :: 0 <= k < |was| ==> now[k].phase == was[k].phase
    ensures PlacesOk(None, v.places, v.lanes, v.activations, v.ticketTurns, v.pipe.history.tickets, v.loop.at)
  {
    forall t | 0 <= t < |v.places|
      ensures PlaceAt(t, v.places, v.lanes, v.activations, v.ticketTurns, v.pipe.history.tickets, v.loop.at)
    {
      assert PlaceAt(t, w.places, w.lanes, w.activations, w.ticketTurns, w.pipe.history.tickets, w.loop.at);
    }
  }

  lemma TakeResultKeeps(w: World, failed: bool)
    requires Linked(w, None) && Enabled(w, TakeResult(failed))
    requires Pipeline.SlotIs(w.pipe, w.pipe.results[0], Pipeline.Held)
    requires w.pipe.history.received[w.pipe.results[0]] == 0
    ensures Linked(Apply(w, TakeResult(failed)), None)
  {
    var v := Apply(w, TakeResult(failed));
    ResultPlaces(w, v);
    ResultTickets(w, v, TakeResult(failed));
  }

  lemma FinalizeKeeps(w: World)
    requires Linked(w, None) && Enabled(w, CallFinalizer)
    ensures Linked(Apply(w, CallFinalizer), None)
  {
    var v := Apply(w, CallFinalizer);
    ResultPlaces(w, v);
    ResultTickets(w, v, CallFinalizer);
  }

  lemma FreeSlotKeeps(w: World)
    requires Linked(w, None) && Enabled(w, FreeSlot)
    ensures Linked(Apply(w, FreeSlot), None)
  {
    var v := Apply(w, FreeSlot);
    ResultPlaces(w, v);
    ResultTickets(w, v, FreeSlot);
  }

  lemma ResultTickets(w: World, v: World, step: Step)
    requires TicketsOk(w.ticketTurns, w.pipe.history.tickets, w.pipe.history.received, w.places, w.loop.at)
    requires LoopOk(w.loop, w.poller, w.places, w.pipe)
    requires Enabled(w, step) && (step.TakeResult? || step.CallFinalizer? || step.FreeSlot?) && v == Apply(w, step)
    requires step.TakeResult? ==>
               && Pipeline.SlotIs(w.pipe, w.pipe.results[0], Pipeline.Held)
               && w.pipe.history.received[w.pipe.results[0]] == 0
    ensures TicketsOk(v.ticketTurns, v.pipe.history.tickets, v.pipe.history.received, v.places, v.loop.at)
  {
    var was, tickets := w.pipe.history.tickets, v.pipe.history.tickets;
    forall k | 0 <= k < |tickets|
      ensures TicketAt(k, v.ticketTurns, tickets, v.pipe.history.received, v.places, v.loop.at)
    {
      assert TicketAt(k, w.ticketTurns, was, w.pipe.history.received, w.places, w.loop.at);
    }
  }

  lemma RefusalKeeps(w: World, step: Step)
    requires Linked(w, None) && Enabled(w, step) && (step.GiveUpTurn? || step.DropTurn?)
    ensures Linked(Apply(w, step), None)
  {
    var v := Apply(w, step);
    var tickets := w.pipe.history.tickets;
    RefusalPlaces(w, step);
    assert PlaceAt(w.loop.at.turn, w.places, w.lanes, w.activations, w.ticketTurns, tickets, w.loop.at);
    forall k | 0 <= k < |tickets|
      ensures TicketAt(k, v.ticketTurns, tickets, v.pipe.history.received, v.places, v.loop.at)
    {
      assert TicketAt(k, w.ticketTurns, tickets, w.pipe.history.received, w.places, w.loop.at);
    }
    forall b | 0 <= b < |v.activations|
      ensures ActivationOk(b, v.activations[b], v.poller, v.places)
    {
      assert ActivationOk(b, w.activations[b], w.poller, w.places);
    }
  }

  lemma RefusalPlaces(w: World, step: Step)
    requires PlacesOk(None, w.places, w.lanes, w.activations, w.ticketTurns, w.pipe.history.tickets, w.loop.at)
    requires LoopOk(w.loop, w.poller, w.places, w.pipe) && Enabled(w, step) && (step.GiveUpTurn? || step.DropTurn?)
    ensures var v := Apply(w, step);
            PlacesOk(None, v.places, v.lanes, v.activations, v.ticketTurns, v.pipe.history.tickets, v.loop.at)
  {
    var v := Apply(w, step);
    var tickets := w.pipe.history.tickets;
    assert PlaceAt(w.loop.at.turn, w.places, w.lanes, w.activations, w.ticketTurns, tickets, w.loop.at);
    forall t | 0 <= t < |v.places|
      ensures PlaceAt(t, v.places, v.lanes, v.activations, v.ticketTurns, tickets, v.loop.at)
    {
      assert PlaceAt(t, w.places, w.lanes, w.activations, w.ticketTurns, tickets, w.loop.at);
    }
  }

  // ---- Putting the parts together ----

  /** What the links need to know about the parts. */
  lemma PartsFacts(w: World)
    requires Pipeline.Inv(w.pipe) && Lanes.Inv(w.lanes)
    ensures w.pipe.history.received[|w.pipe.history.tickets|] == 0
    ensures forall run :: Lanes.Enabled(w.lanes, Lanes.ReserveTurn(run))
    ensures w.pipe.queue != [] ==> Pipeline.PhaseIs(w.pipe, w.pipe.queue[0], Pipeline.Waiting)
    ensures w.pipe.results != [] ==>
              && Pipeline.SlotIs(w.pipe, w.pipe.results[0], Pipeline.Held)
              && w.pipe.history.received[w.pipe.results[0]] == 0
    ensures forall i: nat :: w.pipe.history.received[i] <= 1
  {
    var h := w.pipe.history;
    assert (multiset(w.pipe.results) + h.received)[|h.tickets|] == 0;
    if w.pipe.queue != [] {
      assert (h.started + w.pipe.queue)[|h.started|] == w.pipe.queue[0];
    }
    if w.pipe.results != [] {
      Pipeline.ReceivedAreNew(w.pipe, w.pipe.results[0]);
      assert (multiset(w.pipe.results) + h.received)[w.pipe.results[0]] >= 1;
    }
    forall i: nat
      ensures h.received[i] <= 1
    {
      assert (multiset(w.pipe.results) + h.received)[i] <= 1;
    }
  }

  lemma LinksKeep(w: World, step: Step)
    requires Inv(w) && Enabled(w, step)
    ensures Linked(Apply(w, step), None)
  {
    PartsFacts(w);
    match step
    case TakePollEvent(weight) => PollEventKeeps(w, weight);
    case TakePollClosed =>
    case TakeProcessorResult(a, completion) => ProcessorResultKeeps(w, a, completion);
    case TakeResult(failed) => TakeResultKeeps(w, failed);
    case CallFinalizer => FinalizeKeeps(w);
    case FreeSlot => FreeSlotKeeps(w);
    case GiveUpTurn => RefusalKeeps(w, step);
    case DropTurn => RefusalKeeps(w, step);
    case Process(s) => ProcessKeeps(w, s);
    case SubmitTicket(_) => TicketStepKeeps(w, step);
    case CloseTurn(_) => TicketStepKeeps(w, step);
    case AfterSubmit(_) => TicketStepKeeps(w, step);
    case PostResult(_) => TicketStepKeeps(w, step);
    case FinishTicket(i) => FinishTicketKeeps(w, i);
    case _ => PollerKeeps(w, step);
  }

  /** The step of the pipeline that a step of the whole contains. */
  function PipeStep(w: World, step: Step): Option<Pipeline.Step>
    requires Enabled(w, step)
  {
    match step
    case TakePollEvent(weight) =>
      if w.poller.event.GotActivation?
         && (w.poller.event.codecFailed || w.loop.activeProcessors >= w.limit)
      then Some(Pipeline.EnqueueTicket(Pipeline.Request(true, weight))) else None
    case TakeProcessorResult(_, completion) =>
      if completion == None then None else Some(Pipeline.EnqueueTicket(Pipeline.Request(true, completion.value)))
    case TakeResult(_) => Some(Pipeline.ReceiveResult)
    case CallFinalizer => Some(Pipeline.CallFinalizer(w.loop.at.ticket))
    case FreeSlot => Some(Pipeline.FreeSlot(w.loop.at.ticket))
    case SubmitTicket(i) => Some(Pipeline.Submit(i))
    case AfterSubmit(i) => Some(Pipeline.AfterSubmit(i))
    case PostResult(i) => Some(Pipeline.PostResult(i))
    case FinishTicket(i) => Some(Pipeline.Finish(i))
    case _ => None
  }

  function TurnStep(w: World, i: nat, step: nat -> Lanes.Step): Option<Lanes.Step> {
    if Turning(w, i) then Some(step(w.ticketTurns[i].value)) else None
  }

  /** The step of the lanes that a step of the whole contains. */
  function LanesStep(w: World, step: Step): Option<Lanes.Step>
    requires Enabled(w, step)
  {
    match step
    case TakePollEvent(_) =>
      if w.poller.event.GotActivation? && !w.poller.event.codecFailed && w.loop.activeProcessors < w.limit
         && w.activations[w.poller.event.id].run != ""
      then Some(Lanes.ReserveTurn(w.activations[w.poller.event.id].run)) else None
    case TakeProcessorResult(a, completion) =>
      var turn := w.activations[a].stage.turn;
      if turn.Some? && turn.value < |w.places|
         && (completion == None
             || Pipeline.VerdictOn(w.pipe, Pipeline.Request(true, completion.value)) != Pipeline.Accepted)
      then Some(Lanes.Settle(turn.value, Refused(completion))) else None
    case GiveUpTurn => Some(Lanes.CloseDone(w.loop.at.turn))
    case DropTurn => Some(Lanes.ReleaseTurn(w.loop.at.turn))
    case Process(s) => Some(s)
    case SubmitTicket(i) => TurnStep(w, i, (t: nat) => Lanes.Settle(t, Lanes.CompletionSubmitted))
    case CloseTurn(i) => TurnStep(w, i, (t: nat) => Lanes.CloseDone(t))
    case AfterSubmit(i) => TurnStep(w, i, (t: nat) => Lanes.ReleaseTurn(t))
    case _ => None
  }

  lemma PipePart(w: World, step: Step)
    requires Enabled(w, step)
    ensures match PipeStep(w, step)
            case None => Apply(w, step).pipe == w.pipe
            case Some(s) => Pipeline.Enabled(w.pipe, s) && Apply(w, step).pipe == Pipeline.Apply(w.pipe, s)
  {
  }

  lemma LanesPart(w: World, step: Step)
    requires Enabled(w, step)
    requires forall run :: Lanes.Enabled(w.lanes, Lanes.ReserveTurn(run))
    ensures match LanesStep(w, step)
            case None => Apply(w, step).lanes == w.lanes
            case Some(s) => Lanes.Enabled(w.lanes, s) && Apply(w, step).lanes == Lanes.Apply(w.lanes, s)
  {
  }

  lemma StepKeeps(w: World, step: Step)
    requires Inv(w) && Enabled(w, step)
    ensures Inv(Apply(w, step))
  {
    LinksKeep(w, step);
    PartsFacts(w);
    PipePart(w, step);
    LanesPart(w, step);
    if PipeStep(w, step).Some? {
      Pipeline.StepKeeps(w.pipe, PipeStep(w, step).value);
    }
    if LanesStep(w, step).Some? {
      Lanes.StepKeeps(w.lanes, LanesStep(w, step).value);
    }
  }

  lemma {:induction false} RunKeeps(w: World, steps: seq<Step>)
    requires Inv(w) && Run(w, steps).Some?
    ensures Inv(Run(w, steps).value)
    decreases |steps|
  {
    if steps != [] {
      StepKeeps(w, steps[0]);
      RunKeeps(Apply(w, steps[0]), steps[1..]);
    }
  }

  lemma StartInv(configured: int)
    ensures Inv(Start(configured))
  {
    Pipeline.NewInv(Limit(configured), []);
  }

  lemma ReachableInv(configured: int, steps: seq<Step>)
    requires Run(Start(configured), steps).Some?
    ensures Inv(Run(Start(configured), steps).value)
  {
    StartInv(configured);
    RunKeeps(Start(configured), steps);
  }

  // ---- The main results ----

  /** The activations that the poller has handed to the loop. */
  ghost function Taken(activations: seq<Activation>): set<nat> {
    set a: nat | a < |activations| && activations[a].stage != AtPoller
  }

  /** At any time, the activations accepted by the loop are the enqueue attempts and the active processors. */
  lemma AcceptedAreAttemptedOrActive(configured: int, steps: seq<Step>)
    requires Run(Start(configured), steps).Some?
    ensures var w := Run(Start(configured), steps).value;
            && |Taken(w.activations)| == |w.attempts| + w.loop.activeProcessors
            && 0 <= w.loop.activeProcessors <= w.limit
            && forall a: nat :: w.attempts[a] <= 1
  {
    ReachableInv(configured, steps);
    var w := Run(Start(configured), steps).value;
    assert Taken(w.activations) == AttemptedOnes(w.activations) + InProcessors(w.activations);
    assert AttemptedOnes(w.activations) !! InProcessors(w.activations);
  }

  /**
   When the loop finishes: every activation that Core ever returned had exactly one enqueue attempt,
   every ticket that the pipeline accepted was submitted, received and finalized exactly once, every
   turn was released, and the only lanes left are those of cached runs.
   */
  lemma DrainIsComplete(configured: int, steps: seq<Step>)
    requires Run(Start(configured), steps).Some? && ShouldFinish(Run(Start(configured), steps).value)
    ensures var w := Run(Start(configured), steps).value;
            && (forall a: nat :: w.attempts[a] == if a < |w.activations| then 1 else 0)
            && (forall i: nat :: i < |w.pipe.history.tickets| ==> SettledOnce(w.pipe.history, i))
            && (forall t :: 0 <= t < |w.lanes.phases| ==> w.lanes.phases[t].Released?)
            && (forall run :: run in w.lanes.runLocks ==> run in w.lanes.runs)
  {
    ReachableInv(configured, steps);
    var w := Run(Start(configured), steps).value;
    assert w.poller == Stopped && InProcessors(w.activations) == {};
    forall a | 0 <= a < |w.activations|
      ensures w.activations[a].stage == Attempted
    {
      assert ActivationOk(a, w.activations[a], w.poller, w.places);
      assert a !in InProcessors(w.activations);
    }
    AllFreed(w);
    FinishedTurns(w);
    forall run | run in w.lanes.runLocks
      ensures run in w.lanes.runs
    {
      var lane := w.lanes.runLocks[run];
      assert w.lanes.lanes[lane].refs == |Lanes.Live(w.lanes.turns, w.lanes.phases, lane)|;
      assert Lanes.Live(w.lanes.turns, w.lanes.phases, lane) == {};
    }
  }

  ghost predicate SettledOnce(h: Pipeline.History, i: nat) {
    h.submitted[i] == 1 && h.received[i] == 1 && h.finalized[i] == 1
  }

  lemma AllFreed(w: World)
    requires Pipeline.Inv(w.pipe) && w.pipe.outstanding == 0
    ensures forall i :: 0 <= i < |w.pipe.history.tickets| ==> w.pipe.history.tickets[i].slot == Pipeline.Freed
    ensures forall i :: 0 <= i < |w.pipe.history.tickets| ==> Pipeline.HasPosted(w.pipe.history.tickets[i].phase)
    ensures forall i: nat :: i < |w.pipe.history.tickets| ==> SettledOnce(w.pipe.history, i)
  {
    var ts := w.pipe.history.tickets;
    Pipeline.SumPositive(ts, Pipeline.HeldOne);
    forall i | 0 <= i < |ts|
      ensures ts[i].slot == Pipeline.Freed && Pipeline.HasPosted(ts[i].phase) && SettledOnce(w.pipe.history, i)
    {
      assert Pipeline.HeldOne(ts[i]) <= 0;
      assert (multiset(w.pipe.results) + w.pipe.history.received)[i] >= 1;
    }
  }

  lemma FinishedTurns(w: World)
    requires Linked(w, None) && w.loop.at == AtSelect
    requires forall a :: 0 <= a < |w.activations| ==> w.activations[a].stage == Attempted
    requires forall i :: 0 <= i < |w.pipe.history.tickets| ==> Pipeline.HasPosted(w.pipe.history.tickets[i].phase)
    ensures forall t :: 0 <= t < |w.lanes.phases| ==> w.lanes.phases[t].Released?
  {
    forall t | 0 <= t < |w.lanes.phases|
      ensures w.lanes.phases[t].Released?
    {
      assert PlaceAt(t, w.places, w.lanes, w.activations, w.ticketTurns, w.pipe.history.tickets, w.loop.at);
    }
  }

  /**
   A turn is given up only after its completion was submitted, or when the pipeline refused it or there
   was none; and until then nobody else of the same run is past `wait`.
   */
  lemma RunsAreSerial(configured: int, steps: seq<Step>, i: nat, j: nat)
    requires Run(Start(configured), steps).Some?
    requires var t := Run(Start(configured), steps).value.lanes;
             i < j < |t.turns| == |t.phases| && t.turns[i].run == t.turns[j].run && !t.phases[j].Reserved?
    ensures var w := Run(Start(configured), steps).value;
            && |w.places| == |w.lanes.turns| && Lanes.IsClosed(w.lanes.phases[i])
            && match w.places[i]
               case InTicket(k) => k < |w.pipe.history.tickets| && w.pipe.history.submitted[k] == 1
               case WithLoop => IsRefusal(w.lanes.phases[i].how)
               case Gone => IsRefusal(w.lanes.phases[i].how)
               case WithProcessor(_) => false
  {
    ReachableInv(configured, steps);
    var w := Run(Start(configured), steps).value;
    Lanes.EarlierClosed(w.lanes, i, j);
    assert PlaceAt(i, w.places, w.lanes, w.activations, w.ticketTurns, w.pipe.history.tickets, w.loop.at);
  }
}
