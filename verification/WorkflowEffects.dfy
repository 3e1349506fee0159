/**
 What each input does to the workflow loop, written out: which activations are run, which completion goes
 to the pipeline for which turn, what is reported as an error and what makes the loop drain.
 */
module WorkflowEffects {
  import opened Basics
  import opened WorkflowLoop
  import Pipeline
  import Lanes

  /** The pipeline takes another completion of this size. */
  predicate HasRoom(w: World, size: nat) {
    var bytes := if size == 0 then 1 else size;
    w.pipe.outstanding < w.pipe.maxItems && bytes <= w.pipe.maxWeight && w.pipe.totalWeight + bytes <= w.pipe.maxWeight
  }

  lemma RoomIsAccepted(w: World, size: nat)
    requires Inv(w)
    ensures Pipeline.VerdictOn(w.pipe, Pipeline.Request(true, size)) == Pipeline.Accepted <==> HasRoom(w, size)
  {
  }

  /** There is one more ticket, of this size, and it has this turn to release. */
  ghost predicate Offered(w: World, v: World, size: nat, turn: Option<nat>) {
    var n := |w.pipe.history.tickets|;
    && |v.pipe.history.tickets| == n + 1 && v.pipe.history.tickets[..n] == w.pipe.history.tickets
    && v.pipe.history.tickets[n].weight == (if size == 0 then 1 else size)
    && v.ticketTurns == w.ticketTurns + [turn] && v.lanes == w.lanes
  }

  /**
   One attempt was made for activation `a`: a ticket of the size of its completion takes over the turn; or,
   without a completion or without room for it, there is no ticket and the loop gives the turn up.
   */
  ghost predicate AttemptMade(w: World, v: World, a: nat, completion: Option<nat>, turn: Option<nat>) {
    && a < |w.activations| && v.attempts == w.attempts + multiset{a}
    && v.activations == w.activations[a := w.activations[a].(stage := Attempted)]
    && (if completion.Some? && HasRoom(w, completion.value) then
          Offered(w, v, completion.value, turn) && v.loop.at == w.loop.at
        else
          && v.pipe == w.pipe && v.ticketTurns == w.ticketTurns
          && match turn
             case None => v.lanes == w.lanes && v.loop.at == w.loop.at
             case Some(t) =>
               && v.loop.at == Closing(t)
               && t < |w.lanes.phases|
               && v.lanes == w.lanes.(phases := w.lanes.phases[t :=
                    Lanes.Settled(if completion == None then Lanes.NoCompletion else Lanes.CompletionRejected)]))
  }

  // ---- Errors and draining ----

  /** What the step adds to the errors of the loop. */
  function ErrorsOf(w: World, step: Step): seq<LoopError> {
    match step
    case TakePollEvent(size) =>
      if !w.poller.Sending? then []
      else
        (match w.poller.event
         case GotError(isCancellation) => if w.cancelled && isCancellation then [] else [PollFailed]
         case GotActivation(_, codecFailed) =>
           if codecFailed then (if HasRoom(w, size) then [] else [NotEnqueued])
           else if w.loop.activeProcessors < w.limit then []
           else if HasRoom(w, size) then [OverLimit] else [OverLimit, NotEnqueued])
    case TakePollClosed => if w.loop.draining || w.cancelled then [] else [PollStopped]
    case TakeProcessorResult(a, completion) =>
      if a < |w.activations| && w.activations[a].stage == InProcessor(None)
         && (completion == None || !HasRoom(w, completion.value))
      then [NotEnqueued] else []
    case DropTurn => [NotEnqueued]
    case FreeSlot => if w.loop.at.Finalizing? && w.loop.at.failed then [SubmitFailed] else []
    case _ => []
  }

  /** The step makes a running loop drain. */
  predicate Drains(w: World, step: Step) {
    || step.SeeCancel? || step.TakePollClosed? || (step.TakePollEvent? && w.poller.Sending? && w.poller.event.GotError?)
    || ErrorsOf(w, step) != []
  }

  ghost predicate Reacted(w: World, v: World, errors: seq<LoopError>, drains: bool) {
    && v.loop.errors == w.loop.errors + errors
    && (v.loop.draining <==> w.loop.draining || drains)
  }

  // ---- Attempts ----

  lemma AttemptMeans(w: World, a: nat, completion: Option<nat>, turn: Option<nat>)
    requires a < |w.activations| && w.loop.at == AtSelect
    requires Pipeline.Inv(w.pipe)
    requires turn.Some? ==> turn.value < |w.places| && Lanes.Exists(w.lanes, turn.value)
                            && w.lanes.phases[turn.value] == Lanes.Processed
    ensures var v := Attempt(w, a, completion, turn);
            && AttemptMade(w, v, a, completion, turn)
            && v.poller == w.poller && v.loop.activeProcessors == w.loop.activeProcessors
            && var failed := turn == None && (completion == None || !HasRoom(w, completion.value));
            Reacted(w, v, if failed then [NotEnqueued] else [], failed)
  {
    if completion.Some? {
      var request := Pipeline.Request(true, completion.value);
      assert Pipeline.VerdictOn(w.pipe, request) == Pipeline.Accepted <==> HasRoom(w, completion.value);
    }
  }

  // ---- Poll events ----

  /** The activation is run: it takes a processor and, if it names a run, the next turn of that run. */
  ghost predicate Dispatched(w: World, v: World, a: nat) {
    && a < |w.activations| && v.loop.activeProcessors == w.loop.activeProcessors + 1
    && v.pipe == w.pipe && v.attempts == w.attempts
    && (if w.activations[a].run == "" then
          v.lanes == w.lanes && v.activations == w.activations[a := Activation("", InProcessor(None))]
        else
          var t := |w.lanes.turns|;
          && v.activations == w.activations[a := w.activations[a].(stage := InProcessor(Some(t)))]
          && |v.lanes.turns| == t + 1 && v.lanes.turns[..t] == w.lanes.turns
          && v.lanes.turns[t].run == w.activations[a].run
          && v.lanes.phases == w.lanes.phases + [Lanes.Reserved])
  }

  /** What a poll event does: an activation is run, or failed when it cannot be decoded or is one too many. */
  lemma PollEventMeans(w: World, size: nat)
    requires Inv(w) && Enabled(w, TakePollEvent(size))
    ensures var v := Apply(w, TakePollEvent(size));
            && Reacted(w, v, ErrorsOf(w, TakePollEvent(size)), Drains(w, TakePollEvent(size)))
            && (match w.poller.event
                case GotError(_) => v.poller == Stopped && v.activations == w.activations && v.attempts == w.attempts
                case GotActivation(a, codecFailed) =>
                  && v.poller == Polling
                  && if codecFailed || w.loop.activeProcessors >= w.limit
                     then AttemptMade(w, v, a, Some(size), None) else Dispatched(w, v, a))
  {
    match w.poller.event
    case GotError(_) =>
    case GotActivation(a, codecFailed) =>
      var w1 := w.(poller := Polling);
      if codecFailed {
        AttemptMeans(w1, a, Some(size), None);
      } else if w.loop.activeProcessors >= w.limit {
        AttemptMeans(StartDraining(w1, [OverLimit]), a, Some(size), None);
      } else {
        DispatchMeans(w, a, size);
      }
  }

  lemma DispatchMeans(w: World, a: nat, size: nat)
    requires Inv(w) && a < |w.activations| && w.loop.activeProcessors < w.limit
    requires w.activations[a].stage == AtPoller
    ensures var v := Dispatch(w.(poller := Polling), a, size);
            && Dispatched(w, v, a) && v.poller == Polling && Reacted(w, v, [], false)
  {
    PartsFacts(w);
  }

  // ---- Processor results ----

  /** The result of a processor: its own completion is attempted, once, for its own turn. */
  lemma ProcessorResultMeans(w: World, a: nat, completion: Option<nat>)
    requires Inv(w) && Enabled(w, TakeProcessorResult(a, completion))
    ensures var v := Apply(w, TakeProcessorResult(a, completion));
            && AttemptMade(w, v, a, completion, w.activations[a].stage.turn)
            && v.loop.activeProcessors == w.loop.activeProcessors - 1
            && Reacted(w, v, ErrorsOf(w, TakeProcessorResult(a, completion)), ErrorsOf(w, TakeProcessorResult(a, completion)) != [])
  {
    assert ActivationOk(a, w.activations[a], w.poller, w.places);
    var w1 := w.(loop := w.loop.(activeProcessors := w.loop.activeProcessors - 1));
    AttemptMeans(w1, a, completion, w.activations[a].stage.turn);
  }

  // ---- Other steps ----

  /** Every other step takes and attempts nothing, and reports exactly the errors listed. */
  lemma OtherStepsMean(w: World, step: Step)
    requires Enabled(w, step) && !step.TakePollEvent? && !step.TakeProcessorResult?
    ensures var v := Apply(w, step);
            && Reacted(w, v, ErrorsOf(w, step), Drains(w, step))
            && v.attempts == w.attempts && v.ticketTurns == w.ticketTurns
            && v.loop.activeProcessors == w.loop.activeProcessors
            && (step.CoreActivates? || v.activations == w.activations)
  {
  }

  // ---- Runs ----

  /** The limit is the one configured, or 1000; the pipeline holds twice as many completions. */
  lemma LimitIs(configured: int)
    requires configured <= 0x3fff_ffff_ffff_ffff
    ensures var w, limit := Start(configured), if configured <= 0 then 1000 else configured;
            && w.limit == limit && w.pipe.limit == limit && w.pipe.maxItems == 2 * limit
            && w.pipe.maxWeight == 64 * 1024 * 1024 && !w.loop.draining && w.loop.errors == []
  {
  }

  lemma StepStopsPolling(w: World, step: Step)
    requires Enabled(w, step) && (w.stopPolling <==> w.loop.draining)
    ensures Apply(w, step).stopPolling <==> Apply(w, step).loop.draining
  {
  }

  lemma {:induction false} RunStopsPolling(w: World, steps: seq<Step>)
    requires Run(w, steps).Some? && (w.stopPolling <==> w.loop.draining)
    ensures Run(w, steps).value.stopPolling <==> Run(w, steps).value.loop.draining
    decreases |steps|
  {
    if steps != [] {
      StepStopsPolling(w, steps[0]);
      RunStopsPolling(Apply(w, steps[0]), steps[1..]);
    }
  }

  /** The context of the poller is cancelled exactly when the loop drains. */
  lemma DrainingStopsPolling(configured: int, steps: seq<Step>)
    requires Run(Start(configured), steps).Some?
    ensures Run(Start(configured), steps).value.stopPolling <==> Run(Start(configured), steps).value.loop.draining
  {
    RunStopsPolling(Start(configured), steps);
  }

  /** The errors of all these steps, in order. */
  function AllErrors(w: World, steps: seq<Step>): seq<LoopError>
    requires Run(w, steps).Some?
    decreases |steps|
  {
    if steps == [] then [] else ErrorsOf(w, steps[0]) + AllErrors(Apply(w, steps[0]), steps[1..])
  }

  lemma StepReports(w: World, step: Step)
    requires Inv(w) && Enabled(w, step)
    ensures Reacted(w, Apply(w, step), ErrorsOf(w, step), Drains(w, step))
  {
    match step
    case TakePollEvent(size) => PollEventMeans(w, size);
    case TakeProcessorResult(a, completion) => ProcessorResultMeans(w, a, completion);
    case _ => OtherStepsMean(w, step);
  }

  lemma ReportsFirst(w: World, step: Step, rest: seq<LoopError>, errors: seq<LoopError>)
    requires Inv(w) && Enabled(w, step) && errors == Apply(w, step).loop.errors + rest
    ensures errors == w.loop.errors + (ErrorsOf(w, step) + rest)
  {
    StepReports(w, step);
  }

  /** The loop reports every error and nothing else, in order. */
  lemma {:induction false} ErrorsAreReported(w: World, steps: seq<Step>)
    requires Inv(w) && Run(w, steps).Some?
    ensures Run(w, steps).value.loop.errors == w.loop.errors + AllErrors(w, steps)
    decreases |steps|
  {
    if steps != [] {
      var v := Apply(w, steps[0]);
      StepKeeps(w, steps[0]);
      ErrorsAreReported(v, steps[1..]);
      ReportsFirst(w, steps[0], AllErrors(v, steps[1..]), Run(w, steps).value.loop.errors);
    }
  }
}
