/**
 The workflow run loop as the object it is. A method is the stretch of a handler up to the next point
 at which another goroutine can run; each is proved equal to a step of WorkflowLoop, so that whatever
 is proved there about all interleavings holds of the object.
 */
module RunLoop {
  import opened Basics
  import opened WorkflowLoop
  import Pipeline
  import Lanes

  /** What these steps make of a new loop. */
  ghost predicate Reached(w: World, configured: int, steps: seq<Step>) {
    Run(Start(configured), steps) == Some(w)
  }

  lemma {:induction false} RunAppend(w: World, steps: seq<Step>, step: Step)
    requires Run(w, steps).Some? && Enabled(Run(w, steps).value, step)
    ensures Run(w, steps + [step]) == Some(Apply(Run(w, steps).value, step))
    decreases |steps|
  {
    if steps == [] {
      assert (steps + [step])[1..] == [];
      assert Run(Apply(w, step), []) == Some(Apply(w, step));
    } else {
      assert (steps + [step])[1..] == steps[1..] + [step];
      RunAppend(Apply(w, steps[0]), steps[1..], step);
    }
  }

  function SizeOf(completion: Option<Pipeline.Int64>): (size: Option<nat>)
    requires completion.Some? ==> completion.value >= 0
    ensures size.Some? <==> completion.Some?
  {
    if completion == None then None else Some(completion.value as nat)
  }

  lemma EnqueueAccepts(w: World, size: nat, turn: Option<nat>)
    requires Pipeline.VerdictOn(w.pipe, Pipeline.Request(true, size)) == Pipeline.Accepted
    ensures var v := EnqueueCompletion(w, Some(size), turn);
            v == w.(pipe := Pipeline.Offer(w.pipe, Pipeline.Request(true, size)),
                    ticketTurns := v.ticketTurns, places := v.places)
  {
  }

  lemma EnqueueRefuses(w: World, size: Option<nat>, turn: Option<nat>)
    requires size.Some? ==> Pipeline.VerdictOn(w.pipe, Pipeline.Request(true, size.value)) != Pipeline.Accepted
    requires turn.Some? ==> turn.value < |w.places| && Lanes.Enabled(w.lanes, Lanes.Settle(turn.value, Refused(size)))
    ensures var v := EnqueueCompletion(w, size, turn);
            if turn.Some? then
              v == w.(lanes := Lanes.Apply(w.lanes, Lanes.Settle(turn.value, Refused(size))),
                      loop := w.loop.(at := Closing(turn.value)), places := v.places)
            else v == StartDraining(w, [NotEnqueued])
  {
  }

  lemma ResultIs(w: World, a: nat, size: Option<nat>)
    requires Enabled(w, TakeProcessorResult(a, size))
    ensures Apply(w, TakeProcessorResult(a, size))
            == Attempt(w.(loop := w.loop.(activeProcessors := w.loop.activeProcessors - 1)), a, size,
                       w.activations[a].stage.turn)
  {
  }

  class WorkflowRunLoop {
    const configured: int
    const limit: int
    const pipeline: Pipeline.CompletionPipeline
    const turns: Lanes.RunTurns
    var cancelled: bool
    var stopPolling: bool
    var draining: bool
    var pollOpen: bool
    var ctxArmed: bool
    var activeProcessors: int
    var firstErr: Option<LoopError>
    var laterErr: seq<LoopError>
    ghost var world: World
    ghost var steps: seq<Step>

    /** The fields are those of `w`. */
    ghost predicate Shows(w: World)
      reads this, pipeline, turns
    {
      && pipeline.Valid() && pipeline.State() == w.pipe
      && turns.Valid() && turns.State() == w.lanes
      && limit == w.limit && cancelled == w.cancelled && stopPolling == w.stopPolling
      && draining == w.loop.draining && pollOpen == w.loop.pollOpen && ctxArmed == w.loop.ctxArmed
      && activeProcessors == w.loop.activeProcessors
      && w.loop.errors == (if firstErr == None then [] else [firstErr.value] + laterErr)
      && (firstErr == None ==> laterErr == [])
    }

    ghost predicate Valid()
      reads this, pipeline, turns
    {
      Shows(world) && Reached(world, configured, steps)
    }

    constructor (configured: int)
      requires configured <= Pipeline.MAX_INT
      ensures Valid() && world == Start(configured)
    {
      this.configured, limit := configured, Limit(configured);
      pipeline := new Pipeline.CompletionPipeline(Limit(configured) as Pipeline.Int64, []);
      turns := new Lanes.RunTurns();
      cancelled, stopPolling, draining, pollOpen, ctxArmed := false, false, false, true, true;
      activeProcessors, firstErr, laterErr := 0, None, [];
      world, steps := Start(configured), [];
    }

    ghost method Record(step: Step)
      requires Reached(world, configured, steps) && Enabled(world, step)
      modifies this`world, this`steps
      ensures Reached(world, configured, steps) && world == Apply(old(world), step)
    {
      RunAppend(Start(configured), steps, step);
      steps := steps + [step];
      world := Apply(world, step);
    }

    // ---- Draining ----

    method RecordError(err: LoopError)
      modifies this`firstErr, this`laterErr
      ensures firstErr == (if old(firstErr) == None then Some(err) else old(firstErr))
      ensures laterErr == (if old(firstErr) == None then old(laterErr) else old(laterErr) + [err])
    {
      if firstErr == None {
        firstErr := Some(err);
        return;
      }
      laterErr := laterErr + [err];
    }

    method BeginDraining(ghost w: World, err: Option<LoopError>)
      requires Shows(w)
      modifies this`firstErr, this`laterErr, this`draining, this`ctxArmed, this`stopPolling
      ensures Shows(StartDraining(w, if err == None then [] else [err.value]))
    {
      if err.Some? {
        RecordError(err.value);
      }
      if !draining {
        draining := true;
        ctxArmed := false;
      }
      stopPolling := true;
    }

    method SeeCancelled()
      requires Valid() && Enabled(world, SeeCancel)
      modifies this
      ensures Valid() && world == Apply(old(world), SeeCancel)
    {
      BeginDraining(world, None);
      Record(SeeCancel);
    }

    // ---- Completions ----

    /** One attempt to hand over a completion; a refused turn is given up by GiveUp and Drop. */
    method EnqueueWorkflowCompletion(ghost w: World, completion: Option<Pipeline.Int64>, turn: Option<nat>)
      requires Shows(w) && (completion.Some? ==> completion.value >= 0)
      requires turn.Some? ==> turn.value < |w.places| && Lanes.Exists(w.lanes, turn.value)
                              && w.lanes.phases[turn.value] == Lanes.Processed
      modifies this`firstErr, this`laterErr, this`draining, this`ctxArmed, this`stopPolling, pipeline, turns
      ensures Shows(EnqueueCompletion(w, SizeOf(completion), turn))
    {
      if completion.Some? {
        ghost var p := w.pipe;
        var verdict, _, _ := pipeline.Enqueue(true, completion.value);
        if verdict == Pipeline.Accepted {
          EnqueueAccepts(w, completion.value as nat, turn);
          return;
        }
        assert pipeline.State() == p;
      }
      EnqueueRefuses(w, SizeOf(completion), turn);
      if turn.Some? {
        turns.Advance(Lanes.Settle(turn.value, Refused(SizeOf(completion))));
      } else {
        BeginDraining(w, Some(NotEnqueued));
      }
    }

    method GiveUp(turn: nat)
      requires Valid() && Enabled(world, GiveUpTurn) && turn == world.loop.at.turn
      modifies this, turns
      ensures Valid() && world == Apply(old(world), GiveUpTurn)
    {
      turns.Close(turn);
      Record(GiveUpTurn);
    }

    method Drop(turn: nat)
      requires Valid() && Enabled(world, DropTurn) && turn == world.loop.at.turn
      modifies this, turns
      ensures Valid() && world == Apply(old(world), DropTurn)
    {
      turns.DropReference(turn);
      ghost var w := LaneStep(world, Lanes.ReleaseTurn(turn))
                       .(loop := world.loop.(at := AtSelect), places := world.places[turn := Gone]);
      BeginDraining(w, Some(NotEnqueued));
      Record(DropTurn);
    }

    // ---- Handlers ----

    method HandleEvent(event: PollEvent, run: string, weight: Pipeline.Int64)
      requires Valid() && weight >= 0 && Enabled(world, TakePollEvent(weight as nat)) && event == world.poller.event
      requires event.GotActivation? ==> run == world.activations[event.id].run
      modifies this, pipeline, turns
      ensures Valid() && world == Apply(old(world), TakePollEvent(weight as nat))
    {
      match event {
        case GotError(isCancellation) =>
          BeginDraining(world.(poller := Stopped), if cancelled && isCancellation then None else Some(PollFailed));
        case GotActivation(a, codecFailed) =>
          if codecFailed {
            ghost var w := world.(poller := Polling);
            assert Shows(w);
            AttemptCompletion(w, a, Some(weight), None);
          } else {
            DispatchActivation(world.(poller := Polling), a, run, weight);
          }
      }
      Record(TakePollEvent(weight as nat));
    }

    /** The one attempt for activation `a`. */
    method AttemptCompletion(ghost w: World, ghost a: nat, completion: Option<Pipeline.Int64>, turn: Option<nat>)
      requires Shows(w) && a < |w.activations| && (completion.Some? ==> completion.value >= 0)
      requires turn.Some? ==> turn.value < |w.places| && Lanes.Exists(w.lanes, turn.value)
                              && w.lanes.phases[turn.value] == Lanes.Processed
      modifies this`firstErr, this`laterErr, this`draining, this`ctxArmed, this`stopPolling, pipeline, turns
      ensures Shows(Attempt(w, a, SizeOf(completion), turn))
    {
      ghost var w1 := SetStage(w, a, Attempted).(attempts := w.attempts + multiset{a});
      assert Shows(w1);
      EnqueueWorkflowCompletion(w1, completion, turn);
    }

    method DispatchActivation(ghost w: World, ghost a: nat, run: string, weight: Pipeline.Int64)
      requires Shows(w) && a < |w.activations| && w.activations[a].run == run && weight >= 0
      modifies this, pipeline, turns
      ensures Shows(Dispatch(w, a, weight as nat)) && world == old(world) && steps == old(steps)
    {
      if activeProcessors >= limit {
        BeginDraining(w, Some(OverLimit));
        AttemptCompletion(StartDraining(w, [OverLimit]), a, Some(weight), None);
        return;
      }
      activeProcessors := activeProcessors + 1;
      if run != "" {
        var turn := turns.ReserveRunTurn(run);
      }
    }

    method HandleClosed()
      requires Valid() && Enabled(world, TakePollClosed)
      modifies this
      ensures Valid() && world == Apply(old(world), TakePollClosed)
    {
      pollOpen := false;
      if !draining {
        ghost var w := world.(loop := world.loop.(pollOpen := false));
        BeginDraining(w, if cancelled then None else Some(PollStopped));
      }
      Record(TakePollClosed);
    }

    method HandleResult(ghost a: nat, completion: Option<Pipeline.Int64>, turn: Option<nat>)
      requires Valid() && (completion.Some? ==> completion.value >= 0)
      requires Enabled(world, TakeProcessorResult(a, SizeOf(completion))) && turn == world.activations[a].stage.turn
      requires turn.Some? ==> turn.value < |world.places|
      modifies this, pipeline, turns
      ensures Valid() && world == Apply(old(world), TakeProcessorResult(a, SizeOf(completion)))
    {
      activeProcessors := activeProcessors - 1;
      ghost var w := world.(loop := world.loop.(activeProcessors := world.loop.activeProcessors - 1));
      assert Shows(w);
      ResultIs(world, a, SizeOf(completion));
      ghost var target := Attempt(w, a, SizeOf(completion), turn);
      AttemptCompletion(w, a, completion, turn);
      assert Shows(target);
      Record(TakeProcessorResult(a, SizeOf(completion)));
    }

    // `handleCompletionResult` in three stretches: the result is read, its finalizer runs, its slot is freed.

    method TakeCompletion(failed: bool) returns (ticket: nat)
      requires Valid() && Enabled(world, TakeResult(failed))
      modifies this, pipeline
      ensures Valid() && world == Apply(old(world), TakeResult(failed))
      ensures world.loop.at == WorkflowLoop.Received(ticket, failed)
    {
      ticket := pipeline.Receive();
      Record(TakeResult(failed));
    }

    ghost method RunFinalizer()
      requires Valid() && Enabled(world, CallFinalizer)
      modifies this, pipeline
      ensures Valid() && world == Apply(old(world), CallFinalizer)
    {
      pipeline.RunCallback(Pipeline.Step.CallFinalizer(world.loop.at.ticket));
      Record(CallFinalizer);
    }

    method FreeCompletion(ghost ticket: nat, weight: Pipeline.Int64, failed: bool)
      requires Valid() && Enabled(world, FreeSlot) && world.loop.at == Finalizing(ticket, failed)
      requires world.pipe.history.tickets[ticket].weight == weight as int
      modifies this, pipeline
      ensures Valid() && world == Apply(old(world), FreeSlot)
    {
      pipeline.FreeSlot(ticket, weight);
      if failed {
        ghost var w := world.(loop := world.loop.(at := AtSelect),
                              pipe := Pipeline.Apply(world.pipe, Pipeline.Step.FreeSlot(ticket)));
        BeginDraining(w, Some(SubmitFailed));
      }
      Record(FreeSlot);
    }

    /** Whether the loop is over; then the drain is complete. */
    method Finished() returns (over: bool)
      requires Valid() && world.loop.at == AtSelect
      ensures over <==> ShouldFinish(world)
      ensures over ==> && (forall a: nat :: world.attempts[a] == if a < |world.activations| then 1 else 0)
                       && (forall i: nat :: i < |world.pipe.history.tickets| ==> SettledOnce(world.pipe.history, i))
                       && (forall t :: 0 <= t < |world.lanes.phases| ==> world.lanes.phases[t].Released?)
    {
      var outstanding := pipeline.Outstanding();
      over := draining && !pollOpen && activeProcessors == 0 && outstanding == 0;
      if over {
        DrainIsComplete(configured, steps);
      }
    }
  }
}
