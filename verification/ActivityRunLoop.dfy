/**
 The activity run loop as the object it is: a map, flags, counters and a pipeline, updated in place. A
 method is the stretch of a handler up to the next point at which another goroutine can run; each is
 proved equal to a step of ActivityLoop.
 */
module ActivityRunLoop {
  import opened Basics
  import opened ActivityLoop
  import Pipeline

  /** What these steps make of a new loop. */
  ghost predicate Reached(w: World, configured: int, steps: seq<Step>) {
    Run(Begin(configured), steps) == Some(w)
  }

  lemma {:induction false} RunAppend(w: World, steps: seq<Step>, step: Step)
    requires Run(w, steps).Some? && Enabled(Run(w, steps).value, step)
    ensures Run(w, steps + [step]) == Some(Apply(Run(w, steps).value, step))
    decreases |steps|
  {
    if steps == [] {
      assert (steps + [step])[1..] == [];
      assert Run(Apply(w, step), []) == Some(Apply(w, step));
    } else {
      assert (steps + [step])[1..] == steps[1..] + [step];
      RunAppend(Apply(w, steps[0]), steps[1..], step);
    }
  }

  function SizeOf(completion: Option<Pipeline.Int64>): (size: Option<nat>)
    requires completion.Some? ==> completion.value >= 0
    ensures size.Some? <==> completion.Some?
  {
    if completion == None then None else Some(completion.value as nat)
  }

  lemma EnqueueAccepts(w: World, a: nat, size: nat)
    requires a < |w.activities| && !w.activities[a].terminal && Verdict(w, size) == Pipeline.Accepted
    ensures var m, r := MarkTerminal(w, a), EnqueueCompletion(w, a, Some(size));
            && r.1 == None
            && r.0 == m.(pipe := Pipeline.Offer(w.pipe, Pipeline.Request(true, size)),
                         tickets := r.0.tickets, ticketActivities := r.0.ticketActivities)
  {
  }

  lemma EnqueueRefuses(w: World, a: nat, size: Option<nat>)
    requires a < |w.activities| && !w.activities[a].terminal
    requires size.Some? ==> Verdict(w, size.value) != Pipeline.Accepted
    ensures EnqueueCompletion(w, a, size)
            == (Forget(MarkTerminal(w, a), a), Some(if size == None then NoCompletion else NotEnqueued))
  {
  }

  lemma EventIs(w: World, a: nat, size: Option<nat>)
    requires Enabled(w, TakeActivityEvent(a)) && w.handlers[a].completion == size
    ensures var w1 := SetHandler(w, a, Over);
            var r := EnqueueCompletion(w1, a, size);
            Apply(w, TakeActivityEvent(a)) == if IsRunning(w, a) then FailWith(r.0, r.1) else w1
  {
  }

  class RunLoop {
    const configured: int
    const limit: int
    const pipeline: Pipeline.CompletionPipeline
    var cancelled: bool
    var stopPolling: bool
    var draining: bool
    var pollOpen: bool
    var ctxArmed: bool
    var activeExecutions: int
    var running: map<string, nat>
    var activities: seq<Activity>
    var firstErr: Option<LoopError>
    var laterErr: seq<LoopError>
    ghost var world: World
    ghost var steps: seq<Step>

    ghost predicate ShowsActivities(w: World)
      reads this
    {
      && activeExecutions == w.loop.activeExecutions && running == w.running
      && activities == w.activities
    }

    ghost predicate ShowsErrors(errors: seq<LoopError>)
      reads this
    {
      errors == (if firstErr == None then [] else [firstErr.value] + laterErr) && (firstErr == None ==> laterErr == [])
    }

    ghost predicate ShowsPipe(pipe: Pipeline.Pipe)
      reads this, pipeline
    {
      pipeline.Valid() && pipeline.State() == pipe
    }

    /** The fields are those of `w`. */
    ghost predicate Shows(w: World)
      reads this, pipeline
    {
      && ShowsPipe(w.pipe)
      && limit == w.limit && cancelled == w.cancelled && stopPolling == w.stopPolling
      && draining == w.loop.draining && pollOpen == w.loop.pollOpen && ctxArmed == w.loop.ctxArmed
      && ShowsErrors(w.loop.errors)
      && ShowsActivities(w)
    }

    ghost predicate Valid()
      reads this, pipeline
    {
      Shows(world) && Reached(world, configured, steps)
    }

    constructor (configured: int)
      requires configured <= Pipeline.MAX_INT
      ensures Valid() && world == Begin(configured)
    {
      this.configured, limit := configured, Limit(configured);
      pipeline := new Pipeline.CompletionPipeline(Limit(configured) as Pipeline.Int64, []);
      cancelled, stopPolling, draining, pollOpen, ctxArmed := false, false, false, true, true;
      activeExecutions, running, activities := 0, map[], [];
      firstErr, laterErr := None, [];
      world, steps := Begin(configured), [];
    }

    ghost method Record(step: Step)
      requires Reached(world, configured, steps) && Enabled(world, step)
      modifies this`world, this`steps
      ensures Reached(world, configured, steps) && world == Apply(old(world), step)
    {
      RunAppend(Begin(configured), steps, step);
      steps := steps + [step];
      world := Apply(world, step);
    }

    // ---- Draining ----

    method RecordError(err: LoopError)
      modifies this`firstErr, this`laterErr
      ensures firstErr == (if old(firstErr) == None then Some(err) else old(firstErr))
      ensures laterErr == (if old(firstErr) == None then old(laterErr) else old(laterErr) + [err])
    {
      if firstErr == None {
        firstErr := Some(err);
        return;
      }
      laterErr := laterErr + [err];
    }

    /** The first time, the caller goes on to cancel everything that runs. */
    method BeginDraining(ghost w: World, err: Option<LoopError>)
      requires Shows(w)
      modifies this`firstErr, this`laterErr, this`draining, this`ctxArmed, this`stopPolling
      ensures Shows(StartDraining(w, if err == None then [] else [err.value]))
    {
      if err.Some? {
        RecordError(err.value);
      }
      if !draining {
        draining, ctxArmed, stopPolling := true, false, true;
      }
    }

    method SeeCancelled()
      requires Valid() && Enabled(world, SeeCancel)
      modifies this
      ensures Valid() && world == Apply(old(world), SeeCancel)
    {
      BeginDraining(world, None);
      Record(SeeCancel);
    }

    // ---- Completions ----

    /** Ends the activity once; false when it had ended before. */
    method QueueTerminal(a: nat) returns (first: bool)
      requires a < |activities|
      modifies this`activities
      ensures first == !old(activities[a].terminal)
      ensures activities == old(activities)[a := old(activities[a]).(terminal := true)]
    {
      if activities[a].terminal {
        return false;
      }
      activities := activities[a := activities[a].(terminal := true)];
      first := true;
    }

    method ForgetActivity(ghost w: World, a: nat)
      requires ShowsActivities(w) && a < |activities|
      modifies this`running
      ensures ShowsActivities(Forget(w, a)) && Forget(w, a) == w.(running := running)
    {
      var token := activities[a].token;
      if token in running && running[token] == a {
        running := running - {token};
      }
    }

    /** Hands a completion of this size to the pipeline. */
    method Submit(size: Pipeline.Int64) returns (verdict: Pipeline.Verdict)
      requires pipeline.Valid() && size >= 0
      modifies pipeline
      ensures pipeline.Valid()
      ensures var request := Pipeline.Request(true, size as int);
              && verdict == Pipeline.VerdictOn(old(pipeline.State()), request)
              && pipeline.State() == Pipeline.Offer(old(pipeline.State()), request)
    {
      var finalized, started;
      verdict, finalized, started := pipeline.Enqueue(true, size);
    }

    method EnqueuePlainCompletion(ghost w: World, size: Pipeline.Int64) returns (err: Option<LoopError>)
      requires Shows(w) && size >= 0
      modifies pipeline
      ensures Shows(EnqueuePlain(w, size as nat).0) && err == EnqueuePlain(w, size as nat).1
    {
      var verdict := Submit(size);
      err := if verdict == Pipeline.Accepted then None else Some(NotEnqueued);
    }

    method EnqueueActivityCompletion(ghost w: World, a: nat, completion: Option<Pipeline.Int64>)
      returns (err: Option<LoopError>)
      requires Shows(w) && a < |activities| && (completion.Some? ==> completion.value >= 0)
      modifies this`activities, this`running, this`activeExecutions, pipeline
      ensures Shows(EnqueueCompletion(w, a, SizeOf(completion)).0) && err == EnqueueCompletion(w, a, SizeOf(completion)).1
    {
      var first := QueueTerminal(a);
      if !first {
        return None;
      }
      activeExecutions := activeExecutions - 1;
      assert Shows(MarkTerminal(w, a));
      err := EnqueueLast(w, a, completion);
    }

    /** The completion of an activity that has just ended. */
    method EnqueueLast(ghost w: World, a: nat, completion: Option<Pipeline.Int64>) returns (err: Option<LoopError>)
      requires a < |w.activities| && !w.activities[a].terminal && Shows(MarkTerminal(w, a))
      requires completion.Some? ==> completion.value >= 0
      modifies this`running, pipeline
      ensures Shows(EnqueueCompletion(w, a, SizeOf(completion)).0) && err == EnqueueCompletion(w, a, SizeOf(completion)).1
    {
      if completion.Some? {
        var verdict := Submit(completion.value);
        if verdict == Pipeline.Accepted {
          EnqueueAccepts(w, a, completion.value as nat);
          return None;
        }
      }
      EnqueueRefuses(w, a, SizeOf(completion));
      ForgetActivity(MarkTerminal(w, a), a);
      err := Some(if completion == None then NoCompletion else NotEnqueued);
    }

    method Fail(ghost w: World, err: Option<LoopError>)
      requires Shows(w)
      modifies this`firstErr, this`laterErr, this`draining, this`ctxArmed, this`stopPolling
      ensures Shows(FailWith(w, err))
    {
      if err.Some? {
        BeginDraining(w, err);
      }
    }

    // ---- Tasks ----

    method StartTask(ghost w: World, token: string) returns (err: Option<LoopError>)
      requires Shows(w)
      modifies this`activities, this`running, this`activeExecutions
      ensures Shows(StartActivity(w, token).0) && err == StartActivity(w, token).1
    {
      if activeExecutions >= limit {
        return Some(OverLimit);
      }
      if token in running {
        return Some(DuplicateToken);
      }
      running := running[token := |activities|];
      activities := activities + [Activity(token, false)];
      activeExecutions := activeExecutions + 1;
      return None;
    }

    method HandlePolledTask(ghost w: World, task: Task, size: Pipeline.Int64) returns (err: Option<LoopError>)
      requires Shows(w) && size >= 0
      requires forall key :: key in running ==> running[key] < |activities|
      modifies this`activities, this`running, this`activeExecutions, pipeline
      ensures Shows(HandleTask(w, task, size as nat).0) && err == HandleTask(w, task, size as nat).1
    {
      match task {
        case Start(token) =>
          if !draining {
            err := StartTask(w, token);
          } else {
            err := EnqueuePlainCompletion(w, size);
          }
        case Cancel(token) =>
          if token in running {
            err := EnqueueActivityCompletion(w, running[token], Some(size));
          } else {
            err := None;
          }
        case Neither => err := Some(BadTask);
      }
    }

    method TakeTask(ghost w: World, task: Task, codecFailed: bool, size: Pipeline.Int64)
      requires Shows(w) && size >= 0
      requires forall key :: key in running ==> running[key] < |activities|
      modifies this, pipeline
      ensures world == old(world) && steps == old(steps)
      ensures var r := if codecFailed then EnqueuePlain(w, size as nat) else HandleTask(w, task, size as nat);
              Shows(FailWith(r.0, r.1))
    {
      if codecFailed {
        var err := EnqueuePlainCompletion(w, size);
        Fail(EnqueuePlain(w, size as nat).0, err);
      } else {
        var err := HandlePolledTask(w, task, size);
        Fail(HandleTask(w, task, size as nat).0, err);
      }
    }

    method HandleEvent(event: PollEvent, size: Pipeline.Int64)
      requires Valid() && size >= 0 && Enabled(world, TakePollEvent(size as nat)) && event == world.poller.event
      modifies this, pipeline
      ensures Valid() && world == Apply(old(world), TakePollEvent(size as nat))
    {
      EntriesExist(world, configured, steps);
      match event {
        case GotError(isCancellation) =>
          BeginDraining(world.(poller := Stopped), if cancelled && isCancellation then None else Some(PollFailed));
        case GotTask(task, codecFailed) =>
          ghost var w1 := world.(poller := Polling);
          assert Shows(w1);
          TakeTask(w1, task, codecFailed, size);
      }
      Record(TakePollEvent(size as nat));
    }

    method HandleClosed()
      requires Valid() && Enabled(world, TakePollClosed)
      modifies this
      ensures Valid() && world == Apply(old(world), TakePollClosed)
    {
      pollOpen := false;
      if !draining {
        BeginDraining(world.(loop := world.loop.(pollOpen := false)), if cancelled then None else Some(PollStopped));
      }
      Record(TakePollClosed);
    }

    /** The result of a handler; it is stale when the activity has left the map. */
    method HandleActivityResult(a: nat, completion: Option<Pipeline.Int64>)
      requires Valid() && Enabled(world, TakeActivityEvent(a)) && (completion.Some? ==> completion.value >= 0)
      requires world.handlers[a].completion == SizeOf(completion)
      modifies this, pipeline
      ensures Valid() && world == Apply(old(world), TakeActivityEvent(a))
    {
      ghost var w1 := SetHandler(world, a, Over);
      assert Shows(w1);
      EventIs(world, a, SizeOf(completion));
      if activities[a].token in running && running[activities[a].token] == a {
        EndRunning(w1, a, completion);
      }
      Record(TakeActivityEvent(a));
    }

    method EndRunning(ghost w: World, a: nat, completion: Option<Pipeline.Int64>)
      requires Shows(w) && a < |activities| && (completion.Some? ==> completion.value >= 0)
      modifies this, pipeline
      ensures var r := EnqueueCompletion(w, a, SizeOf(completion)); Shows(FailWith(r.0, r.1))
      ensures world == old(world) && steps == old(steps)
    {
      var err := EnqueueActivityCompletion(w, a, completion);
      Fail(EnqueueCompletion(w, a, SizeOf(completion)).0, err);
    }

    /** One round of `cancelRunningActivities`, for any entry of the map it has not visited. */
    method CancelRunning(token: string, size: Pipeline.Int64) returns (err: Option<LoopError>)
      requires Valid() && size >= 0 && Enabled(world, CancelOne(token, size as nat))
      modifies this, pipeline
      ensures Valid() && world == Apply(old(world), CancelOne(token, size as nat))
    {
      err := EnqueueActivityCompletion(world, running[token], Some(size));
      Record(CancelOne(token, size as nat));
    }

    /** A heartbeat reaches Core only while the activity has not ended. */
    method RecordHeartbeat(a: nat) returns (recorded: bool)
      requires Valid() && Enabled(world, Heartbeat(a))
      modifies this
      ensures Valid() && world == Apply(old(world), Heartbeat(a))
      ensures recorded <==> world.log == old(world.log) + [Beat(a)]
    {
      recorded := !activities[a].terminal;
      Record(Heartbeat(a));
    }

    // ---- Results ----

    method TakeCompletion(failed: bool) returns (ticket: nat)
      requires Valid() && Enabled(world, TakeResult(failed))
      modifies this, pipeline
      ensures Valid() && world == Apply(old(world), TakeResult(failed))
      ensures world.loop.at == ActivityLoop.Received(ticket, failed)
    {
      ticket := pipeline.Receive();
      Record(TakeResult(failed));
    }

    /** The finalizer of a ticket drops its activity from the map. */
    method RunFinalizer(activity: Option<nat>)
      requires Valid() && Enabled(world, CallFinalizer) && activity == world.ticketActivities[world.loop.at.ticket]
      modifies this, pipeline
      ensures Valid() && world == Apply(old(world), CallFinalizer)
    {
      ghost var i := world.loop.at.ticket;
      pipeline.RunCallback(Pipeline.Step.CallFinalizer(i));
      if activity.Some? {
        ghost var w1 := world.(loop := world.loop.(at := Finalizing(i, world.loop.at.failed)),
                               pipe := Pipeline.Apply(world.pipe, Pipeline.Step.CallFinalizer(i)));
        ForgetActivity(w1, activity.value);
      }
      Record(CallFinalizer);
    }

    method FreeCompletion(ghost ticket: nat, weight: Pipeline.Int64, failed: bool)
      requires Valid() && Enabled(world, FreeSlot) && world.loop.at == Finalizing(ticket, failed)
      requires world.pipe.history.tickets[ticket].weight == weight as int
      modifies this, pipeline
      ensures Valid() && world == Apply(old(world), FreeSlot)
    {
      pipeline.FreeSlot(ticket, weight);
      ghost var w := world.(loop := world.loop.(at := AtSelect),
                            pipe := pipeline.State());
      assert Shows(w);
      Fail(w, if failed then Some(SubmitFailed) else None);
      Record(FreeSlot);
    }

    /** Whether the loop is over; then nothing runs any more and every completion was settled. */
    method Finished() returns (over: bool)
      requires Valid() && world.loop.at == AtSelect
      ensures over <==> ShouldFinish(world)
      ensures over ==> && running == map[] && activeExecutions == 0
                       && (forall a :: 0 <= a < |activities| ==> activities[a].terminal)
                       && (forall i: nat :: i < |world.pipe.history.tickets| ==> SettledOnce(world.pipe.history, i))
    {
      var outstanding := pipeline.Outstanding();
      over := draining && !pollOpen && outstanding == 0;
      if over {
        DrainIsComplete(configured, steps);
      }
    }
  }

  lemma EntriesExist(w: World, configured: int, steps: seq<Step>)
    requires Reached(w, configured, steps)
    ensures forall key :: key in w.running ==> w.running[key] < |w.activities|
  {
    ReachableInv(configured, steps);
    forall key | key in w.running
      ensures w.running[key] < |w.activities|
    {
      assert EntryAt(key, w.running, w.activities, w.tickets, w.pipe.history.tickets);
    }
  }
}
