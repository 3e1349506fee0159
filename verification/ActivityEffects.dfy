/**
 What each input does to the activity loop, written out: which tasks start an activity, which end one and
 with what, what is reported as an error and what makes the loop drain.
 */
module ActivityEffects {
  import opened Basics
  import opened ActivityLoop
  import Pipeline

  /** The pipeline takes another completion of this size. */
  predicate HasRoom(w: World, size: nat) {
    var bytes := if size == 0 then 1 else size;
    w.pipe.outstanding < w.pipe.maxItems && bytes <= w.pipe.maxWeight && w.pipe.totalWeight + bytes <= w.pipe.maxWeight
  }

  predicate IsLive(w: World, a: nat) {
    a < |w.activities| && !w.activities[a].terminal
  }

  lemma RoomIsAccepted(w: World, size: nat)
    requires Inv(w)
    ensures Verdict(w, size) == Pipeline.Accepted <==> HasRoom(w, size)
  {
  }

  // ---- Ends of activities ----

  /** The last ticket is one of this size, for this activity if it is for one. */
  ghost predicate Offered(w: World, v: World, size: nat, activity: Option<nat>) {
    var n := |w.pipe.history.tickets|;
    && |v.pipe.history.tickets| == n + 1 && v.pipe.history.tickets[..n] == w.pipe.history.tickets
    && v.pipe.history.tickets[n].weight == (if size == 0 then 1 else size)
    && v.ticketActivities == w.ticketActivities + [activity]
  }

  lemma OfferIs(w: World, size: nat, activity: Option<nat>)
    requires Inv(w) && Verdict(w, size) == Pipeline.Accepted
    ensures Offered(w, Accepted(w, size, activity), size, activity)
  {
  }

  /**
   Activity `a` has ended: one attempt in the log, and a ticket of this size that keeps it in the map; or,
   when there is no completion or no room for it, no ticket, and its entry is gone at once.
   */
  ghost predicate Ended(w: World, v: World, a: nat, completion: Option<nat>) {
    && a < |w.activities|
    && v.activities == w.activities[a := w.activities[a].(terminal := true)]
    && v.log == w.log + [Attempt(a)] && v.loop.activeExecutions == w.loop.activeExecutions - 1
    && (if completion.Some? && HasRoom(w, completion.value) then
          Offered(w, v, completion.value, Some(a)) && v.running == w.running
        else v.pipe == w.pipe && v.ticketActivities == w.ticketActivities
             && v.running == w.running - {w.activities[a].token})
  }

  /** Nothing was started, ended or sent. */
  ghost predicate Untouched(w: World, v: World) {
    && v.activities == w.activities && v.log == w.log && v.running == w.running && v.pipe == w.pipe
    && v.ticketActivities == w.ticketActivities && v.loop.activeExecutions == w.loop.activeExecutions
  }

  lemma EnqueueEnds(w: World, a: nat, completion: Option<nat>)
    requires Inv(w) && a < |w.activities|
    ensures var v := EnqueueCompletion(w, a, completion).0;
            if IsLive(w, a) then Ended(w, v, a, completion) else v == w
  {
    if IsLive(w, a) {
      assert ActivityAt(a, w.activities, w.running, w.loop);
      if completion.Some? {
        RoomIsAccepted(w, completion.value);
        if HasRoom(w, completion.value) {
          var w1 := MarkTerminal(w, a);
          OfferIs(w, completion.value, Some(a));
        }
      }
    }
  }

  // ---- Errors and draining ----

  /** What the step adds to the errors of the loop. */
  function ErrorsOf(w: World, step: Step): seq<LoopError> {
    match step
    case TakePollEvent(size) =>
      if !w.poller.Sending? then []
      else
        (match w.poller.event
         case GotError(isCancellation) => if w.cancelled && isCancellation then [] else [PollFailed]
         case GotTask(task, codecFailed) => TaskErrors(w, task, codecFailed, size))
    case TakePollClosed => if w.loop.draining || w.cancelled then [] else [PollStopped]
    case TakeActivityEvent(a) =>
      if !IsLive(w, a) || a !in w.handlers || !w.handlers[a].Produced? then []
      else if w.handlers[a].completion.None? then [NoCompletion]
      else if HasRoom(w, w.handlers[a].completion.value) then [] else [NotEnqueued]
    case CancelDone => if w.loop.at.Cancelling? then w.loop.at.refused else []
    case FreeSlot => if w.loop.at.Finalizing? && w.loop.at.failed then [SubmitFailed] else []
    case _ => []
  }

  function TaskErrors(w: World, task: Task, codecFailed: bool, size: nat): seq<LoopError> {
    if codecFailed then (if HasRoom(w, size) then [] else [NotEnqueued])
    else
      match task
      case Start(token) =>
        if w.loop.draining then (if HasRoom(w, size) then [] else [NotEnqueued])
        else if w.loop.activeExecutions >= w.limit then [OverLimit]
        else if token in w.running then [DuplicateToken] else []
      case Cancel(token) =>
        if token in w.running && IsLive(w, w.running[token]) && !HasRoom(w, size) then [NotEnqueued] else []
      case Neither => [BadTask]
  }

  /** The step makes a running loop drain. */
  predicate Drains(w: World, step: Step) {
    || step.SeeCancel? || step.TakePollClosed? || (step.TakePollEvent? && w.poller.Sending? && w.poller.event.GotError?)
    || ErrorsOf(w, step) != []
  }

  /** What follows an enqueue attempt. */
  ghost predicate Reacted(w: World, v: World, errors: seq<LoopError>, drains: bool) {
    && v.loop.errors == w.loop.errors + errors
    && (v.loop.draining <==> w.loop.draining || drains)
  }

  lemma FailReacts(w: World, r: World, error: Option<LoopError>, errors: seq<LoopError>)
    requires r.loop.errors == w.loop.errors && r.loop.draining == w.loop.draining
    requires errors == if error == None then [] else [error.value]
    ensures Reacted(w, FailWith(r, error), errors, errors != [])
    ensures Untouched(r, FailWith(r, error))
  {
  }

  lemma EnqueueReacts(w: World, a: nat, completion: Option<nat>)
    requires Inv(w) && a < |w.activities|
    ensures var r := EnqueueCompletion(w, a, completion);
            && r.0.loop.errors == w.loop.errors && r.0.loop.draining == w.loop.draining
            && r.1 == (if !IsLive(w, a) then None else if completion.None? then Some(NoCompletion)
                       else if HasRoom(w, completion.value) then None else Some(NotEnqueued))
  {
    if completion.Some? {
      RoomIsAccepted(w, completion.value);
    }
  }

  // ---- Tasks ----

  /**
   A task, written out. A start begins an activity under its token when the worker is not draining, below
   its limit, and the token is free; while it drains, a start is answered. A cancellation ends the live
   activity of its token, and no other. A task that cannot be decoded is answered.
   */
  ghost predicate TaskDone(w: World, v: World, task: Task, codecFailed: bool, size: nat) {
    if codecFailed || (task.Start? && w.loop.draining) then
      && v.activities == w.activities && v.running == w.running && v.log == w.log
      && (if HasRoom(w, size) then Offered(w, v, size, None) else v.pipe == w.pipe)
    else
      match task
      case Start(token) =>
        if w.loop.activeExecutions < w.limit && token !in w.running then
          && v.activities == w.activities + [Activity(token, false)]
          && v.running == w.running[token := |w.activities|] && v.log == w.log && v.pipe == w.pipe
          && v.handlers == w.handlers[|w.activities| := Working]
          && v.loop.activeExecutions == w.loop.activeExecutions + 1
        else Untouched(w, v)
      case Cancel(token) =>
        if token in w.running && IsLive(w, w.running[token]) then Ended(w, v, w.running[token], Some(size))
        else Untouched(w, v)
      case Neither => Untouched(w, v)
  }

  lemma HandleTaskMeans(w: World, task: Task, codecFailed: bool, size: nat)
    requires Inv(w)
    ensures var r := if codecFailed then EnqueuePlain(w, size) else HandleTask(w, task, size);
            && TaskDone(w, r.0, task, codecFailed, size)
            && r.0.loop.errors == w.loop.errors && r.0.loop.draining == w.loop.draining
            && TaskErrors(w, task, codecFailed, size) == (if r.1 == None then [] else [r.1.value])
  {
    RoomIsAccepted(w, size);
    if codecFailed || (task.Start? && w.loop.draining) {
      if HasRoom(w, size) {
        OfferIs(w, size, None);
      }
    } else if task.Cancel? && task.token in w.running {
      assert EntryAt(task.token, w.running, w.activities, w.tickets, w.pipe.history.tickets);
      EnqueueEnds(w, w.running[task.token], Some(size));
      EnqueueReacts(w, w.running[task.token], Some(size));
    }
  }

  lemma PollerAlone(w: World, poller: Poller)
    requires Inv(w) && w.loop.pollOpen
    ensures Inv(w.(poller := poller))
  {
  }

  lemma PollerIrrelevant(w: World, poller: Poller, v: World, task: Task, codecFailed: bool, size: nat)
    ensures TaskErrors(w.(poller := poller), task, codecFailed, size) == TaskErrors(w, task, codecFailed, size)
    ensures TaskDone(w.(poller := poller), v, task, codecFailed, size) ==> TaskDone(w, v, task, codecFailed, size)
  {
  }

  lemma TaskEventMeans(w: World, task: Task, codecFailed: bool, size: nat)
    requires Inv(w) && Enabled(w, TakePollEvent(size)) && w.poller.event == GotTask(task, codecFailed)
    ensures var v := Apply(w, TakePollEvent(size));
            var errors := TaskErrors(w, task, codecFailed, size);
            && Reacted(w, v, errors, errors != []) && TaskDone(w, v, task, codecFailed, size) && v.poller == Polling
  {
    var w1 := w.(poller := Polling);
    PollerAlone(w, Polling);
    HandleTaskMeans(w1, task, codecFailed, size);
    var r := if codecFailed then EnqueuePlain(w1, size) else HandleTask(w1, task, size);
    assert r.0.poller == Polling;
    FailReacts(w1, r.0, r.1, TaskErrors(w1, task, codecFailed, size));
    FailKeepsTask(w1, r.0, r.1, task, codecFailed, size);
    PollerIrrelevant(w, Polling, FailWith(r.0, r.1), task, codecFailed, size);
  }

  lemma FailKeepsTask(w: World, r: World, error: Option<LoopError>, task: Task, codecFailed: bool, size: nat)
    requires TaskDone(w, r, task, codecFailed, size)
    ensures TaskDone(w, FailWith(r, error), task, codecFailed, size) && FailWith(r, error).poller == r.poller
  {
  }

  /** What a poll event does. */
  lemma PollEventMeans(w: World, size: nat)
    requires Inv(w) && Enabled(w, TakePollEvent(size))
    ensures var v := Apply(w, TakePollEvent(size));
            && Reacted(w, v, ErrorsOf(w, TakePollEvent(size)), Drains(w, TakePollEvent(size)))
            && (match w.poller.event
                case GotError(_) => Untouched(w, v) && v.poller == Stopped
                case GotTask(task, codecFailed) => TaskDone(w, v, task, codecFailed, size) && v.poller == Polling)
  {
    match w.poller.event
    case GotError(_) =>
    case GotTask(task, codecFailed) => TaskEventMeans(w, task, codecFailed, size);
  }

  /** The result of a handler ends its activity with its own completion, if it has not ended yet. */
  lemma HandlerResultMeans(w: World, a: nat)
    requires Inv(w) && Enabled(w, TakeActivityEvent(a))
    ensures var v := Apply(w, TakeActivityEvent(a));
            && Reacted(w, v, ErrorsOf(w, TakeActivityEvent(a)), ErrorsOf(w, TakeActivityEvent(a)) != [])
            && v.handlers == w.handlers[a := Over]
            && (if IsLive(w, a) then Ended(w, v, a, w.handlers[a].completion) else Untouched(w, v))
  {
    var w1 := SetHandler(w, a, Over);
    assert ActivityAt(a, w.activities, w.running, w.loop);
    if IsRunning(w, a) {
      EnqueueEnds(w1, a, w.handlers[a].completion);
      EnqueueReacts(w1, a, w.handlers[a].completion);
      var r := EnqueueCompletion(w1, a, w.handlers[a].completion);
      FailReacts(w1, r.0, r.1, ErrorsOf(w, TakeActivityEvent(a)));
    }
  }

  /** One round of the cancellation of everything that runs. */
  lemma CancelOneMeans(w: World, token: string, size: nat)
    requires Inv(w) && Enabled(w, CancelOne(token, size))
    ensures var v, a := Apply(w, CancelOne(token, size)), w.running[token];
            && Reacted(w, v, [], false) && w.activities[a].token == token
            && (if IsLive(w, a) then Ended(w, v, a, Some(size)) else Untouched(w, v))
            && v.loop.at.Cancelling?
            && v.loop.at.refused == w.loop.at.refused + (if IsLive(w, a) && !HasRoom(w, size) then [NotEnqueued] else [])
  {
    assert EntryAt(token, w.running, w.activities, w.tickets, w.pipe.history.tickets);
    EnqueueEnds(w, w.running[token], Some(size));
    EnqueueReacts(w, w.running[token], Some(size));
  }

  /** Every other step starts and ends nothing, and reports exactly the errors listed. */
  lemma OtherStepsMean(w: World, step: Step)
    requires Inv(w) && Enabled(w, step) && !step.TakePollEvent? && !step.TakeActivityEvent? && !step.CancelOne?
    ensures var v := Apply(w, step);
            && Reacted(w, v, ErrorsOf(w, step), Drains(w, step))
            && v.activities == w.activities && v.loop.activeExecutions == w.loop.activeExecutions
            && v.ticketActivities == w.ticketActivities
            && (step.Heartbeat? || v.log == w.log)
  {
  }

  /** The finalizer of an activity drops the entry of its token only when that entry is its own. */
  lemma ForgetsOnlyItsOwn(w: World, a: nat)
    requires a < |w.activities|
    ensures var token := w.activities[a].token;
            Forget(w, a) == (if token in w.running && w.running[token] == a then w.(running := w.running - {token}) else w)
  {
  }

  /** A heartbeat reaches Core exactly while its activity has not ended; what a handler returns is what it offers. */
  lemma HandlersMean(w: World, a: nat, completion: Option<nat>)
    requires Inv(w)
    ensures Enabled(w, Heartbeat(a)) ==>
              Apply(w, Heartbeat(a)) == (if IsLive(w, a) then w.(log := w.log + [Beat(a)]) else w)
    ensures Enabled(w, Produce(a, completion)) ==>
              Apply(w, Produce(a, completion)) == w.(handlers := w.handlers[a := Produced(completion)])
    ensures Enabled(w, Quit(a)) ==> !IsLive(w, a) && Apply(w, Quit(a)) == w.(handlers := w.handlers[a := Over])
  {
  }

  // ---- Runs ----

  /** The limit is the one configured, or 1000; the pipeline holds twice as many completions. */
  lemma LimitIs(configured: int)
    requires configured <= 0x3fff_ffff_ffff_ffff
    ensures var w, limit := Begin(configured), if configured <= 0 then 1000 else configured;
            && w.limit == limit && w.pipe.limit == limit && w.pipe.maxItems == 2 * limit
            && w.pipe.maxWeight == 64 * 1024 * 1024 && !w.loop.draining && w.loop.errors == []
  {
  }

  predicate PollingFollows(w: World) {
    w.stopPolling <==> w.loop.draining
  }

  lemma FailStops(w: World, error: Option<LoopError>)
    requires PollingFollows(w)
    ensures PollingFollows(FailWith(w, error))
  {
  }

  lemma EnqueueStops(w: World, a: nat, completion: Option<nat>)
    requires PollingFollows(w) && a < |w.activities|
    ensures PollingFollows(EnqueueCompletion(w, a, completion).0)
  {
  }

  lemma TaskStops(w: World, task: Task, codecFailed: bool, size: nat)
    requires PollingFollows(w)
    ensures PollingFollows(if codecFailed then EnqueuePlain(w, size).0 else HandleTask(w, task, size).0)
  {
    if task.Cancel? && task.token in w.running && w.running[task.token] < |w.activities| {
      EnqueueStops(w, w.running[task.token], Some(size));
    }
  }

  lemma StepStopsPolling(w: World, step: Step)
    requires Enabled(w, step) && PollingFollows(w)
    ensures PollingFollows(Apply(w, step))
  {
    match step
    case TakePollEvent(size) =>
      if w.poller.event.GotTask? {
        var task, codecFailed, w1 := w.poller.event.task, w.poller.event.codecFailed, w.(poller := Polling);
        TaskStops(w1, task, codecFailed, size);
        var r := if codecFailed then EnqueuePlain(w1, size) else HandleTask(w1, task, size);
        FailStops(r.0, r.1);
      }
    case TakeActivityEvent(a) =>
      var w1 := SetHandler(w, a, Over);
      EnqueueStops(w1, a, w.handlers[a].completion);
      var r := EnqueueCompletion(w1, a, w.handlers[a].completion);
      FailStops(r.0, r.1);
    case CancelOne(token, size) => EnqueueStops(w, w.running[token], Some(size));
    case _ =>
  }

  lemma {:induction false} RunStopsPolling(w: World, steps: seq<Step>)
    requires Run(w, steps).Some? && (w.stopPolling <==> w.loop.draining)
    ensures Run(w, steps).value.stopPolling <==> Run(w, steps).value.loop.draining
    decreases |steps|
  {
    if steps != [] {
      StepStopsPolling(w, steps[0]);
      RunStopsPolling(Apply(w, steps[0]), steps[1..]);
    }
  }

  /** The context of the poller is cancelled exactly when the loop drains. */
  lemma DrainingStopsPolling(configured: int, steps: seq<Step>)
    requires Run(Begin(configured), steps).Some?
    ensures Run(Begin(configured), steps).value.stopPolling <==> Run(Begin(configured), steps).value.loop.draining
  {
    RunStopsPolling(Begin(configured), steps);
  }

  /** The errors of all these steps, in order. */
  function AllErrors(w: World, steps: seq<Step>): seq<LoopError>
    requires Run(w, steps).Some?
    decreases |steps|
  {
    if steps == [] then [] else ErrorsOf(w, steps[0]) + AllErrors(Apply(w, steps[0]), steps[1..])
  }

  lemma StepReports(w: World, step: Step)
    requires Inv(w) && Enabled(w, step)
    ensures Reacted(w, Apply(w, step), ErrorsOf(w, step), Drains(w, step))
  {
    match step
    case TakePollEvent(size) => PollEventMeans(w, size);
    case TakeActivityEvent(a) => HandlerResultMeans(w, a);
    case CancelOne(token, size) => CancelOneMeans(w, token, size);
    case _ => OtherStepsMean(w, step);
  }

  lemma ReportsFirst(w: World, step: Step, rest: seq<LoopError>, errors: seq<LoopError>)
    requires Inv(w) && Enabled(w, step) && errors == Apply(w, step).loop.errors + rest
    ensures errors == w.loop.errors + (ErrorsOf(w, step) + rest)
  {
    StepReports(w, step);
  }

  /** The loop reports every error and nothing else, in order. */
  lemma {:induction false} ErrorsAreReported(w: World, steps: seq<Step>)
    requires Inv(w) && Run(w, steps).Some?
    ensures Run(w, steps).value.loop.errors == w.loop.errors + AllErrors(w, steps)
    decreases |steps|
  {
    if steps != [] {
      var v := Apply(w, steps[0]);
      StepKeeps(w, steps[0]);
      ErrorsAreReported(v, steps[1..]);
      ReportsFirst(w, steps[0], AllErrors(v, steps[1..]), Run(w, steps).value.loop.errors);
    }
  }
}
