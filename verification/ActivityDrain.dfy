/**
 Draining the activity loop comes to an end: as long as it has not finished some step is possible, and
 only boundedly many steps are, when Core delivers no new task and no further handler returns. Handlers
 that never return do not hold it up.
 */
module ActivityDrain {
  import opened Basics
  import opened ActivityLoop
  import Pipeline

  /** Steps that the worker takes by itself; Core answers a poll with an error when polling has stopped. */
  predicate Internal(step: Step) {
    !step.CancelContext? && !step.CoreReturns? && !step.Produce? && !step.Heartbeat?
  }

  // ---- Draining never gets stuck ----

  lemma LoopMoves(w: World) returns (step: Step)
    requires Inv(w) && w.loop.at != AtSelect
    ensures Enabled(w, step) && (step.CallFinalizer? || step.FreeSlot? || step.CancelOne? || step.CancelDone?)
  {
    match w.loop.at
    case Received(i, _) =>
      assert TicketAt(i, w.ticketActivities, w.pipe.history.tickets, w.pipe.history.received, w.activities, w.tickets, w.running, w.loop.at);
      step := CallFinalizer;
    case Finalizing(_, _) => step := FreeSlot;
    case Cancelling(left, _) =>
      if token :| token in left && token in w.running {
        assert EntryAt(token, w.running, w.activities, w.tickets, w.pipe.history.tickets);
        step := CancelOne(token, 0);
      } else {
        step := CancelDone;
      }
  }

  lemma PipeMoves(w: World) returns (step: Step)
    requires Inv(w) && w.loop.at == AtSelect
    requires exists i :: 0 <= i < |w.pipe.history.tickets| && !Pipeline.Done(w.pipe.history.tickets[i])
    ensures Enabled(w, step) && (step.RunTicket? || step.TakeResult?)
  {
    var s := Pipeline.NeverStuck(w.pipe);
    forall i: nat | i < |w.pipe.history.tickets|
      ensures w.pipe.history.received[i] > 0 ==> w.pipe.history.tickets[i].slot == Pipeline.Freed
    {
      assert TicketAt(i, w.ticketActivities, w.pipe.history.tickets, w.pipe.history.received, w.activities, w.tickets, w.running, w.loop.at);
    }
    step := if s.ReceiveResult? then TakeResult(false) else RunTicket(s);
  }

  /** A draining loop that has not finished can move. */
  lemma NeverStuck(w: World) returns (step: Step)
    requires Inv(w) && w.loop.draining && !ShouldFinish(w)
    ensures Enabled(w, step) && Internal(step)
  {
    if w.loop.at != AtSelect {
      step := LoopMoves(w);
    } else if i :| 0 <= i < |w.pipe.history.tickets| && !Pipeline.Done(w.pipe.history.tickets[i]) {
      step := PipeMoves(w);
    } else {
      Pipeline.SumPositive(w.pipe.history.tickets, Pipeline.HeldOne);
      assert w.pipe.outstanding == 0;
      step := if w.poller == Polling then CoreFails(true)
              else if w.poller == Stopped then TakePollClosed else TakePollEvent(0);
    }
  }

  // ---- What is left to do ----

  function ActivityWeight(activity: Activity): nat {
    if activity.terminal then 0 else 10
  }

  function PollerWeight(poller: Poller): nat {
    match poller
    case Stopped => 0
    case Polling => 2
    case Sending(event) => if event.GotError? then 1 else 11
  }

  function LoopWeight(loop: Loop): nat {
    (if loop.pollOpen then 1 else 0) + (if loop.at.Cancelling? then |loop.at.left| + 1 else 0)
  }

  /** The handlers that offer a result. */
  ghost function Offers(handlers: map<nat, Handler>): set<nat> {
    set a | a in handlers && handlers[a].Produced?
  }

  ghost function Work(w: World): int {
    Weigh(w.activities, ActivityWeight) + Pipeline.WorkLeft(w.pipe)
    + PollerWeight(w.poller) + LoopWeight(w.loop) + |Offers(w.handlers)|
  }

  lemma PipeWeighs(p: Pipeline.Pipe, s: Pipeline.Step)
    requires Pipeline.Inv(p) && Pipeline.Enabled(p, s)
    ensures var was, now := Pipeline.WorkLeft(p), Pipeline.WorkLeft(Pipeline.Apply(p, s));
            if s.EnqueueTicket? then now <= was + 8 else now < was
  {
    if s.EnqueueTicket? {
      Pipeline.OfferWork(p, s.request);
    } else {
      Pipeline.StepDrains(p, s);
    }
  }

  lemma PipeWork(w: World, step: Step)
    requires Inv(w) && Enabled(w, step)
    ensures Pipeline.WorkLeft(Apply(w, step).pipe) <= Pipeline.WorkLeft(w.pipe)
              + (if PipeStep(w, step).None? then 0 else if PipeStep(w, step).value.EnqueueTicket? then 8 else -1)
  {
    PipePart(w, step);
    if PipeStep(w, step).Some? {
      PipeWeighs(w.pipe, PipeStep(w, step).value);
    }
  }

  /** At `select` a draining loop has ended all activities. */
  lemma AllEnded(w: World)
    requires Inv(w) && w.loop.draining && !w.loop.at.Cancelling?
    ensures forall a :: 0 <= a < |w.activities| ==> w.activities[a].terminal
  {
    forall a | 0 <= a < |w.activities|
      ensures w.activities[a].terminal
    {
      assert ActivityAt(a, w.activities, w.running, w.loop);
    }
  }

  lemma CancelEffect(w: World, token: string, size: nat)
    requires Enabled(w, CancelOne(token, size))
    ensures var v, a := Apply(w, CancelOne(token, size)), w.running[token];
            && v.activities == w.activities[a := w.activities[a].(terminal := true)]
            && v.poller == w.poller && v.handlers == w.handlers && v.loop.pollOpen == w.loop.pollOpen
            && v.loop.draining == w.loop.draining
            && v.loop.at.Cancelling? && v.loop.at.left == w.loop.at.left - {token}
    ensures PipeStep(w, CancelOne(token, size)).Some? ==> !w.activities[w.running[token]].terminal
  {
  }

  lemma CancelDescends(w: World, token: string, size: nat)
    requires Inv(w) && w.loop.draining && Enabled(w, CancelOne(token, size))
    ensures Work(Apply(w, CancelOne(token, size))) < Work(w) && Apply(w, CancelOne(token, size)).loop.draining
  {
    PipeWork(w, CancelOne(token, size));
    CancelEffect(w, token, size);
    var a := w.running[token];
    assert |w.loop.at.left - {token}| == |w.loop.at.left| - 1;
    WeighUpdate(w.activities, a, w.activities[a].(terminal := true), ActivityWeight);
  }

  lemma OfferTaken(handlers: map<nat, Handler>, a: nat)
    requires a in handlers && handlers[a].Produced?
    ensures |Offers(handlers[a := Over])| == |Offers(handlers)| - 1
  {
    assert Offers(handlers[a := Over]) == Offers(handlers) - {a};
  }

  lemma HandlerDescends(w: World, step: Step)
    requires Inv(w) && w.loop.draining && Enabled(w, step) && (step.Quit? || step.TakeActivityEvent?)
    ensures Work(Apply(w, step)) < Work(w) && Apply(w, step).loop.draining
  {
    if step.TakeActivityEvent? {
      AllEnded(w);
    }
    OfferTaken(w.handlers, step.activity);
    assert Apply(w, step) == SetHandler(w, step.activity, Over);
  }

  /** While it drains the loop starts nothing and has nothing left to cancel. */
  lemma TaskEffect(w: World, task: Task, size: nat)
    requires w.loop.draining && forall a :: 0 <= a < |w.activities| ==> w.activities[a].terminal
    ensures var v := HandleTask(w, task, size).0;
            v == w.(pipe := v.pipe, ticketActivities := v.ticketActivities)
  {
  }

  lemma FailEffect(w: World, error: Option<LoopError>)
    requires w.loop.draining && w.loop.at == AtSelect
    ensures FailWith(w, error) == w.(loop := w.loop.(errors := FailWith(w, error).loop.errors))
  {
  }

  lemma EventEffect(w: World, size: nat)
    requires Enabled(w, TakePollEvent(size)) && w.loop.draining
    requires forall a :: 0 <= a < |w.activities| ==> w.activities[a].terminal
    ensures var v := Apply(w, TakePollEvent(size));
            && v.activities == w.activities && v.handlers == w.handlers
            && v.loop == w.loop.(errors := v.loop.errors)
            && v.poller == (if w.poller.event.GotError? then Stopped else Polling)
    ensures w.poller.event.GotError? ==> PipeStep(w, TakePollEvent(size)) == None
  {
    match w.poller.event
    case GotError(_) =>
    case GotTask(task, codecFailed) =>
      var w1 := w.(poller := Polling);
      TaskEffect(w1, task, size);
      var r := if codecFailed then EnqueuePlain(w1, size) else HandleTask(w1, task, size);
      FailEffect(r.0, r.1);
  }

  lemma EventDescends(w: World, size: nat)
    requires Inv(w) && w.loop.draining && Enabled(w, TakePollEvent(size))
    ensures Work(Apply(w, TakePollEvent(size))) < Work(w) && Apply(w, TakePollEvent(size)).loop.draining
  {
    AllEnded(w);
    PipeWork(w, TakePollEvent(size));
    EventEffect(w, size);
  }

  predicate OwnLemma(step: Step) {
    step.TakePollEvent? || step.CancelOne? || step.Quit? || step.TakeActivityEvent?
  }

  /** Every other internal step moves the pipeline, the poller or the loop. */
  lemma OtherEffect(w: World, step: Step)
    requires Enabled(w, step) && Internal(step) && !OwnLemma(step) && w.loop.draining && !w.loop.ctxArmed
    ensures var v := Apply(w, step);
            && v.activities == w.activities && v.handlers == w.handlers && v.loop.draining
            && PollerWeight(v.poller) <= PollerWeight(w.poller) && LoopWeight(v.loop) <= LoopWeight(w.loop)
            && (PollerWeight(v.poller) + LoopWeight(v.loop) < PollerWeight(w.poller) + LoopWeight(w.loop)
                || PipeStep(w, step).Some?)
            && (PipeStep(w, step).Some? ==> !PipeStep(w, step).value.EnqueueTicket?)
  {
  }

  lemma StepDescends(w: World, step: Step)
    requires Inv(w) && w.loop.draining && Enabled(w, step) && Internal(step)
    ensures Work(Apply(w, step)) < Work(w) && Apply(w, step).loop.draining
  {
    match step
    case TakePollEvent(size) => EventDescends(w, size);
    case CancelOne(token, size) => CancelDescends(w, token, size);
    case Quit(_) => HandlerDescends(w, step);
    case TakeActivityEvent(_) => HandlerDescends(w, step);
    case _ =>
      PipeWork(w, step);
      OtherEffect(w, step);
  }

  lemma WorkNatural(w: World)
    ensures Work(w) >= 0
  {
    Pipeline.WorkIsNatural(w.pipe);
  }

  // ---- The main results ----

  /** Whatever a draining loop does without new input it does in at most `Work` steps. */
  lemma {:induction false} DrainBound(w: World, steps: seq<Step>)
    requires Inv(w) && w.loop.draining && Run(w, steps).Some?
    requires forall k :: 0 <= k < |steps| ==> Internal(steps[k])
    ensures |steps| <= Work(w)
    decreases |steps|
  {
    WorkNatural(w);
    if steps != [] {
      StepKeeps(w, steps[0]);
      StepDescends(w, steps[0]);
      DrainBound(Apply(w, steps[0]), steps[1..]);
    }
  }

  lemma RunCons(w: World, step: Step, rest: seq<Step>)
    requires Enabled(w, step)
    ensures Run(w, [step] + rest) == Run(Apply(w, step), rest)
  {
    assert ([step] + rest)[1..] == rest;
  }

  /** One more step towards the end. */
  lemma Advance(w: World) returns (step: Step)
    requires Inv(w) && w.loop.draining && !ShouldFinish(w)
    ensures Enabled(w, step) && Internal(step)
    ensures Inv(Apply(w, step)) && Apply(w, step).loop.draining && 0 <= Work(Apply(w, step)) < Work(w)
  {
    step := NeverStuck(w);
    StepKeeps(w, step);
    StepDescends(w, step);
    WorkNatural(Apply(w, step));
  }

  /** These internal steps lead to the end. */
  ghost predicate Leads(w: World, steps: seq<Step>) {
    && Run(w, steps).Some? && ShouldFinish(Run(w, steps).value)
    && forall k :: 0 <= k < |steps| ==> Internal(steps[k])
  }

  lemma LeadsFrom(w: World, step: Step, rest: seq<Step>)
    requires Enabled(w, step) && Internal(step) && Leads(Apply(w, step), rest)
    ensures Leads(w, [step] + rest)
  {
    RunCons(w, step, rest);
  }

  lemma {:induction false} FinishesWithin(w: World, bound: nat) returns (steps: seq<Step>)
    requires Inv(w) && w.loop.draining && Work(w) <= bound
    ensures Leads(w, steps)
    decreases bound
  {
    if ShouldFinish(w) {
      steps := [];
    } else {
      var step := Advance(w);
      var rest := FinishesWithin(Apply(w, step), bound - 1);
      LeadsFrom(w, step, rest);
      steps := [step] + rest;
    }
  }

  /**
   From every reachable state in which the loop drains it can finish without any further input, and
   however the steps are chosen it does: DrainBound bounds them, NeverStuck provides them.
   */
  lemma DrainFinishes(w: World) returns (steps: seq<Step>)
    requires Inv(w) && w.loop.draining
    ensures Leads(w, steps)
  {
    WorkNatural(w);
    steps := FinishesWithin(w, Work(w));
  }
}
