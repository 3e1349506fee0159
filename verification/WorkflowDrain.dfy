/**
 Draining the workflow loop comes to an end: as long as it has not finished some step is possible, and
 only boundedly many steps are, when Core delivers no new activation and each activation caches or
 evicts its run a bounded number of times.
 */
module WorkflowDrain {
  import opened Basics
  import opened WorkflowLoop
  import Pipeline
  import Lanes

  /** Steps that the worker takes by itself; Core answers a poll with an error when polling has stopped. */
  predicate Internal(step: Step) {
    && !step.CancelContext? && !step.CoreActivates?
    && (step.Process? ==> !step.step.SetRun? && !step.step.DeleteRun?)
  }

  // ---- Draining never gets stuck ----

  lemma NothingOutstanding(p: Pipeline.Pipe)
    requires Pipeline.Inv(p) && forall i :: 0 <= i < |p.history.tickets| ==> Pipeline.Done(p.history.tickets[i])
    ensures p.outstanding == 0
  {
    Pipeline.SumPositive(p.history.tickets, Pipeline.HeldOne);
  }

  lemma LoopMoves(w: World) returns (step: Step)
    requires Inv(w) && w.loop.at != AtSelect
    ensures Enabled(w, step) && Internal(step)
  {
    if w.loop.at.Received? {
      step := CallFinalizer;
    } else if w.loop.at.Finalizing? {
      step := FreeSlot;
    } else {
      step := RefusedMoves(w, w.loop.at.turn);
    }
  }

  lemma RefusedMoves(w: World, t: nat) returns (step: Step)
    requires Linked(w, None) && Lanes.LanesExist(w.lanes.turns, w.lanes.lanes, w.lanes.runLocks)
    requires w.loop.at == Closing(t) || w.loop.at == Dropping(t)
    ensures Enabled(w, step) && (step.GiveUpTurn? || step.DropTurn?)
  {
    assert PlaceAt(t, w.places, w.lanes, w.activations, w.ticketTurns, w.pipe.history.tickets, w.loop.at);
    step := if w.loop.at.Closing? then GiveUpTurn else DropTurn;
  }

  /** A ticket is not done: its goroutine, its turn or the loop can move it on. */
  lemma PipeMoves(w: World) returns (step: Step)
    requires Inv(w) && w.loop.at == AtSelect
    requires exists i :: 0 <= i < |w.pipe.history.tickets| && !Pipeline.Done(w.pipe.history.tickets[i])
    ensures Enabled(w, step) && Internal(step)
  {
    var s := Pipeline.NeverStuck(w.pipe);
    NoSlotInHand(w);
    match s
    case Submit(i) => step := TurnMoves(w, s);
    case AfterSubmit(i) => step := TurnMoves(w, s);
    case PostResult(i) => step := PostResult(i);
    case Finish(i) => step := FinishTicket(i);
    case ReceiveResult => step := TakeResult(false);
  }

  lemma TurnMoves(w: World, s: Pipeline.Step) returns (step: Step)
    requires Linked(w, None) && Lanes.LanesExist(w.lanes.turns, w.lanes.lanes, w.lanes.runLocks)
    requires Pipeline.Enabled(w.pipe, s) && (s.Submit? || s.AfterSubmit?)
    ensures Enabled(w, step) && (step.SubmitTicket? || step.CloseTurn? || step.AfterSubmit?)
  {
    var i := s.id;
    TurnOfTicket(w, i);
    step := if s.Submit? then SubmitTicket(i)
            else if Turning(w, i) && w.lanes.phases[w.ticketTurns[i].value].Settled? then CloseTurn(i)
            else AfterSubmit(i);
  }

  /** At `select` the loop has no result in hand. */
  lemma NoSlotInHand(w: World)
    requires Inv(w) && w.loop.at == AtSelect
    ensures forall i :: !Pipeline.Enabled(w.pipe, Pipeline.CallFinalizer(i))
    ensures forall i :: !Pipeline.Enabled(w.pipe, Pipeline.FreeSlot(i))
  {
    forall i: nat | i < |w.pipe.history.tickets|
      ensures w.pipe.history.received[i] > 0 ==> w.pipe.history.tickets[i].slot == Pipeline.Freed
    {
      assert TicketAt(i, w.ticketTurns, w.pipe.history.tickets, w.pipe.history.received, w.places, w.loop.at);
    }
  }

  /** No ticket is left: the oldest turn of the run, or the loop, can move on. */
  lemma ProcessorMoves(w: World, a: nat) returns (step: Step)
    requires Inv(w) && w.loop.at == AtSelect && a in InProcessors(w.activations)
    requires forall i :: 0 <= i < |w.pipe.history.tickets| ==> Pipeline.Done(w.pipe.history.tickets[i])
    ensures Enabled(w, step) && Internal(step)
  {
    assert ActivationOk(a, w.activations[a], w.poller, w.places);
    if w.activations[a].stage.turn == None {
      step := TakeProcessorResult(a, None);
    } else {
      var t := w.activations[a].stage.turn.value;
      assert PlaceAt(t, w.places, w.lanes, w.activations, w.ticketTurns, w.pipe.history.tickets, w.loop.at);
      var u := Lanes.OldestOpen(w.lanes, t);
      assert PlaceAt(u, w.places, w.lanes, w.activations, w.ticketTurns, w.pipe.history.tickets, w.loop.at);
      if w.lanes.phases[u] == Lanes.Reserved {
        Lanes.OldestPasses(w.lanes, u);
        step := Process(Lanes.PassWait(u));
      } else if w.lanes.phases[u] == Lanes.Processing {
        step := Process(Lanes.Complete(u));
      } else {
        step := TakeProcessorResult(w.places[u].activation, None);
      }
    }
  }

  /** A draining loop that has not finished can move. */
  lemma NeverStuck(w: World) returns (step: Step)
    requires Inv(w) && w.loop.draining && !ShouldFinish(w)
    ensures Enabled(w, step) && Internal(step)
  {
    if w.loop.at != AtSelect {
      step := LoopMoves(w);
    } else if i :| 0 <= i < |w.pipe.history.tickets| && !Pipeline.Done(w.pipe.history.tickets[i]) {
      step := PipeMoves(w);
    } else if w.loop.pollOpen {
      step := if w.poller == Polling then CoreFails(true)
              else if w.poller == Stopped then TakePollClosed else TakePollEvent(0);
    } else {
      NothingOutstanding(w.pipe);
      assert InProcessors(w.activations) != {};
      var a :| a in InProcessors(w.activations);
      step := ProcessorMoves(w, a);
    }
  }

  // ---- What is left to do ----

  function StageWeight(activation: Activation): nat {
    match activation.stage
    case AtPoller => 30
    case InProcessor(_) => 20
    case Attempted => 0
  }

  function TurnWeight(phase: Lanes.TurnPhase): nat {
    match phase
    case Reserved => 6
    case Processing => 5
    case Processed => 4
    case Settled(_) => 3
    case Closed(_) => 2
    case Released(_) => 0
  }

  function PollerWeight(poller: Poller): nat {
    match poller
    case Stopped => 0
    case Polling => 2
    case Sending(event) => if event.GotError? then 1 else 0
  }

  function LoopWeight(loop: Loop): nat {
    (if loop.pollOpen then 1 else 0) + (if loop.ctxArmed then 1 else 0)
  }

  function Work(w: World): int {
    Weigh(w.activations, StageWeight) + Weigh(w.lanes.phases, TurnWeight) + Pipeline.WorkLeft(w.pipe)
    + PollerWeight(w.poller) + LoopWeight(w.loop)
  }

  lemma LanesWeigh(t: Lanes.RunTable, s: Lanes.Step)
    requires Lanes.Enabled(t, s)
    ensures var was, now := Weigh(t.phases, TurnWeight), Weigh(Lanes.Apply(t, s).phases, TurnWeight);
            if s.ReserveTurn? then now == was + 6 else if s.SetRun? || s.DeleteRun? then now == was else now < was
  {
    var phases := Lanes.Apply(t, s).phases;
    if s.ReserveTurn? {
      WeighAppend(t.phases, Lanes.Reserved, TurnWeight);
    } else if !s.SetRun? && !s.DeleteRun? {
      assert phases == t.phases[s.turn := phases[s.turn]];
      WeighUpdate(t.phases, s.turn, phases[s.turn], TurnWeight);
    }
  }

  lemma PipeWeighs(p: Pipeline.Pipe, s: Pipeline.Step)
    requires Pipeline.Inv(p) && Pipeline.Enabled(p, s)
    ensures var was, now := Pipeline.WorkLeft(p), Pipeline.WorkLeft(Pipeline.Apply(p, s));
            if s.EnqueueTicket? then now <= was + 8 else now < was
  {
    if s.EnqueueTicket? {
      Pipeline.OfferWork(p, s.request);
    } else {
      Pipeline.StepDrains(p, s);
    }
  }

  /** What a step does to the two parts. */
  lemma PartsWeigh(w: World, step: Step)
    requires Inv(w) && Enabled(w, step) && Internal(step)
    ensures var v := Apply(w, step);
            && Pipeline.WorkLeft(v.pipe) <= Pipeline.WorkLeft(w.pipe)
                 + (if PipeStep(w, step).None? then 0 else if PipeStep(w, step).value.EnqueueTicket? then 8 else -1)
            && Weigh(v.lanes.phases, TurnWeight) <= Weigh(w.lanes.phases, TurnWeight)
                 + (if LanesStep(w, step).None? then 0 else if LanesStep(w, step).value.ReserveTurn? then 6 else -1)
  {
    PartsFacts(w);
    PipePart(w, step);
    LanesPart(w, step);
    if PipeStep(w, step).Some? {
      PipeWeighs(w.pipe, PipeStep(w, step).value);
    }
    if LanesStep(w, step).Some? {
      LanesWeigh(w.lanes, LanesStep(w, step).value);
    }
  }

  /** Handlers that hand on or start activation `a` leave all others where they are. */
  lemma StageWeighs(w: World, v: World, a: nat)
    requires a < |w.activations| == |v.activations| && v.activations == w.activations[a := v.activations[a]]
    ensures Weigh(v.activations, StageWeight) + StageWeight(w.activations[a])
            == Weigh(w.activations, StageWeight) + StageWeight(v.activations[a])
  {
    WeighUpdate(w.activations, a, v.activations[a], StageWeight);
  }

  /** What taking a poll event does to everything but pipeline and lanes. */
  lemma EventEffect(w: World, size: nat)
    requires Enabled(w, TakePollEvent(size))
    ensures var v := Apply(w, TakePollEvent(size));
            && LoopWeight(v.loop) <= LoopWeight(w.loop)
            && (match w.poller.event
                case GotError(_) => v.poller == Stopped && v.activations == w.activations
                case GotActivation(a, codecFailed) =>
                  && v.poller == Polling && |v.activations| == |w.activations|
                  && v.activations == w.activations[a := v.activations[a]]
                  && (if codecFailed || w.loop.activeProcessors >= w.limit then v.activations[a].stage == Attempted
                      else v.activations[a].stage.InProcessor?))
  {
  }

  lemma EventDescends(w: World, size: nat)
    requires Inv(w) && Enabled(w, TakePollEvent(size))
    ensures Work(Apply(w, TakePollEvent(size))) < Work(w)
  {
    PartsWeigh(w, TakePollEvent(size));
    EventEffect(w, size);
    if w.poller.event.GotActivation? {
      var a := w.poller.event.id;
      assert w.activations[a].stage == AtPoller;
      StageWeighs(w, Apply(w, TakePollEvent(size)), a);
    }
  }

  lemma ResultEffect(w: World, a: nat, completion: Option<nat>)
    requires Enabled(w, TakeProcessorResult(a, completion))
    ensures var v := Apply(w, TakeProcessorResult(a, completion));
            && LoopWeight(v.loop) <= LoopWeight(w.loop) && v.poller == w.poller
            && |v.activations| == |w.activations| && v.activations == w.activations[a := v.activations[a]]
            && v.activations[a].stage == Attempted
  {
  }

  lemma ResultDescends(w: World, a: nat, completion: Option<nat>)
    requires Inv(w) && Enabled(w, TakeProcessorResult(a, completion))
    ensures Work(Apply(w, TakeProcessorResult(a, completion))) < Work(w)
  {
    PartsWeigh(w, TakeProcessorResult(a, completion));
    ResultEffect(w, a, completion);
    StageWeighs(w, Apply(w, TakeProcessorResult(a, completion)), a);
  }

  predicate TakesActivation(step: Step) {
    step.TakePollEvent? || step.TakeProcessorResult?
  }

  /** Every other internal step moves the pipeline, the lanes, the poller or a flag. */
  lemma OtherEffect(w: World, step: Step)
    requires Enabled(w, step) && Internal(step) && !TakesActivation(step)
    requires w.loop.draining ==> !w.loop.ctxArmed
    ensures var v := Apply(w, step);
            && v.activations == w.activations
            && PollerWeight(v.poller) <= PollerWeight(w.poller) && LoopWeight(v.loop) <= LoopWeight(w.loop)
            && (PollerWeight(v.poller) + LoopWeight(v.loop) < PollerWeight(w.poller) + LoopWeight(w.loop)
                || PipeStep(w, step).Some? || LanesStep(w, step).Some?)
            && (PipeStep(w, step).Some? ==> !PipeStep(w, step).value.EnqueueTicket?)
            && (LanesStep(w, step).Some? ==> !LanesStep(w, step).value.ReserveTurn?)
  {
  }

  /** Every internal step leaves strictly less to do. */
  lemma StepDescends(w: World, step: Step)
    requires Inv(w) && Enabled(w, step) && Internal(step)
    ensures Work(Apply(w, step)) < Work(w)
  {
    match step
    case TakePollEvent(size) => EventDescends(w, size);
    case TakeProcessorResult(a, completion) => ResultDescends(w, a, completion);
    case _ =>
      PartsWeigh(w, step);
      OtherEffect(w, step);
  }

  lemma WorkNatural(w: World)
    ensures Work(w) >= 0
  {
    Pipeline.WorkIsNatural(w.pipe);
  }

  // ---- The main results ----

  /** Whatever happens without new activations from Core happens in at most `Work` steps. */
  lemma {:induction false} DrainBound(w: World, steps: seq<Step>)
    requires Inv(w) && Run(w, steps).Some? && forall k :: 0 <= k < |steps| ==> Internal(steps[k])
    ensures |steps| <= Work(w)
    decreases |steps|
  {
    WorkNatural(w);
    if steps != [] {
      StepKeeps(w, steps[0]);
      StepDescends(w, steps[0]);
      DrainBound(Apply(w, steps[0]), steps[1..]);
    }
  }

  /** Draining stays draining. */
  lemma DrainingLasts(w: World, step: Step)
    requires w.loop.draining && Enabled(w, step)
    ensures Apply(w, step).loop.draining
  {
  }

  /** One more step towards the end. */
  lemma Advance(w: World) returns (step: Step)
    requires Inv(w) && w.loop.draining && !ShouldFinish(w)
    ensures Enabled(w, step) && Internal(step)
    ensures Inv(Apply(w, step)) && Apply(w, step).loop.draining && 0 <= Work(Apply(w, step)) < Work(w)
  {
    step := NeverStuck(w);
    StepKeeps(w, step);
    StepDescends(w, step);
    DrainingLasts(w, step);
    WorkNatural(Apply(w, step));
  }

  /** These internal steps lead to the end. */
  ghost predicate Leads(w: World, steps: seq<Step>) {
    && Run(w, steps).Some? && ShouldFinish(Run(w, steps).value)
    && forall k :: 0 <= k < |steps| ==> Internal(steps[k])
  }

  lemma LeadsFrom(w: World, step: Step, rest: seq<Step>)
    requires Enabled(w, step) && Internal(step) && Leads(Apply(w, step), rest)
    ensures Leads(w, [step] + rest)
  {
    RunCons(w, step, rest);
  }

  lemma {:induction false} FinishesWithin(w: World, bound: nat) returns (steps: seq<Step>)
    requires Inv(w) && w.loop.draining && Work(w) <= bound
    ensures Leads(w, steps)
    decreases bound
  {
    if ShouldFinish(w) {
      steps := [];
    } else {
      var step := Advance(w);
      var rest := FinishesWithin(Apply(w, step), bound - 1);
      LeadsFrom(w, step, rest);
      steps := [step] + rest;
    }
  }

  /**
   From every reachable state in which the loop drains it can finish without any further activation, and
   however the steps are chosen it does: DrainBound bounds them, NeverStuck provides them.
   */
  lemma DrainFinishes(w: World) returns (steps: seq<Step>)
    requires Inv(w) && w.loop.draining
    ensures Leads(w, steps)
  {
    WorkNatural(w);
    steps := FinishesWithin(w, Work(w));
  }

  lemma RunCons(w: World, step: Step, rest: seq<Step>)
    requires Enabled(w, step)
    ensures Run(w, [step] + rest) == Run(Apply(w, step), rest)
  {
    assert ([step] + rest)[1..] == rest;
  }

  /** A run that can take no internal step any more has finished. */
  lemma StoppedMeansFinished(configured: int, steps: seq<Step>)
    requires Run(Start(configured), steps).Some? && Run(Start(configured), steps).value.loop.draining
    requires forall step :: Internal(step) ==> !Enabled(Run(Start(configured), steps).value, step)
    ensures ShouldFinish(Run(Start(configured), steps).value)
  {
    ReachableInv(configured, steps);
    if !ShouldFinish(Run(Start(configured), steps).value) {
      var step := NeverStuck(Run(Start(configured), steps).value);
    }
  }
}
