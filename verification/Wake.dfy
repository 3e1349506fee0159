/**
 How operations on the bridge wait for gRPC responses. An operation (a driver) captures the wake
 generation, has the owner run one step for it, and sleeps on that generation when the step got
 nowhere. The step drains the response queue and starts the calls that Core asks for; each call runs in
 its own goroutine, puts its response into the queue and only then signals, which ends the generation.

 Generations are numbered. Drivers, the owner and the calls interleave freely; Core, the server and the
 context of a driver do what they like.
 */
module Wake {
  import opened Basics

  const MAX_CALLS: nat := 64
  const QUEUE_CAPACITY: nat := 16

  /** A call, its response queued, its response taken by the owner, or given up after the bridge closed. */
  datatype Place = Calling | Queued | Drained | Dropped

  datatype Call = Call(place: Place, signalled: bool)

  /** Where the owner is in `driveOperationStep` and `pumpGRPC`. */
  datatype OwnerAt =
    | Free
    | Taking(driver: Option<nat>)
    | Receiving(driver: Option<nat>, progressed: bool)
    | Starting(driver: Option<nat>, progressed: bool)

  /** `seen` is history: the calls whose responses were taken before the step of this driver ended. */
  datatype Driver =
    | Ready
    | Captured(generation: nat)
    | InStep(generation: nat)
    | Sleeping(generation: nat, seen: set<nat>)

  datatype Bridge = Bridge(
    generation: nat, queue: seq<nat>, inFlight: nat, closed: bool,
    owner: OwnerAt, drivers: map<nat, Driver>, calls: seq<Call>)

  const OPEN := Bridge(0, [], 0, false, Free, map[], [])

  // ---- Steps ----

  datatype Step =
    | Capture(driver: nat)                // currentWake
    | BeginStep(driver: nat)              // the owner takes the driver's request
    | Abandon(driver: nat)                // the driver's context ended
    | TakeResult(ready: bool)
    | Fail                                // an error ends the step
    | Panic                               // poison
    | Receive(ok: bool)
    | SeeEmpty
    | StartCall
    | StopStarting
    | WakeUp(driver: nat)                 // the generation it slept on has ended
    | TimeOut(driver: nat)
    | Respond(call: nat)                  // the goroutine of a call
    | Drop(call: nat)
    | Signal(call: nat)
    | Close

  function DriverAt(b: Bridge, d: nat): Driver {
    if d in b.drivers then b.drivers[d] else Ready
  }

  predicate CallIs(b: Bridge, c: nat, place: Place) {
    c < |b.calls| && b.calls[c].place == place
  }

  predicate Enabled(b: Bridge, step: Step) {
    match step
    case Capture(d) => DriverAt(b, d) == Ready
    case BeginStep(d) => DriverAt(b, d).Captured? && b.owner == Free
    case Abandon(d) => true
    case TakeResult(_) => b.owner.Taking?
    case Fail => b.owner != Free
    case Panic => b.owner != Free
    case Receive(_) => b.owner.Receiving? && b.queue != [] && b.queue[0] < |b.calls|
    case SeeEmpty => b.owner.Receiving? && b.queue == []
    case StartCall => b.owner.Starting? && b.inFlight < MAX_CALLS
    case StopStarting => b.owner.Starting?
    case WakeUp(d) => DriverAt(b, d).Sleeping? && DriverAt(b, d).generation != b.generation
    case TimeOut(d) => DriverAt(b, d).Sleeping?
    case Respond(c) => CallIs(b, c, Calling) && |b.queue| < QUEUE_CAPACITY
    case Drop(c) => CallIs(b, c, Calling) && b.closed
    case Signal(c) => (CallIs(b, c, Queued) || CallIs(b, c, Drained)) && !b.calls[c].signalled
    case Close => true
  }

  function SetCall(b: Bridge, c: nat, call: Call): Bridge
    requires c < |b.calls|
  {
    b.(calls := b.calls[c := call])
  }

  ghost function DrainedCalls(calls: seq<Call>): set<nat> {
    set c: nat | c < |calls| && calls[c].place == Drained
  }

  ghost function SetDriver(b: Bridge, d: Option<nat>, state: Driver): Bridge {
    if d == None then b else b.(drivers := b.drivers[d.value := state])
  }

  /** The owner is done with the step; a driver that still waits for the reply gets it. */
  ghost function EndStep(b: Bridge, state: Driver): Bridge
    requires b.owner != Free
  {
    SetDriver(b, b.owner.driver, state).(owner := Free)
  }

  /** The driver sleeps on the generation it captured before the step. */
  ghost function FallAsleep(b: Bridge, d: Option<nat>): Driver {
    if d.Some? && DriverAt(b, d.value).InStep?
    then Sleeping(DriverAt(b, d.value).generation, DrainedCalls(b.calls)) else Ready
  }

  ghost function Apply(b: Bridge, step: Step): Bridge
    requires Enabled(b, step)
  {
    match step
    case Capture(d) => SetDriver(b, Some(d), Captured(b.generation))
    case BeginStep(d) => SetDriver(b, Some(d), InStep(DriverAt(b, d).generation)).(owner := Taking(Some(d)))
    case Abandon(d) =>
      var b1 := SetDriver(b, Some(d), Ready);
      if b.owner != Free && b.owner.driver == Some(d) then b1.(owner := b.owner.(driver := None)) else b1
    case TakeResult(ready) => if ready then EndStep(b, Ready) else b.(owner := Receiving(b.owner.driver, false))
    case Fail => EndStep(b, Ready)
    case Panic => EndStep(b, Ready).(closed := true, generation := b.generation + 1)
    case Receive(ok) =>
      var c := b.queue[0];
      var b1 := SetCall(b, c, b.calls[c].(place := Drained))
                  .(queue := b.queue[1..], inFlight := if b.inFlight == 0 then 0 else b.inFlight - 1);
      if ok && b.inFlight > 0 then b1.(owner := Receiving(b.owner.driver, true)) else EndStep(b1, Ready)
    case SeeEmpty => b.(owner := Starting(b.owner.driver, b.owner.progressed))
    case StartCall => b.(inFlight := b.inFlight + 1, calls := b.calls + [Call(Calling, false)])
    case StopStarting =>
      if b.owner.progressed then b.(owner := Taking(b.owner.driver)) else EndStep(b, FallAsleep(b, b.owner.driver))
    case WakeUp(d) => SetDriver(b, Some(d), Ready)
    case TimeOut(d) => SetDriver(b, Some(d), Ready)
    case Respond(c) => SetCall(b, c, b.calls[c].(place := Queued)).(queue := b.queue + [c])
    case Drop(c) => SetCall(b, c, b.calls[c].(place := Dropped))
    case Signal(c) => SetCall(b, c, b.calls[c].(signalled := true)).(generation := b.generation + 1)
    case Close => b.(closed := true, generation := b.generation + 1)
  }

  ghost function Run(b: Bridge, steps: seq<Step>): Option<Bridge>
    decreases |steps|
  {
    if steps == [] then Some(b)
    else if !Enabled(b, steps[0]) then None
    else Run(Apply(b, steps[0]), steps[1..])
  }

  // ---- The invariant ----

  /** The calls whose responses the owner has not taken. */
  ghost function Undrained(calls: seq<Call>): set<nat> {
    set c: nat | c < |calls| && calls[c].place != Drained
  }

  ghost predicate CallsOk(calls: seq<Call>, queue: seq<nat>, inFlight: nat) {
    && inFlight == |Undrained(calls)| <= MAX_CALLS && |queue| <= QUEUE_CAPACITY
    && (forall c :: 0 <= c < |calls| ==> (calls[c].place == Queued <==> c in queue))
    && (forall c :: c in queue ==> c < |calls|)
    && (forall i, j :: 0 <= i < j < |queue| ==> queue[i] != queue[j])
    && (forall c :: 0 <= c < |calls| && calls[c].signalled ==> calls[c].place == Queued || calls[c].place == Drained)
  }

  /** Every signal so far came from a call whose response has been taken. */
  ghost predicate AllTaken(calls: seq<Call>) {
    forall c :: 0 <= c < |calls| && calls[c].signalled ==> calls[c].place == Drained
  }

  /** The owner works for a driver that waits for its reply, or for one that has gone. */
  ghost predicate OwnerOk(b: Bridge) {
    b.owner != Free && b.owner.driver.Some? ==> DriverAt(b, b.owner.driver.value).InStep?
  }

  ghost predicate DriverOk(b: Bridge, d: nat)
    requires d in b.drivers
  {
    match b.drivers[d]
    case Ready => true
    case Captured(g) => g <= b.generation
    case InStep(g) =>
      && g <= b.generation && b.owner != Free && b.owner.driver == Some(d)
      && (g == b.generation && b.owner.Starting? ==> AllTaken(b.calls))
    case Sleeping(g, seen) =>
      && g <= b.generation
      && (g == b.generation ==> forall c :: 0 <= c < |b.calls| && b.calls[c].signalled ==> c in seen)
      && seen <= DrainedCalls(b.calls)
  }

  ghost predicate DriversOk(b: Bridge) {
    OwnerOk(b) && forall d :: d in b.drivers ==> DriverOk(b, d)
  }

  ghost predicate Inv(b: Bridge) {
    CallsOk(b.calls, b.queue, b.inFlight) && DriversOk(b)
  }

  // ---- Every step keeps it ----

  lemma ReceiveCalls(b: Bridge)
    requires CallsOk(b.calls, b.queue, b.inFlight) && b.queue != []
    ensures b.inFlight > 0 && b.queue[0] < |b.calls|
    ensures CallsOk(b.calls[b.queue[0] := b.calls[b.queue[0]].(place := Drained)], b.queue[1..], b.inFlight - 1)
  {
    var c := b.queue[0];
    assert c in b.queue && c in Undrained(b.calls);
    assert b.queue == [c] + b.queue[1..];
    var calls := b.calls[c := b.calls[c].(place := Drained)];
    assert Undrained(calls) == Undrained(b.calls) - {c};
    var rest := b.queue[1..];
    assert forall i :: 0 <= i < |rest| ==> rest[i] == b.queue[i + 1];
    assert forall d :: d in rest ==> d in b.queue;
    forall d | 0 <= d < |calls|
      ensures calls[d].place == Queued <==> d in b.queue[1..]
    {
      assert d in b.queue <==> d == c || d in b.queue[1..];
      assert c !in b.queue[1..];
    }
  }

  lemma RespondCalls(b: Bridge, c: nat)
    requires CallsOk(b.calls, b.queue, b.inFlight) && Enabled(b, Respond(c))
    ensures CallsOk(b.calls[c := b.calls[c].(place := Queued)], b.queue + [c], b.inFlight)
  {
    var calls := b.calls[c := b.calls[c].(place := Queued)];
    assert Undrained(calls) == Undrained(b.calls);
  }

  lemma CallStepCalls(b: Bridge, step: Step)
    requires CallsOk(b.calls, b.queue, b.inFlight) && Enabled(b, step)
    requires step.StartCall? || step.Drop? || step.Signal?
    ensures CallsOk(Apply(b, step).calls, Apply(b, step).queue, Apply(b, step).inFlight)
  {
    assert Undrained(Apply(b, step).calls) == Undrained(b.calls) + (if step.StartCall? then {|b.calls|} else {});
  }

  lemma StepCalls(b: Bridge, step: Step)
    requires CallsOk(b.calls, b.queue, b.inFlight) && Enabled(b, step)
    ensures CallsOk(Apply(b, step).calls, Apply(b, step).queue, Apply(b, step).inFlight)
  {
    match step
    case Receive(_) => ReceiveCalls(b);
    case Respond(c) => RespondCalls(b, c);
    case StartCall => CallStepCalls(b, step);
    case Drop(_) => CallStepCalls(b, step);
    case Signal(_) => CallStepCalls(b, step);
    case _ =>
  }

  /** What a driver does by itself. */
  lemma OwnSteps(b: Bridge, step: Step)
    requires DriversOk(b) && Enabled(b, step)
    requires step.Capture? || step.BeginStep? || step.Abandon? || step.WakeUp? || step.TimeOut?
    ensures DriversOk(Apply(b, step))
  {
    var b' := Apply(b, step);
    forall d | d in b'.drivers
      ensures DriverOk(b', d)
    {
      assert d in b.drivers ==> DriverOk(b, d);
    }
  }

  /** A new generation leaves nobody asleep on the current one. */
  lemma SignalSteps(b: Bridge, step: Step)
    requires DriversOk(b) && Enabled(b, step) && (step.Signal? || step.Close? || step.Panic?)
    ensures DriversOk(Apply(b, step))
  {
    var b' := Apply(b, step);
    assert DrainedCalls(b'.calls) == DrainedCalls(b.calls);
    forall d | d in b'.drivers
      ensures DriverOk(b', d)
    {
      assert d in b.drivers ==> DriverOk(b, d);
    }
  }

  lemma CallSteps(b: Bridge, step: Step)
    requires DriversOk(b) && Enabled(b, step) && (step.Respond? || step.Drop? || step.StartCall?)
    requires forall c :: 0 <= c < |b.calls| && b.calls[c].signalled ==> b.calls[c].place != Calling
    ensures DriversOk(Apply(b, step))
  {
    var b' := Apply(b, step);
    assert DrainedCalls(b'.calls) == DrainedCalls(b.calls);
    forall d | d in b'.drivers
      ensures DriverOk(b', d)
    {
      assert DriverOk(b, d);
    }
  }

  lemma OwnerSteps(b: Bridge, step: Step)
    requires Inv(b) && Enabled(b, step)
    requires step.TakeResult? || step.Fail? || step.SeeEmpty? || step.StopStarting?
    ensures DriversOk(Apply(b, step))
  {
    var b' := Apply(b, step);
    forall d | d in b'.drivers
      ensures DriverOk(b', d)
    {
      assert DriverOk(b, d);
    }
  }

  lemma ReceiveSteps(b: Bridge, ok: bool)
    requires DriversOk(b) && Enabled(b, Receive(ok))
    ensures DriversOk(Apply(b, Receive(ok)))
  {
    var b' := Apply(b, Receive(ok));
    assert DrainedCalls(b'.calls) == DrainedCalls(b.calls) + {b.queue[0]};
    forall d | d in b'.drivers
      ensures DriverOk(b', d)
    {
      assert DriverOk(b, d);
    }
  }

  lemma StepKeeps(b: Bridge, step: Step)
    requires Inv(b) && Enabled(b, step)
    ensures Inv(Apply(b, step))
  {
    StepCalls(b, step);
    match step
    case Signal(_) => SignalSteps(b, step);
    case Close => SignalSteps(b, step);
    case Panic => SignalSteps(b, step);
    case Respond(_) => CallSteps(b, step);
    case Drop(_) => CallSteps(b, step);
    case StartCall => CallSteps(b, step);
    case Receive(ok) => ReceiveSteps(b, ok);
    case TakeResult(_) => OwnerSteps(b, step);
    case Fail => OwnerSteps(b, step);
    case SeeEmpty => OwnerSteps(b, step);
    case StopStarting => OwnerSteps(b, step);
    case _ => OwnSteps(b, step);
  }

  lemma {:induction false} RunKeeps(b: Bridge, steps: seq<Step>)
    requires Inv(b) && Run(b, steps).Some?
    ensures Inv(Run(b, steps).value)
    decreases |steps|
  {
    if steps != [] {
      StepKeeps(b, steps[0]);
      RunKeeps(Apply(b, steps[0]), steps[1..]);
    }
  }

  lemma ReachableInv(steps: seq<Step>)
    requires Run(OPEN, steps).Some?
    ensures Inv(Run(OPEN, steps).value)
  {
    assert Undrained(OPEN.calls) == {};
    RunKeeps(OPEN, steps);
  }

  // ---- The main results ----

  /**
   No lost wakeup. A driver sleeps on the current generation: every response that was not taken before
   its step ended, in particular every one still queued, has its signal yet to come, and that signal
   will wake the driver.
   */
  lemma NoLostWakeup(steps: seq<Step>, d: nat, c: nat)
    requires Run(OPEN, steps).Some?
    requires var b := Run(OPEN, steps).value;
             && DriverAt(b, d).Sleeping? && DriverAt(b, d).generation == b.generation
             && (CallIs(b, c, Queued) || (CallIs(b, c, Drained) && c !in DriverAt(b, d).seen))
    ensures var b := Run(OPEN, steps).value;
            && Enabled(b, Signal(c)) && !Enabled(b, WakeUp(d))
            && Enabled(Apply(b, Signal(c)), WakeUp(d))
  {
    ReachableInv(steps);
    var b := Run(OPEN, steps).value;
    assert DriverOk(b, d);
    if CallIs(b, c, Queued) {
      assert c !in DrainedCalls(b.calls);
    }
  }

  /** Calls in flight are exactly those whose response has not been taken, at most 64 at a time. */
  lemma InFlightConserved(steps: seq<Step>)
    requires Run(OPEN, steps).Some?
    ensures var b := Run(OPEN, steps).value;
            && b.inFlight + |DrainedCalls(b.calls)| == |b.calls| && b.inFlight <= 64
            && (b.owner.Starting? && b.inFlight < 64 ==> Enabled(b, StartCall))
  {
    ReachableInv(steps);
    var b := Run(OPEN, steps).value;
    assert Undrained(b.calls) + DrainedCalls(b.calls) == Below(|b.calls|);
    assert Undrained(b.calls) !! DrainedCalls(b.calls);
    assert |Undrained(b.calls) + DrainedCalls(b.calls)| == |Undrained(b.calls)| + |DrainedCalls(b.calls)|;
  }

  /** A response never arrives with no call in flight, and each is taken at most once. */
  lemma NoStrayResponse(steps: seq<Step>)
    requires Run(OPEN, steps).Some? && Run(OPEN, steps).value.queue != []
    ensures var b := Run(OPEN, steps).value;
            b.inFlight > 0 && CallIs(b, b.queue[0], Queued) && b.queue[0] !in b.queue[1..]
  {
    ReachableInv(steps);
    var b := Run(OPEN, steps).value;
    ReceiveCalls(b);
    assert b.queue[0] in b.queue;
  }

  /**
   A step that reports that nothing happened has left no response whose signal its driver could miss:
   when no signal came since the generation was captured, every signalled response has been taken.
   */
  lemma QuietStepTookAll(steps: seq<Step>, d: nat)
    requires Run(OPEN, steps).Some?
    requires var b := Run(OPEN, steps).value;
             b.owner.Starting? && b.owner.driver == Some(d) && DriverAt(b, d) == InStep(b.generation)
    ensures AllTaken(Run(OPEN, steps).value.calls)
  {
    ReachableInv(steps);
    assert DriverOk(Run(OPEN, steps).value, d);
  }

  /** The driver holds this generation, wherever it is; or it is not waiting. */
  ghost predicate Holds(b: Bridge, d: nat, g: nat) {
    match DriverAt(b, d)
    case Ready => true
    case Captured(h) => h == g
    case InStep(h) => h == g
    case Sleeping(h, _) => h == g
  }

  lemma StepHolds(b: Bridge, step: Step, d: nat, g: nat)
    requires Inv(b) && Enabled(b, step) && Holds(b, d, g) && step != Capture(d)
    ensures Holds(Apply(b, step), d, g)
  {
  }

  /**
   No idle wakeup: a driver that captured a generation is not woken, but for the timer, until a response
   is signalled or the bridge closes.
   */
  lemma {:induction false} NoIdleWakeup(b: Bridge, steps: seq<Step>, d: nat)
    requires Inv(b) && Holds(b, d, b.generation) && Run(b, steps).Some?
    requires forall k :: 0 <= k < |steps| ==>
               !steps[k].Signal? && !steps[k].Close? && !steps[k].Panic? && steps[k] != Capture(d)
    ensures !Enabled(Run(b, steps).value, WakeUp(d))
    decreases |steps|
  {
    if steps != [] {
      StepHolds(b, steps[0], d, b.generation);
      StepKeeps(b, steps[0]);
      NoIdleWakeup(Apply(b, steps[0]), steps[1..], d);
    }
  }

  /**
   A response that was taken is progress, and after progress Core is asked for the result again; only a
   pump without any lets its driver sleep, on the generation it captured.
   */
  lemma ProgressIsRetried(b: Bridge, d: nat, g: nat)
    requires Inv(b) && b.owner != Free && b.owner.driver == Some(d) && DriverAt(b, d) == InStep(g)
    ensures Enabled(b, TakeResult(false)) ==> Apply(b, TakeResult(false)).owner == Receiving(Some(d), false)
    ensures Enabled(b, TakeResult(true)) ==>
              DriverAt(Apply(b, TakeResult(true)), d) == Ready && Apply(b, TakeResult(true)).owner == Free
    ensures Enabled(b, Receive(true)) ==> Apply(b, Receive(true)).owner == Receiving(Some(d), true)
    ensures Enabled(b, SeeEmpty) ==> Apply(b, SeeEmpty).owner == Starting(Some(d), b.owner.progressed)
    ensures Enabled(b, StartCall) ==> Apply(b, StartCall).owner == b.owner
    ensures Enabled(b, StopStarting) ==>
              var b1 := Apply(b, StopStarting);
              if b.owner.progressed then b1.owner == Taking(Some(d)) && DriverAt(b1, d) == InStep(g)
              else b1.owner == Free && DriverAt(b1, d).Sleeping? && DriverAt(b1, d).generation == g
  {
    if Enabled(b, Receive(true)) {
      ReceiveCalls(b);
    }
  }

  /** Closing the bridge, and a panic of its owner, end the generation: whoever sleeps is woken. */
  lemma ClosingWakesAll(b: Bridge, d: nat)
    requires Inv(b) && DriverAt(b, d).Sleeping?
    ensures Apply(b, Close).closed && Enabled(Apply(b, Close), WakeUp(d))
    ensures Enabled(b, Panic) ==>
              && Apply(b, Panic).closed && Apply(b, Panic).owner == Free
              && (Enabled(Apply(b, Panic), WakeUp(d)) || b.owner.driver == Some(d))
  {
    assert DriverOk(b, d);
  }

  /** A driver that is woken, timed out or abandoned starts afresh, and leaves the others alone. */
  lemma WakingStartsAfresh(b: Bridge, step: Step, d: nat)
    requires Enabled(b, step) && (step.WakeUp? || step.TimeOut? || step.Abandon?)
    ensures DriverAt(Apply(b, step), step.driver) == Ready
    ensures d != step.driver ==> DriverAt(Apply(b, step), d) == DriverAt(b, d)
    ensures Apply(b, step).calls == b.calls && Apply(b, step).queue == b.queue
            && Apply(b, step).generation == b.generation
  {
  }

  /** Capturing takes the current generation, and ends with whoever signals next. */
  lemma CaptureIsCurrent(b: Bridge, d: nat, c: nat)
    requires Enabled(b, Capture(d))
    ensures var b1 := Apply(b, Capture(d));
            && Holds(b1, d, b1.generation) && !DriverAt(b1, d).Ready?
            && (Enabled(b1, Signal(c)) ==> !Holds(Apply(b1, Signal(c)), d, Apply(b1, Signal(c)).generation))
  {
  }

  // ---- The pump as loops ----

  /** What these steps make of a new bridge. */
  ghost predicate Reached(b: Bridge, steps: seq<Step>) {
    Run(OPEN, steps) == Some(b)
  }

  lemma {:induction false} RunAppend(b: Bridge, steps: seq<Step>, step: Step)
    requires Run(b, steps).Some? && Enabled(Run(b, steps).value, step)
    ensures Run(b, steps + [step]) == Some(Apply(Run(b, steps).value, step))
    decreases |steps|
  {
    if steps == [] {
      assert (steps + [step])[1..] == [];
      assert Run(Apply(b, step), []) == Some(Apply(b, step));
    } else {
      assert (steps + [step])[1..] == steps[1..] + [step];
      RunAppend(Apply(b, steps[0]), steps[1..], step);
    }
  }

  /** Steps that are not the owner's. */
  predicate IsForeign(step: Step) {
    || step.Capture? || step.Abandon? || step.WakeUp? || step.TimeOut?
    || step.Respond? || step.Drop? || step.Signal? || step.Close?
  }

  lemma {:induction false} ForeignKeepsOwner(b: Bridge, steps: seq<Step>)
    requires Run(b, steps).Some? && forall k :: 0 <= k < |steps| ==> IsForeign(steps[k])
    ensures var b' := Run(b, steps).value;
            && b'.inFlight == b.inFlight && |b'.calls| == |b.calls|
            && (b.owner.Receiving? ==> b'.owner.Receiving? && b'.owner.progressed == b.owner.progressed)
            && (b.owner.Starting? ==> b'.owner.Starting? && b'.owner.progressed == b.owner.progressed)
    decreases |steps|
  {
    if steps != [] {
      ForeignKeepsOwner(Apply(b, steps[0]), steps[1..]);
    }
  }

  /** The generation that the driver of this step captured has not ended. */
  ghost predicate StillCurrent(b: Bridge) {
    b.owner != Free && b.owner.driver.Some? && DriverAt(b, b.owner.driver.value) == InStep(b.generation)
  }

  class BridgeOwner {
    var generation: nat
    var queue: seq<nat>
    var inFlight: nat
    ghost var bridge: Bridge
    ghost var steps: seq<Step>

    ghost predicate Valid()
      reads this
    {
      && Reached(bridge, steps)
      && generation == bridge.generation && queue == bridge.queue && inFlight == bridge.inFlight
    }

    constructor ()
      ensures Valid() && bridge == OPEN
    {
      generation, queue, inFlight := 0, [], 0;
      bridge, steps := OPEN, [];
    }

    ghost method Record(step: Step)
      requires Reached(bridge, steps) && Enabled(bridge, step)
      modifies this`bridge, this`steps
      ensures Reached(bridge, steps) && bridge == Apply(old(bridge), step)
    {
      RunAppend(OPEN, steps, step);
      steps := steps + [step];
      bridge := Apply(bridge, step);
    }

    /**
     Other goroutines run. A caller may rely on the contract only: any foreign steps may have happened.
     The body is one of the things that can happen.
     */
    method Yield() returns (ghost others: seq<Step>)
      requires Valid()
      modifies this
      ensures Valid() && (forall k :: 0 <= k < |others| ==> IsForeign(others[k]))
      ensures Run(old(bridge), others) == Some(bridge)
    {
      others := [];
    }

    /** `deliverGRPCResponse`, first half: the response goes into the queue. */
    method Deliver(call: nat)
      requires Valid() && Enabled(bridge, Respond(call))
      modifies this
      ensures Valid() && bridge == Apply(old(bridge), Respond(call))
    {
      queue := queue + [call];
      Record(Respond(call));
    }

    /** Second half: the generation ends. */
    method SignalWake(ghost call: nat)
      requires Valid() && Enabled(bridge, Signal(call))
      modifies this
      ensures Valid() && bridge == Apply(old(bridge), Signal(call))
    {
      generation := generation + 1;
      Record(Signal(call));
    }

    /**
     `pumpGRPC`: takes every queued response, then starts the calls that Core asks for. It always
     returns, since every response it takes was in flight. Without error, all responses that were
     signalled have been taken, unless a signal came after the driver captured its generation.
     */
    method PumpGRPC() returns (progressed: bool, failed: bool)
      requires Valid() && bridge.owner.Receiving? && !bridge.owner.progressed
      modifies this
      ensures Valid()
      ensures !failed ==> bridge.owner.Starting? && bridge.owner.progressed == progressed
      ensures !failed && StillCurrent(bridge) ==> AllTaken(bridge.calls)
      ensures failed ==> bridge.owner == Free
    {
      progressed, failed := TakeResponses();
      if !failed {
        failed := StartCalls();
      }
      if !failed && StillCurrent(bridge) {
        QuietStepTookAll(steps, bridge.owner.driver.value);
      }
    }

    method TakeResponses() returns (progressed: bool, failed: bool)
      requires Valid() && bridge.owner.Receiving? && !bridge.owner.progressed
      modifies this
      ensures Valid()
      ensures !failed ==> bridge.owner.Starting? && bridge.owner.progressed == progressed
      ensures failed ==> bridge.owner == Free
    {
      progressed := false;
      while true
        invariant Valid() && bridge.owner.Receiving? && bridge.owner.progressed == progressed
        decreases inFlight
      {
        ghost var before := bridge;
        ghost var others := Yield();
        ForeignKeepsOwner(before, others);
        if |queue| == 0 {
          Record(SeeEmpty);
          return progressed, false;
        }
        NoStrayResponse(steps);
        var ok: bool := *;
        Record(Receive(ok));
        queue, inFlight := queue[1..], inFlight - 1;
        if !ok {
          return progressed, true;
        }
        progressed := true;
      }
    }

    /** Core is asked for requests until it has none, or fails, or enough calls are in flight. */
    method StartCalls() returns (failed: bool)
      requires Valid() && bridge.owner.Starting?
      modifies this
      ensures Valid()
      ensures !failed ==> bridge.owner.Starting? && bridge.owner.progressed == old(bridge.owner.progressed)
      ensures failed ==> bridge.owner == Free
    {
      while inFlight < MAX_CALLS
        invariant Valid() && bridge.owner.Starting? && bridge.owner.progressed == old(bridge.owner.progressed)
        decreases MAX_CALLS - inFlight
      {
        ghost var before := bridge;
        ghost var others := Yield();
        ForeignKeepsOwner(before, others);
        var error: bool, request: bool := *, *;
        if error {
          Record(Fail);
          return true;
        }
        if !request {
          return false;
        }
        Record(StartCall);
        inFlight := inFlight + 1;
      }
      failed := false;
    }
  }
}
