/**
 Turns on the lane of a workflow run. A turn waits for the turn that was the tail of its lane when it
 was reserved; a lane without turns and without a cached run is deleted and made anew when needed.
 Turns and lanes are numbered in the order of their creation. Reserving, waiting, processing, closing
 and releasing interleave freely; only what the source does under its mutex is one step.
 */
module Lanes {
  import opened Basics

  /** What came of the completion of a turn before the turn was given up. */
  datatype Ending = CompletionSubmitted | CompletionRejected | NoCompletion

  datatype TurnPhase =
    | Reserved            // waiting for its predecessor
    | Processing          // past `wait`, inside the activation
    | Processed           // its completion is on the way to the pipeline, or in it
    | Settled(how: Ending)
    | Closed(how: Ending) // `done` is closed, the mutex not yet taken
    | Released(how: Ending)

  datatype Turn = Turn(run: string, lane: nat, ready: Option<nat>)

  /** `tail` is the last turn of the lane, whose `done` channel the next one will wait for. */
  datatype Lane = Lane(run: string, tail: Option<nat>, refs: int)

  /**
   Turn `i` is `turns[i]`, and has come to `phases[i]`. `passed` is history: the turns that went past
   `wait`, in that order.
   */
  datatype RunTable = RunTable(
    turns: seq<Turn>, phases: seq<TurnPhase>,
    lanes: seq<Lane>, runLocks: map<string, nat>, runs: set<string>, passed: seq<nat>)

  const EMPTY := RunTable([], [], [], map[], {}, [])

  // ---- Steps ----

  predicate IsClosed(phase: TurnPhase) {
    phase.Closed? || phase.Released?
  }

  /** Between `wait` and the closing of `done`. */
  predicate Holds(phase: TurnPhase) {
    phase.Processing? || phase.Processed? || phase.Settled?
  }

  predicate LocksTo(runLocks: map<string, nat>, run: string, lane: nat) {
    run in runLocks && runLocks[run] == lane
  }

  /** The lane of a run, made anew when there is none. */
  function LaneFor(t: RunTable, run: string): (nat, RunTable) {
    if run in t.runLocks then (t.runLocks[run], t)
    else (|t.lanes|, t.(lanes := t.lanes + [Lane(run, None, 0)], runLocks := t.runLocks[run := |t.lanes|]))
  }

  function Join(t: RunTable, run: string, lane: nat): RunTable
    requires lane < |t.lanes|
  {
    t.(turns := t.turns + [Turn(run, lane, t.lanes[lane].tail)],
       phases := t.phases + [Reserved],
       lanes := t.lanes[lane := t.lanes[lane].(tail := Some(|t.turns|), refs := t.lanes[lane].refs + 1)])
  }

  function SetPhase(t: RunTable, i: nat, phase: TurnPhase): RunTable
    requires i < |t.phases|
  {
    t.(phases := t.phases[i := phase])
  }

  predicate Exists(t: RunTable, i: nat) {
    i < |t.turns| && i < |t.phases| && t.turns[i].lane < |t.lanes|
  }

  /** The part of `releaseRunTurn` under the mutex. */
  function Release(t: RunTable, i: nat): RunTable
    requires Exists(t, i) && t.phases[i].Closed?
  {
    var turn := t.turns[i];
    var refs := t.lanes[turn.lane].refs - 1;
    var idle := refs == 0 && turn.run !in t.runs && LocksTo(t.runLocks, turn.run, turn.lane);
    SetPhase(t, i, Released(t.phases[i].how))
      .(lanes := t.lanes[turn.lane := t.lanes[turn.lane].(refs := refs)],
        runLocks := if idle then t.runLocks - {turn.run} else t.runLocks)
  }

  datatype Step =
    | ReserveTurn(run: string)
    | PassWait(turn: nat)
    | SetRun(turn: nat)                 // the activation caches its run
    | DeleteRun(turn: nat)              // or evicts it
    | Complete(turn: nat)
    | Settle(turn: nat, how: Ending)
    | CloseDone(turn: nat)
    | ReleaseTurn(turn: nat)

  predicate MayPass(t: RunTable, i: nat) {
    && Exists(t, i) && t.phases[i] == Reserved
    && match t.turns[i].ready
       case None => true
       case Some(k) => k < |t.phases| && IsClosed(t.phases[k])
  }

  predicate Enabled(t: RunTable, step: Step) {
    match step
    case ReserveTurn(run) => LaneFor(t, run).0 < |LaneFor(t, run).1.lanes|
    case PassWait(i) => MayPass(t, i)
    case SetRun(i) => Exists(t, i) && t.phases[i] == Processing
    case DeleteRun(i) => Exists(t, i) && t.phases[i] == Processing
    case Complete(i) => Exists(t, i) && t.phases[i] == Processing
    case Settle(i, _) => Exists(t, i) && t.phases[i] == Processed
    case CloseDone(i) => Exists(t, i) && t.phases[i].Settled?
    case ReleaseTurn(i) => Exists(t, i) && t.phases[i].Closed?
  }

  function Apply(t: RunTable, step: Step): RunTable
    requires Enabled(t, step)
  {
    match step
    case ReserveTurn(run) => Join(LaneFor(t, run).1, run, LaneFor(t, run).0)
    case PassWait(i) => SetPhase(t, i, Processing).(passed := t.passed + [i])
    case SetRun(i) => t.(runs := t.runs + {t.turns[i].run})
    case DeleteRun(i) => t.(runs := t.runs - {t.turns[i].run})
    case Complete(i) => SetPhase(t, i, Processed)
    case Settle(i, how) => SetPhase(t, i, Settled(how))
    case CloseDone(i) => SetPhase(t, i, Closed(t.phases[i].how))
    case ReleaseTurn(i) => Release(t, i)
  }

  function Run(t: RunTable, steps: seq<Step>): Option<RunTable>
    decreases |steps|
  {
    if steps == [] then Some(t)
    else if !Enabled(t, steps[0]) then None
    else Run(Apply(t, steps[0]), steps[1..])
  }

  // ---- The invariant ----

  ghost predicate LanesExist(turns: seq<Turn>, lanes: seq<Lane>, runLocks: map<string, nat>) {
    && (forall i :: 0 <= i < |turns| ==> turns[i].lane < |lanes| && lanes[turns[i].lane].run == turns[i].run)
    && (forall r :: r in runLocks ==> runLocks[r] < |lanes| && lanes[runLocks[r]].run == r)
  }

  /** The last turn on this lane among the first `n` turns. */
  function LastOn(turns: seq<Turn>, lane: nat, n: nat): (k: Option<nat>)
    requires n <= |turns|
    ensures k.Some? ==> k.value < n && turns[k.value].lane == lane
  {
    if n == 0 then None
    else if turns[n - 1].lane == lane then Some(n - 1)
    else LastOn(turns, lane, n - 1)
  }

  ghost predicate LinkAt(turns: seq<Turn>, i: nat)
    requires i < |turns|
  {
    turns[i].ready == LastOn(turns, turns[i].lane, i)
  }

  ghost predicate TailAt(turns: seq<Turn>, lanes: seq<Lane>, l: nat)
    requires l < |lanes|
  {
    lanes[l].tail == LastOn(turns, l, |turns|)
  }

  /** The turns of a lane form one chain. */
  ghost predicate Chained(turns: seq<Turn>, lanes: seq<Lane>) {
    && (forall i :: 0 <= i < |turns| ==> LinkAt(turns, i))
    && (forall l :: 0 <= l < |lanes| ==> TailAt(turns, lanes, l))
  }

  /** The unreleased turns of a lane. */
  ghost function Live(turns: seq<Turn>, phases: seq<TurnPhase>, lane: nat): set<nat> {
    set i: nat | i < |turns| && i < |phases| && turns[i].lane == lane && !phases[i].Released?
  }

  ghost predicate Counted(turns: seq<Turn>, phases: seq<TurnPhase>, lanes: seq<Lane>) {
    forall l :: 0 <= l < |lanes| ==> lanes[l].refs == |Live(turns, phases, l)|
  }

  /** Only the current lane of a run has unreleased turns. */
  ghost predicate LiveAreCurrent(turns: seq<Turn>, phases: seq<TurnPhase>, runLocks: map<string, nat>) {
    forall i :: 0 <= i < |turns| && i < |phases| && !phases[i].Released? ==>
      LocksTo(runLocks, turns[i].run, turns[i].lane)
  }

  /** A lane without references has a cached run. */
  ghost predicate NoIdleLane(lanes: seq<Lane>, runLocks: map<string, nat>, runs: set<string>) {
    forall r :: r in runLocks && runLocks[r] < |lanes| ==> r in runs || lanes[runLocks[r]].refs > 0
  }

  /** Past `wait` means that the predecessor has been closed. */
  ghost predicate WaitedAt(turns: seq<Turn>, phases: seq<TurnPhase>, i: nat)
    requires i < |turns| == |phases|
  {
    !phases[i].Reserved? && turns[i].ready.Some? ==>
      turns[i].ready.value < |phases| && IsClosed(phases[turns[i].ready.value])
  }

  ghost predicate Waited(turns: seq<Turn>, phases: seq<TurnPhase>)
    requires |turns| == |phases|
  {
    forall i :: 0 <= i < |turns| ==> WaitedAt(turns, phases, i)
  }

  predicate SameRun(turns: seq<Turn>, i: nat, j: nat)
    requires i < |turns| && j < |turns|
  {
    turns[i].run == turns[j].run
  }

  /** When a lane is replaced all its turns have been released. */
  ghost predicate Replaced(turns: seq<Turn>, phases: seq<TurnPhase>) {
    forall i, j :: 0 <= i < j < |turns| && i < |phases| && SameRun(turns, i, j) ==>
      turns[i].lane == turns[j].lane || phases[i].Released?
  }

  ghost predicate PassedInOrder(turns: seq<Turn>, phases: seq<TurnPhase>, passed: seq<nat>) {
    && (forall a :: 0 <= a < |passed| ==> passed[a] < |turns|)
    && (forall i :: 0 <= i < |phases| ==> (!phases[i].Reserved? <==> i in passed))
    && (forall a, b :: 0 <= a < b < |passed| && SameRun(turns, passed[a], passed[b]) ==> passed[a] < passed[b])
  }

  ghost predicate Inv(t: RunTable) {
    && |t.phases| == |t.turns|
    && LanesExist(t.turns, t.lanes, t.runLocks)
    && Chained(t.turns, t.lanes)
    && Counted(t.turns, t.phases, t.lanes)
    && LiveAreCurrent(t.turns, t.phases, t.runLocks)
    && NoIdleLane(t.lanes, t.runLocks, t.runs)
    && Waited(t.turns, t.phases)
    && Replaced(t.turns, t.phases)
    && PassedInOrder(t.turns, t.phases, t.passed)
  }

  // ---- What follows from it ----

  lemma {:induction false} LastOnIsLast(turns: seq<Turn>, j: nat, n: nat)
    requires j < n <= |turns|
    ensures LastOn(turns, turns[j].lane, n).Some? && j <= LastOn(turns, turns[j].lane, n).value
  {
    if turns[n - 1].lane != turns[j].lane {
      LastOnIsLast(turns, j, n - 1);
    }
  }

  /** Every earlier turn of the same run has been closed once a turn is past `wait`. */
  lemma {:induction false} EarlierClosed(t: RunTable, i: nat, j: nat)
    requires |t.phases| == |t.turns| && LanesExist(t.turns, t.lanes, t.runLocks) && Chained(t.turns, t.lanes)
    requires Waited(t.turns, t.phases) && Replaced(t.turns, t.phases)
    requires i < j < |t.turns| && t.turns[i].run == t.turns[j].run && !t.phases[j].Reserved?
    ensures IsClosed(t.phases[i])
    decreases j
  {
    if t.turns[i].lane == t.turns[j].lane {
      assert LinkAt(t.turns, j) && WaitedAt(t.turns, t.phases, j);
      LastOnIsLast(t.turns, i, j);
      var k := t.turns[j].ready.value;
      if i < k {
        assert t.turns[k].run == t.lanes[t.turns[k].lane].run;
        EarlierClosed(t, i, k);
      }
    } else {
      assert SameRun(t.turns, i, j);
    }
  }

  // ---- Every step keeps it ----

  lemma {:induction false} LastOnAppend(turns: seq<Turn>, turn: Turn, lane: nat, n: nat)
    requires n <= |turns|
    ensures LastOn(turns + [turn], lane, n) == LastOn(turns, lane, n)
  {
    if n > 0 {
      LastOnAppend(turns, turn, lane, n - 1);
    }
  }

  lemma NewLaneKeeps(t: RunTable, run: string)
    requires Inv(t)
    ensures var (lane, u) := LaneFor(t, run);
            && lane < |u.lanes| && LocksTo(u.runLocks, run, lane) && u.lanes[lane].run == run
            && u == t.(lanes := u.lanes, runLocks := u.runLocks)
            && LanesExist(u.turns, u.lanes, u.runLocks) && Chained(u.turns, u.lanes)
            && Counted(u.turns, u.phases, u.lanes) && LiveAreCurrent(u.turns, u.phases, u.runLocks)
            && forall r :: r in u.runLocks && r != run ==> r in t.runLocks && u.runLocks[r] == t.runLocks[r] < |t.lanes|
                                                           && u.lanes[u.runLocks[r]] == t.lanes[t.runLocks[r]]
  {
    if run !in t.runLocks {
      var u := LaneFor(t, run).1;
      assert Live(t.turns, t.phases, |t.lanes|) == {};
      forall l | 0 <= l < |u.lanes|
        ensures TailAt(u.turns, u.lanes, l)
      {
        if l < |t.lanes| {
          assert TailAt(t.turns, t.lanes, l);
        }
      }
    }
  }

  lemma JoinChains(t: RunTable, run: string, lane: nat)
    requires lane < |t.lanes| && Chained(t.turns, t.lanes)
    ensures Chained(Join(t, run, lane).turns, Join(t, run, lane).lanes)
  {
    var v := Join(t, run, lane);
    var turn := v.turns[|t.turns|];
    forall i | 0 <= i < |v.turns|
      ensures LinkAt(v.turns, i)
    {
      if i < |t.turns| {
        assert LinkAt(t.turns, i);
      } else {
        assert TailAt(t.turns, t.lanes, lane);
      }
      LastOnAppend(t.turns, turn, v.turns[i].lane, i);
    }
    forall l | 0 <= l < |v.lanes|
      ensures TailAt(v.turns, v.lanes, l)
    {
      assert TailAt(t.turns, t.lanes, l);
      LastOnAppend(t.turns, turn, l, |t.turns|);
    }
  }

  lemma JoinCounts(t: RunTable, run: string, lane: nat)
    requires |t.phases| == |t.turns| && lane < |t.lanes| && Counted(t.turns, t.phases, t.lanes)
    ensures var v := Join(t, run, lane); Counted(v.turns, v.phases, v.lanes)
  {
    var v := Join(t, run, lane);
    forall l | 0 <= l < |v.lanes|
      ensures v.lanes[l].refs == |Live(v.turns, v.phases, l)|
    {
      assert Live(v.turns, v.phases, l) == Live(t.turns, t.phases, l) + (if l == lane then {|t.turns|} else {});
    }
  }

  lemma ReserveKeeps(t: RunTable, run: string)
    requires Inv(t)
    ensures Enabled(t, ReserveTurn(run)) && Inv(Apply(t, ReserveTurn(run)))
  {
    NewLaneKeeps(t, run);
    var (lane, u) := LaneFor(t, run);
    JoinChains(u, run, lane);
    JoinCounts(u, run, lane);
    var v := Join(u, run, lane);
    assert v.lanes[lane].refs == u.lanes[lane].refs + 1 && u.lanes[lane].refs == |Live(u.turns, u.phases, lane)|;
    assert NoIdleLane(v.lanes, v.runLocks, v.runs);
    JoinReplaces(t, u, run, lane);
    JoinWaits(u, run, lane);
    assert PassedInOrder(v.turns, v.phases, v.passed);
  }

  lemma JoinWaits(t: RunTable, run: string, lane: nat)
    requires |t.phases| == |t.turns| && lane < |t.lanes| && Waited(t.turns, t.phases)
    ensures Waited(Join(t, run, lane).turns, Join(t, run, lane).phases)
  {
    var v := Join(t, run, lane);
    forall i | 0 <= i < |v.turns|
      ensures WaitedAt(v.turns, v.phases, i)
    {
      assert i < |t.turns| ==> WaitedAt(t.turns, t.phases, i);
    }
  }

  /** Moving a turn on breaks no wait, unless it passes `wait` itself. */
  lemma MoveWaits(t: RunTable, i: nat, phase: TurnPhase)
    requires |t.phases| == |t.turns| && i < |t.turns| && Waited(t.turns, t.phases)
    requires IsClosed(t.phases[i]) ==> IsClosed(phase)
    requires !t.phases[i].Reserved? || MayPass(t, i)
    requires !phase.Reserved?
    ensures Waited(t.turns, t.phases[i := phase])
  {
    var phases := t.phases[i := phase];
    forall j | 0 <= j < |t.turns|
      ensures WaitedAt(t.turns, phases, j)
    {
      assert WaitedAt(t.turns, t.phases, j);
    }
  }

  lemma JoinReplaces(t: RunTable, u: RunTable, run: string, lane: nat)
    requires |t.phases| == |t.turns| && u == t.(lanes := u.lanes, runLocks := u.runLocks) && lane < |u.lanes|
    requires Replaced(t.turns, t.phases) && LiveAreCurrent(t.turns, t.phases, u.runLocks)
    requires LocksTo(u.runLocks, run, lane)
    ensures var v := Join(u, run, lane);
            Replaced(v.turns, v.phases) && LiveAreCurrent(v.turns, v.phases, v.runLocks)
  {
    var v := Join(u, run, lane);
    forall i, j | 0 <= i < j < |v.turns| && SameRun(v.turns, i, j)
      ensures v.turns[i].lane == v.turns[j].lane || v.phases[i].Released?
    {
      if j < |t.turns| {
        assert SameRun(t.turns, i, j);
      } else if !t.phases[i].Released? {
        assert LocksTo(u.runLocks, t.turns[i].run, t.turns[i].lane);
      }
    }
  }

  lemma SameLive(t: RunTable, i: nat, phase: TurnPhase)
    requires |t.phases| == |t.turns| && i < |t.turns| && !t.phases[i].Released? && !phase.Released?
    requires Counted(t.turns, t.phases, t.lanes)
    ensures Counted(t.turns, t.phases[i := phase], t.lanes)
  {
    forall l | 0 <= l < |t.lanes|
      ensures t.lanes[l].refs == |Live(t.turns, t.phases[i := phase], l)|
    {
      assert Live(t.turns, t.phases[i := phase], l) == Live(t.turns, t.phases, l);
    }
  }

  /** Moving a turn on before its release. */
  lemma PhaseKeeps(t: RunTable, i: nat, phase: TurnPhase)
    requires Inv(t) && i < |t.turns| && !t.phases[i].Reserved? && !t.phases[i].Released?
    requires !phase.Reserved? && !phase.Released?
    requires IsClosed(t.phases[i]) ==> IsClosed(phase)
    ensures Inv(SetPhase(t, i, phase))
  {
    SameLive(t, i, phase);
    MoveWaits(t, i, phase);
  }

  lemma PassKeeps(t: RunTable, i: nat)
    requires Inv(t) && MayPass(t, i)
    ensures Inv(Apply(t, PassWait(i)))
  {
    SameLive(t, i, Processing);
    MoveWaits(t, i, Processing);
    forall a | 0 <= a < |t.passed| && t.turns[t.passed[a]].run == t.turns[i].run
      ensures t.passed[a] < i
    {
      if t.passed[a] > i {
        EarlierClosed(t, i, t.passed[a]);
      }
    }
    PassAppends(t, i);
  }

  lemma PassAppends(t: RunTable, i: nat)
    requires |t.phases| == |t.turns| && i < |t.turns| && t.phases[i].Reserved?
    requires PassedInOrder(t.turns, t.phases, t.passed)
    requires forall a :: 0 <= a < |t.passed| && t.turns[t.passed[a]].run == t.turns[i].run ==> t.passed[a] < i
    ensures PassedInOrder(t.turns, t.phases[i := Processing], t.passed + [i])
  {
  }

  lemma RunCacheKeeps(t: RunTable, i: nat, runs: set<string>)
    requires Inv(t) && i < |t.turns| && t.phases[i] == Processing
    requires forall r :: r != t.turns[i].run && r in t.runs ==> r in runs
    ensures Inv(t.(runs := runs))
  {
    LiveIsCounted(t, i);
  }

  /** A turn that has not been released keeps its lane. */
  lemma LiveIsCounted(t: RunTable, i: nat)
    requires Inv(t) && i < |t.turns| && !t.phases[i].Released?
    ensures t.lanes[t.turns[i].lane].refs > 0
  {
    assert i in Live(t.turns, t.phases, t.turns[i].lane);
  }

  lemma ReleaseKeeps(t: RunTable, i: nat)
    requires Inv(t) && Enabled(t, ReleaseTurn(i))
    ensures Inv(Release(t, i))
  {
    ReleaseCounts(t, i);
    ReleaseCurrent(t, i);
    ReleaseStatic(t, i);
    var u := Release(t, i);
    MoveWaits(t, i, u.phases[i]);
    assert Replaced(u.turns, u.phases);
    assert PassedInOrder(u.turns, u.phases, u.passed);
  }

  /** A release drops one reference, and the lane exactly when none is left, its run is not cached and it is current. */
  lemma DeletedExactly(t: RunTable, i: nat)
    requires Inv(t) && Enabled(t, ReleaseTurn(i))
    ensures var u, run, lane := Apply(t, ReleaseTurn(i)), t.turns[i].run, t.turns[i].lane;
            && u.lanes[lane].refs == t.lanes[lane].refs - 1
            && (run !in u.runLocks <==>
                  run !in t.runLocks || (t.lanes[lane].refs == 1 && run !in t.runs && t.runLocks[run] == lane))
            && (forall r :: r != run ==> (r in u.runLocks <==> r in t.runLocks))
            && (forall r :: r in u.runLocks ==> u.runLocks[r] == t.runLocks[r])
  {
  }

  lemma ReleaseStatic(t: RunTable, i: nat)
    requires LanesExist(t.turns, t.lanes, t.runLocks) && Chained(t.turns, t.lanes)
    requires NoIdleLane(t.lanes, t.runLocks, t.runs)
    requires Enabled(t, ReleaseTurn(i)) && LocksTo(t.runLocks, t.turns[i].run, t.turns[i].lane)
    requires t.lanes[t.turns[i].lane].refs > 0
    ensures var u := Release(t, i);
            LanesExist(u.turns, u.lanes, u.runLocks) && Chained(u.turns, u.lanes)
            && NoIdleLane(u.lanes, u.runLocks, u.runs)
  {
    var u := Release(t, i);
    forall l | 0 <= l < |t.lanes|
      ensures TailAt(u.turns, u.lanes, l)
    {
      assert TailAt(t.turns, t.lanes, l);
    }
    forall r | r in u.runLocks
      ensures r in u.runs || u.lanes[u.runLocks[r]].refs > 0
    {
      assert t.lanes[t.runLocks[r]].run == r;
    }
  }

  lemma ReleaseCounts(t: RunTable, i: nat)
    requires |t.phases| == |t.turns| && Counted(t.turns, t.phases, t.lanes) && Enabled(t, ReleaseTurn(i))
    ensures Counted(Release(t, i).turns, Release(t, i).phases, Release(t, i).lanes)
    ensures t.lanes[t.turns[i].lane].refs > 0
  {
    var u := Release(t, i);
    assert i in Live(t.turns, t.phases, t.turns[i].lane);
    forall l | 0 <= l < |u.lanes|
      ensures u.lanes[l].refs == |Live(u.turns, u.phases, l)|
    {
      assert Live(u.turns, u.phases, l) == Live(t.turns, t.phases, l) - (if l == t.turns[i].lane then {i} else {});
    }
  }

  /** A lane is only deleted when all its turns have been released. */
  lemma ReleaseCurrent(t: RunTable, i: nat)
    requires |t.phases| == |t.turns| && Counted(t.turns, t.phases, t.lanes)
    requires LanesExist(t.turns, t.lanes, t.runLocks) && LiveAreCurrent(t.turns, t.phases, t.runLocks)
    requires Enabled(t, ReleaseTurn(i))
    ensures LiveAreCurrent(Release(t, i).turns, Release(t, i).phases, Release(t, i).runLocks)
  {
    var u := Release(t, i);
    var lane := t.turns[i].lane;
    ReleaseCounts(t, i);
    assert u.lanes[lane].refs == |Live(u.turns, u.phases, lane)|;
    forall j | 0 <= j < |u.turns| && !u.phases[j].Released?
      ensures LocksTo(u.runLocks, u.turns[j].run, u.turns[j].lane)
    {
      assert LocksTo(t.runLocks, t.turns[j].run, t.turns[j].lane);
      if u.turns[j].lane == lane {
        assert j in Live(u.turns, u.phases, lane);
      }
    }
  }

  lemma StepKeeps(t: RunTable, step: Step)
    requires Inv(t) && Enabled(t, step)
    ensures Inv(Apply(t, step))
  {
    match step
    case ReserveTurn(run) => ReserveKeeps(t, run);
    case PassWait(i) => PassKeeps(t, i);
    case SetRun(i) => RunCacheKeeps(t, i, t.runs + {t.turns[i].run});
    case DeleteRun(i) => RunCacheKeeps(t, i, t.runs - {t.turns[i].run});
    case Complete(i) => PhaseKeeps(t, i, Processed);
    case Settle(i, how) => PhaseKeeps(t, i, Settled(how));
    case CloseDone(i) => PhaseKeeps(t, i, Closed(t.phases[i].how));
    case ReleaseTurn(i) => ReleaseKeeps(t, i);
  }

  lemma {:induction false} RunKeeps(t: RunTable, steps: seq<Step>)
    requires Inv(t) && Run(t, steps).Some?
    ensures Inv(Run(t, steps).value)
    decreases |steps|
  {
    if steps != [] {
      StepKeeps(t, steps[0]);
      RunKeeps(Apply(t, steps[0]), steps[1..]);
    }
  }

  lemma ReachableInv(steps: seq<Step>)
    requires Run(EMPTY, steps).Some?
    ensures Inv(Run(EMPTY, steps).value)
  {
    RunKeeps(EMPTY, steps);
  }

  // ---- The main results ----

  /** At most one activation of a run is between `wait` and the release of its turn. */
  lemma MutualExclusion(steps: seq<Step>, i: nat, j: nat)
    requires Run(EMPTY, steps).Some?
    requires var t := Run(EMPTY, steps).value;
             && i < |t.turns| == |t.phases| && j < |t.turns| && t.turns[i].run == t.turns[j].run
             && Holds(t.phases[i]) && Holds(t.phases[j])
    ensures i == j
  {
    ReachableInv(steps);
    var t := Run(EMPTY, steps).value;
    if i < j {
      EarlierClosed(t, i, j);
    } else if j < i {
      EarlierClosed(t, j, i);
    }
  }

  /**
   Activations of a run are processed in dispatch order, each only after the completion of every
   earlier one was submitted or given up, also when the lane was deleted and made anew in between.
   */
  lemma DispatchOrder(steps: seq<Step>, i: nat, j: nat)
    requires Run(EMPTY, steps).Some?
    requires var t := Run(EMPTY, steps).value;
             i < j < |t.turns| == |t.phases| && t.turns[i].run == t.turns[j].run && !t.phases[j].Reserved?
    ensures var t := Run(EMPTY, steps).value;
            && IsClosed(t.phases[i])
            && exists a, b :: 0 <= a < b < |t.passed| && t.passed[a] == i && t.passed[b] == j
  {
    ReachableInv(steps);
    var t := Run(EMPTY, steps).value;
    EarlierClosed(t, i, j);
    var a :| 0 <= a < |t.passed| && t.passed[a] == i;
    var b :| 0 <= b < |t.passed| && t.passed[b] == j;
    assert a < b;
  }

  lemma OldestPasses(t: RunTable, i: nat)
    requires Inv(t) && i < |t.turns| && t.phases[i] == Reserved
    requires forall j :: 0 <= j < i && t.turns[j].run == t.turns[i].run ==> IsClosed(t.phases[j])
    ensures Enabled(t, PassWait(i))
  {
    assert LinkAt(t.turns, i);
    assert t.lanes[t.turns[i].lane].run == t.turns[i].run;
    if t.turns[i].ready.Some? {
      assert t.lanes[t.turns[t.turns[i].ready.value].lane].run == t.turns[t.turns[i].ready.value].run;
    }
  }

  /** The oldest turn of a run that has not been closed is never blocked in `wait`. */
  lemma OldestMayPass(steps: seq<Step>, i: nat)
    requires Run(EMPTY, steps).Some?
    requires var t := Run(EMPTY, steps).value;
             && i < |t.turns| == |t.phases| && t.phases[i] == Reserved
             && forall j :: 0 <= j < i && t.turns[j].run == t.turns[i].run ==> IsClosed(t.phases[j])
    ensures Enabled(Run(EMPTY, steps).value, PassWait(i))
  {
    ReachableInv(steps);
    OldestPasses(Run(EMPTY, steps).value, i);
  }

  lemma {:induction false} OldestOpen(t: RunTable, i: nat) returns (u: nat)
    requires |t.phases| == |t.turns| && i < |t.turns| && !IsClosed(t.phases[i])
    ensures u <= i && t.turns[u].run == t.turns[i].run && !IsClosed(t.phases[u])
    ensures forall j :: 0 <= j < u && t.turns[j].run == t.turns[u].run ==> IsClosed(t.phases[j])
    decreases i
  {
    if j :| 0 <= j < i && t.turns[j].run == t.turns[i].run && !IsClosed(t.phases[j]) {
      u := OldestOpen(t, j);
    } else {
      u := i;
    }
  }

  /** No lane leaks: the references of a lane are its unreleased turns, and without any its run is cached. */
  lemma NoLeak(steps: seq<Step>, run: string)
    requires Run(EMPTY, steps).Some? && run in Run(EMPTY, steps).value.runLocks
    ensures var t := Run(EMPTY, steps).value;
            var lane := t.runLocks[run];
            && lane < |t.lanes| && t.lanes[lane].refs == |Live(t.turns, t.phases, lane)|
            && (run in t.runs || Live(t.turns, t.phases, lane) != {})
  {
    ReachableInv(steps);
  }

  /** A lane is deleted with its last turn, and the next activation of the run gets a new one. */
  lemma LaneIsMadeAnew(run: string)
    ensures var steps := [ReserveTurn(run), PassWait(0), Complete(0), Settle(0, CompletionSubmitted), CloseDone(0),
                          ReleaseTurn(0), ReserveTurn(run), PassWait(1)];
            var r := Run(EMPTY, steps);
            && r.Some? && |r.value.lanes| == 2 && r.value.runLocks == map[run := 1]
            && r.value.phases == [Released(CompletionSubmitted), Processing] && r.value.passed == [0, 1]
  {
    var steps := [ReserveTurn(run), PassWait(0), Complete(0), Settle(0, CompletionSubmitted), CloseDone(0),
                  ReleaseTurn(0), ReserveTurn(run), PassWait(1)];
    var t := EMPTY;
    for k := 0 to |steps|
      invariant Run(EMPTY, steps[..k]) == Some(t)
      invariant k == 1 ==> t == RunTable([Turn(run, 0, None)], [Reserved], [Lane(run, Some(0), 1)], map[run := 0], {}, [])
      invariant 2 <= k <= 5 ==> t == RunTable([Turn(run, 0, None)], t.phases, [Lane(run, Some(0), 1)], map[run := 0], {}, [0])
      invariant k == 2 ==> t.phases == [Processing]
      invariant k == 3 ==> t.phases == [Processed]
      invariant k == 4 ==> t.phases == [Settled(CompletionSubmitted)]
      invariant k == 5 ==> t.phases == [Closed(CompletionSubmitted)]
      invariant k == 0 ==> t == EMPTY
      invariant k == 6 ==> t == RunTable([Turn(run, 0, None)], [Released(CompletionSubmitted)], [Lane(run, Some(0), 0)],
                                         map[], {}, [0])
      invariant k == 7 ==> t == RunTable([Turn(run, 0, None), Turn(run, 1, None)],
                                         [Released(CompletionSubmitted), Reserved],
                                         [Lane(run, Some(0), 0), Lane(run, Some(1), 1)], map[run := 1], {}, [0])
      invariant k == 8 ==> t == RunTable([Turn(run, 0, None), Turn(run, 1, None)],
                                         [Released(CompletionSubmitted), Processing],
                                         [Lane(run, Some(0), 0), Lane(run, Some(1), 1)], map[run := 1], {}, [0, 1])
    {
      assert steps[..k + 1] == steps[..k] + [steps[k]];
      RunAppend(EMPTY, steps[..k], steps[k]);
      t := Apply(t, steps[k]);
    }
    assert steps[..|steps|] == steps;
  }

  // ---- The cache ----

  /** Whether run `run` is cached after these steps, going by what its activations did last. */
  function CachedAfter(turns: seq<Turn>, steps: seq<Step>, run: string, cached: bool): bool
    decreases |steps|
  {
    if steps == [] then cached
    else
      var next := match steps[0]
        case SetRun(i) => cached || (i < |turns| && turns[i].run == run)
        case DeleteRun(i) => cached && !(i < |turns| && turns[i].run == run)
        case _ => cached;
      CachedAfter(turns, steps[1..], run, next)
  }

  lemma {:induction false} TurnsGrow(t: RunTable, steps: seq<Step>)
    requires Run(t, steps).Some?
    ensures t.turns <= Run(t, steps).value.turns
    decreases |steps|
  {
    if steps != [] {
      TurnsGrow(Apply(t, steps[0]), steps[1..]);
    }
  }

  lemma {:induction false} CacheFollows(t: RunTable, steps: seq<Step>, run: string)
    requires Run(t, steps).Some?
    ensures run in Run(t, steps).value.runs <==> CachedAfter(Run(t, steps).value.turns, steps, run, run in t.runs)
    decreases |steps|
  {
    if steps != [] {
      TurnsGrow(t, steps);
      CacheFollows(Apply(t, steps[0]), steps[1..], run);
    }
  }

  /** A run is cached exactly when the last of its activations to cache or evict it cached it. */
  lemma CachedIsLastSaid(steps: seq<Step>, run: string)
    requires Run(EMPTY, steps).Some?
    ensures var t := Run(EMPTY, steps).value; run in t.runs <==> CachedAfter(t.turns, steps, run, false)
  {
    CacheFollows(EMPTY, steps, run);
  }

  // ---- The table as an object ----

  /** `table` is what these steps make of an empty table. */
  ghost predicate Reached(table: RunTable, steps: seq<Step>) {
    Run(EMPTY, steps) == Some(table)
  }

  lemma {:induction false} RunAppend(t: RunTable, steps: seq<Step>, step: Step)
    requires Run(t, steps).Some? && Enabled(Run(t, steps).value, step)
    ensures Run(t, steps + [step]) == Some(Apply(Run(t, steps).value, step))
    decreases |steps|
  {
    if steps == [] {
      assert (steps + [step])[1..] == [];
      assert Run(Apply(t, step), []) == Some(Apply(t, step));
    } else {
      assert (steps + [step])[1..] == steps[1..] + [step];
      RunAppend(Apply(t, steps[0]), steps[1..], step);
    }
  }

  /** What the worker may rely on when it holds the mutex. */
  lemma ReachedShape(t: RunTable, steps: seq<Step>)
    requires Reached(t, steps)
    ensures |t.phases| == |t.turns|
    ensures forall i :: 0 <= i < |t.turns| ==> t.turns[i].lane < |t.lanes|
    ensures forall r :: r in t.runLocks ==> t.runLocks[r] < |t.lanes|
    ensures forall i :: 0 <= i < |t.turns| && t.turns[i].ready.Some? ==> t.turns[i].ready.value < i
  {
    ReachableInv(steps);
    forall i | 0 <= i < |t.turns| && t.turns[i].ready.Some?
      ensures t.turns[i].ready.value < i
    {
      assert LinkAt(t.turns, i);
    }
  }

  /**
   The part of the worker that orders the activations of a run. A turn is named by its number; `done`
   says which `done` channels are closed. `steps` records what happened, so that what is proved about
   all runs holds of the object.
   */
  class RunTurns {
    var turns: seq<Turn>
    var done: seq<bool>
    var lanes: seq<Lane>
    var runLocks: map<string, nat>
    var runs: set<string>
    ghost var phases: seq<TurnPhase>
    ghost var passed: seq<nat>
    ghost var steps: seq<Step>

    ghost function State(): RunTable
      reads this
    {
      RunTable(turns, phases, lanes, runLocks, runs, passed)
    }

    ghost predicate Valid()
      reads this
    {
      && Reached(State(), steps)
      && |turns| == |phases| == |done|
      && forall i :: 0 <= i < |done| ==> (done[i] <==> IsClosed(phases[i]))
    }

    constructor ()
      ensures Valid() && State() == EMPTY
    {
      turns, done, lanes, runLocks, runs := [], [], [], map[], {};
      phases, passed, steps := [], [], [];
    }

    ghost method Record(t: RunTable, step: Step)
      requires Reached(t, steps) && Enabled(t, step)
      modifies this`steps, this`phases, this`passed
      ensures Reached(Apply(t, step), steps)
      ensures phases == Apply(t, step).phases && passed == Apply(t, step).passed
    {
      RunAppend(EMPTY, steps, step);
      steps := steps + [step];
      phases, passed := Apply(t, step).phases, Apply(t, step).passed;
    }

    method ReserveRunTurn(run: string) returns (turn: nat)
      requires Valid()
      modifies this
      ensures Valid() && Enabled(old(State()), ReserveTurn(run))
      ensures State() == Apply(old(State()), ReserveTurn(run)) && turn == |old(turns)|
    {
      ReachedShape(State(), steps);
      Record(State(), ReserveTurn(run));
      var lane;
      if run in runLocks {
        lane := runLocks[run];
      } else {
        lane := |lanes|;
        lanes := lanes + [Lane(run, None, 0)];
        runLocks := runLocks[run := lane];
      }
      turn := |turns|;
      turns := turns + [Turn(run, lane, lanes[lane].tail)];
      done := done + [false];
      lanes := lanes[lane := lanes[lane].(tail := Some(turn), refs := lanes[lane].refs + 1)];
    }

    /** Whether `wait` returns now. */
    method MayPassWait(turn: nat) returns (ok: bool)
      requires Valid() && turn < |turns| && phases[turn] == Reserved
      ensures ok <==> Enabled(State(), PassWait(turn))
    {
      ReachedShape(State(), steps);
      ok := turns[turn].ready.None? || done[turns[turn].ready.value];
    }

    /** `handleActivationLocked` caches or evicts the run of the activation it processes. */
    method CacheRun(turn: nat, cached: bool)
      requires Valid() && turn < |turns| && phases[turn] == Processing
      modifies this
      ensures var step := if cached then SetRun(turn) else DeleteRun(turn);
              Valid() && Enabled(old(State()), step) && State() == Apply(old(State()), step)
    {
      ReachedShape(State(), steps);
      Record(State(), if cached then SetRun(turn) else DeleteRun(turn));
      runs := if cached then runs + {turns[turn].run} else runs - {turns[turn].run};
    }

    /** Steps that change no shared field: `wait` returns, the activation is done, its completion is settled. */
    ghost method Advance(step: Step)
      requires Valid() && Enabled(State(), step) && (step.PassWait? || step.Complete? || step.Settle?)
      modifies this`steps, this`phases, this`passed
      ensures Valid() && State() == Apply(old(State()), step)
    {
      Record(State(), step);
    }

    /** First half of `releaseRunTurn`, before it takes the mutex. */
    method Close(turn: nat)
      requires Valid() && turn < |turns| && phases[turn].Settled?
      modifies this
      ensures Valid() && Enabled(old(State()), CloseDone(turn)) && State() == Apply(old(State()), CloseDone(turn))
    {
      ReachedShape(State(), steps);
      Record(State(), CloseDone(turn));
      done := done[turn := true];
    }

    /** Second half, under the mutex. */
    method DropReference(turn: nat)
      requires Valid() && turn < |turns| && phases[turn].Closed?
      modifies this
      ensures Valid() && Enabled(old(State()), ReleaseTurn(turn)) && State() == Apply(old(State()), ReleaseTurn(turn))
    {
      ReachedShape(State(), steps);
      Record(State(), ReleaseTurn(turn));
      var run, lane := turns[turn].run, turns[turn].lane;
      lanes := lanes[lane := lanes[lane].(refs := lanes[lane].refs - 1)];
      if lanes[lane].refs == 0 && run !in runs && run in runLocks && runLocks[run] == lane {
        runLocks := runLocks - {run};
      }
    }
  }
}
