/** What `drive` guarantees when it returns: nothing can run, and calling it again changes nothing. */
module Scheduling {
  import opened Basics
  import opened Futures
  import opened Interpreter

  // ---- Fuel ----

  lemma {:induction false} SliceFuel(env: Env, s: Exec, c: nat, fuel: nat, more: nat)
    requires c < |s.coroutines| && fuel <= more
    requires Slice(env, s, c, fuel).Sliced?
    ensures Slice(env, s, c, more) == Slice(env, s, c, fuel)
    decreases fuel
  {
    var move := env.step(s.mem, s.coroutines[c].local, ResponseFor(s, c));
    var (s', end) := Perform(env, Advance(s, c, move), c, move.action);
    if end == Continue {
      SliceFuel(env, s', c, fuel - 1, more - 1);
    }
  }

  lemma TurnFuel(env: Env, s: Exec, i: nat, fuel: nat, more: nat)
    requires i < |s.coroutines| && fuel <= more && !Turn(env, s, i, fuel).TurnStarved?
    ensures Turn(env, s, i, more) == Turn(env, s, i, fuel)
  {
    SliceFuel(env, Enter(s, i), i, fuel, more);
  }

  lemma {:induction false} DriveFromFuel(
    env: Env, s: Exec, high: bool, i: nat, n: nat, progressed: bool, fuel: nat, more: nat)
    requires i <= n <= |s.coroutines| && fuel <= more
    requires !DriveFrom(env, s, high, i, n, progressed, fuel).Starved?
    ensures DriveFrom(env, s, high, i, n, progressed, more) == DriveFrom(env, s, high, i, n, progressed, fuel)
    decreases fuel, 1
  {
    if i < n && s.coroutines[i].highPriority == high && Runnable(s, i) {
      TurnFuel(env, s, i, fuel - 1, more - 1);
      var r := Turn(env, s, i, fuel - 1);
      assert r == Turn(env, s, i, more - 1);
      if r.TurnGoes? {
        DriveFromFuel(env, r.state, high, i + 1, n, true, fuel - 1, more - 1);
      }
    } else {
      DriveFromFuelSkip(env, s, high, i, n, progressed, fuel, more);
    }
  }

  lemma {:induction false} DriveFromFuelSkip(
    env: Env, s: Exec, high: bool, i: nat, n: nat, progressed: bool, fuel: nat, more: nat)
    requires i <= n <= |s.coroutines| && fuel <= more
    requires i < n ==> s.coroutines[i].highPriority != high || !Runnable(s, i)
    requires !DriveFrom(env, s, high, i, n, progressed, fuel).Starved?
    ensures DriveFrom(env, s, high, i, n, progressed, more) == DriveFrom(env, s, high, i, n, progressed, fuel)
    decreases fuel, 0
  {
    if i < n {
      DriveFromFuel(env, s, high, i + 1, n, progressed, fuel - 1, more - 1);
    } else if high {
      DriveFromFuel(env, s, false, 0, |s.coroutines|, progressed, fuel - 1, more - 1);
    } else if progressed {
      DriveFromFuel(env, s, true, 0, |s.coroutines|, false, fuel - 1, more - 1);
    }
  }

  /** Enough fuel is enough: a `drive` that returns has one result, whatever the fuel. */
  lemma FuelIrrelevant(env: Env, s: Exec, fuel: nat, other: nat)
    requires !Drive(env, s, fuel).Starved? && !Drive(env, s, other).Starved?
    ensures Drive(env, s, fuel) == Drive(env, s, other)
  {
    if !s.terminal {
      if fuel <= other {
        DriveFromFuel(env, s, true, 0, |s.coroutines|, false, fuel, other);
      } else {
        DriveFromFuel(env, s, true, 0, |s.coroutines|, false, other, fuel);
      }
    }
  }

  // ---- Quiescence ----

  /** What a round that has resumed nobody so far has established at coroutine `i` of a pass. */
  ghost predicate SeenIdle(s: Exec, high: bool, i: nat) {
    forall c :: 0 <= c < |s.coroutines|
                && (!high || s.coroutines[c].highPriority) && (c < i || (!high && s.coroutines[c].highPriority))
                ==> !Runnable(s, c)
  }

  lemma {:induction false} SliceReturns(env: Env, s: Exec, c: nat, fuel: nat)
    requires c < |s.coroutines| && Slice(env, s, c, fuel).Sliced?
    ensures Slice(env, s, c, fuel).state.current == None
    decreases fuel
  {
    var move := env.step(s.mem, s.coroutines[c].local, ResponseFor(s, c));
    var (s', end) := Perform(env, Advance(s, c, move), c, move.action);
    if end == Continue {
      SliceReturns(env, s', c, fuel - 1);
    }
  }

  lemma TurnReturnsIdle(env: Env, s: Exec, i: nat, fuel: nat)
    requires i < |s.coroutines|
    ensures var r := Turn(env, s, i, fuel);
            && (r.TurnGoes? ==> r.state.current == None)
            && (r.TurnReturns? && r.result.Settled? ==> r.result.state.current == None && r.result.state.terminal)
  {
    if Slice(env, Enter(s, i), i, fuel).Sliced? {
      SliceReturns(env, Enter(s, i), i, fuel);
    }
  }

  lemma {:induction false} DriveFromSettles(
    env: Env, s: Exec, high: bool, i: nat, n: nat, progressed: bool, fuel: nat)
    requires i <= n <= |s.coroutines| && s.current == None
    requires !progressed ==> n == |s.coroutines| && SeenIdle(s, high, i)
    requires DriveFrom(env, s, high, i, n, progressed, fuel).Settled?
    ensures var s' := DriveFrom(env, s, high, i, n, progressed, fuel).state;
            s'.current == None && (s'.terminal || Quiescent(s'))
    decreases fuel
  {
    if i < n {
      if s.coroutines[i].highPriority != high || !Runnable(s, i) {
        DriveFromSettles(env, s, high, i + 1, n, progressed, fuel - 1);
      } else {
        TurnReturnsIdle(env, s, i, fuel - 1);
        var r := Turn(env, s, i, fuel - 1);
        if r.TurnGoes? {
          DriveFromSettles(env, r.state, high, i + 1, n, true, fuel - 1);
        }
      }
    } else if high {
      DriveFromSettles(env, s, false, 0, |s.coroutines|, progressed, fuel - 1);
    } else if progressed {
      DriveFromSettles(env, s, true, 0, |s.coroutines|, false, fuel - 1);
    }
  }

  /** Whatever user code does, a plain return of `drive` leaves nothing to run. */
  lemma DriveQuiesces(env: Env, s: Exec, fuel: nat)
    requires s.current == None && Drive(env, s, fuel).Settled?
    ensures var s' := Drive(env, s, fuel).state; s'.current == None && (s'.terminal || Quiescent(s'))
    ensures var s' := Drive(env, s, fuel).state;
            !s'.terminal ==> forall c :: 0 <= c < |s'.coroutines| ==> Parked(s', s'.coroutines[c])
  {
    if !s.terminal {
      DriveFromSettles(env, s, true, 0, |s.coroutines|, false, fuel);
    }
    var s' := Drive(env, s, fuel).state;
    if !s'.terminal {
      forall c | 0 <= c < |s'.coroutines|
        ensures Parked(s', s'.coroutines[c])
      {
        assert !Runnable(s', c);
      }
    }
  }

  /** The coroutine is done or waits on a future that is not ready. */
  ghost predicate Parked(s: Exec, co: Coroutine) {
    co.done || (co.waiting.Some? && (co.waiting.value < |s.futures| ==> !s.futures[co.waiting.value].ready))
  }

  /** How many steps of the scheduler a round takes that resumes nobody. */
  function RoundLength(s: Exec): nat {
    2 * |s.coroutines| + 2
  }

  lemma {:induction false} IdleRound(env: Env, s: Exec, high: bool, i: nat, fuel: nat)
    requires i <= |s.coroutines| && Quiescent(s)
    ensures var r := DriveFrom(env, s, high, i, |s.coroutines|, false, fuel); r.Starved? || r == Settled(s)
    ensures fuel >= |s.coroutines| - i + 1 + (if high then |s.coroutines| + 1 else 0) ==>
              DriveFrom(env, s, high, i, |s.coroutines|, false, fuel) == Settled(s)
    decreases fuel
  {
    if fuel > 0 {
      if i < |s.coroutines| {
        assert !Runnable(s, i);
        IdleRound(env, s, high, i + 1, fuel - 1);
      } else if high {
        IdleRound(env, s, false, 0, fuel - 1);
      }
    }
  }

  /** On a state where nothing can run, `drive` returns at once and changes nothing. */
  lemma DriveIdle(env: Env, s: Exec, fuel: nat)
    requires s.terminal || Quiescent(s)
    ensures Drive(env, s, fuel).Starved? || Drive(env, s, fuel) == Settled(s)
    ensures fuel >= RoundLength(s) ==> Drive(env, s, fuel) == Settled(s)
  {
    if !s.terminal {
      IdleRound(env, s, true, 0, fuel);
    }
  }

  /** `drive` is idempotent. */
  lemma DriveTwice(env: Env, s: Exec, fuel: nat, again: nat)
    requires s.current == None && Drive(env, s, fuel).Settled?
    requires again >= RoundLength(Drive(env, s, fuel).state)
    ensures Drive(env, Drive(env, s, fuel).state, again) == Drive(env, s, fuel)
  {
    DriveQuiesces(env, s, fuel);
    DriveIdle(env, Drive(env, s, fuel).state, again);
  }
}
