/**
 The worker's cache of executions: initialization, eviction and removal after a failed activation. Every
 activation of every run goes through here, one activation of a run at a time (Lanes).
 */
module WorkerCache {
  import opened Basics
  import opened Interpreter
  import opened Activation
  import opened Invariants
  import opened Scheduling
  import opened Guarantees

  /** A registered workflow, started: its code, its memory and where it begins. */
  datatype Workflow = Workflow(env: Env, mem: Mem, body: Local)

  /** What is registered under a workflow type; an execution gets its run ID and its input. */
  type Registry = (string, string, seq<Payload>) -> Option<Workflow>

  /**
   `inputs` and `outputs` are history: the successful activations since initialization. `intact` is false once a panic has come
   out of applying a resolution; the execution stays cached all the same.
   */
  datatype Cached = Cached(workflow: Workflow, state: Exec, inputs: seq<Input>, outputs: seq<Command>, intact: bool)

  datatype Task = Task(runId: string, jobs: seq<Job>, fuel: nat)

  datatype Completion = Succeeded(runId: string, commands: seq<Command>) | FailedWith(runId: string) | NeverReturns

  type Cache = map<string, Cached>

  ghost predicate Usable(cache: Cache) {
    forall id :: id in cache ==> cache[id].state.current == None
  }

  /** One activation of a cached execution. */
  function Activated(run: Cached, jobs: seq<Job>, fuel: nat): ActivateResult
    requires run.state.current == None
  {
    Activate(run.workflow.env, run.state, jobs, fuel)
  }

  function Process(cache: Cache, id: string, run: Cached, jobs: seq<Job>, fuel: nat): (Cache, Completion)
    requires run.state.current == None
  {
    match Activated(run, jobs, fuel)
    case ActivateStarved => (cache[id := run], NeverReturns)
    case ActivationFailed(_) => (cache - {id}, FailedWith(id))
    case ActivationBroken(s) =>
      (cache[id := run.(state := s, intact := false)], FailedWith(id))
    case Activated(s, commands) =>
      (cache[id := run.(state := s, inputs := run.inputs + [Input(jobs, fuel)],
                        outputs := run.outputs + commands)],
       Succeeded(id, commands))
  }

  predicate IsEviction(jobs: seq<Job>) {
    |jobs| == 1 && jobs[0] == RemoveFromCache
  }

  predicate IsInitial(jobs: seq<Job>) {
    jobs != [] && jobs[0].Initialize?
  }

  /** `handleActivationLocked`, and the recovery from a panic around it. */
  function Handle(registry: Registry, cache: Cache, task: Task): (Cache, Completion)
    requires Usable(cache)
  {
    var id, jobs := task.runId, task.jobs;
    if IsEviction(jobs) then (cache - {id}, Succeeded(id, []))
    else if IsInitial(jobs) then
      var workflow := registry(jobs[0].workflowType, id, jobs[0].input);
      if id in cache || workflow == None then (cache, FailedWith(id))
      else
        var w := workflow.value;
        Process(cache, id, Cached(w, Start(w.mem, w.body), [], [], true), jobs[1..], task.fuel)
    else if id !in cache then (cache, FailedWith(id))
    else Process(cache, id, cache[id], jobs, task.fuel)
  }

  function HandleAll(registry: Registry, cache: Cache, tasks: seq<Task>): (r: (Cache, seq<Completion>))
    requires Usable(cache)
    ensures |r.1| == |tasks|
    decreases |tasks|
  {
    if tasks == [] then (cache, [])
    else
      HandleIsUsable(registry, cache, tasks[0]);
      var r := Handle(registry, cache, tasks[0]);
      var rest := HandleAll(registry, r.0, tasks[1..]);
      (rest.0, [r.1] + rest.1)
  }

  // ---- No execution is left in the middle of a coroutine ----

  lemma {:induction false} BrokenLoopIsIdle(env: Env, s: Exec, pending: seq<Job>, fuel: nat)
    requires s.current == None
    ensures var r := PendingLoop(env, s, pending, fuel); r.LoopBroken? ==> r.state.current == None
    decreases |pending|, if Resting(s) then 0 else 1
  {
    if pending != [] {
      PassKeepsCurrent(s, pending);
      var p := Pass(s, pending);
      if p.PassDone? && p.remaining != [] {
        var d := Drive(env, p.state, fuel);
        if d.Settled? && (p.applied || !SameProgress(p.state, d.state)) {
          DriveQuiesces(env, p.state, fuel);
          if !p.applied && Resting(s) {
            DriveIdle(env, p.state, fuel);
          }
          BrokenLoopIsIdle(env, d.state, p.remaining, fuel);
        }
      }
    }
  }

  lemma ActivationIsIdle(env: Env, s: Exec, jobs: seq<Job>, fuel: nat)
    requires s.current == None
    ensures var r := Activate(env, s, jobs, fuel);
            r.ActivationBroken? || r.Activated? ==> r.state.current == None
  {
    var r := Activate(env, s, jobs, fuel);
    if r.Activated? {
      ActivatedRests(env, s, jobs, fuel);
    } else if r.ActivationBroken? {
      PreparedIsIdle(env, s, jobs, fuel);
      BrokenLoopIsIdle(env, Prepared(env, s, jobs, fuel).state, Pending(jobs), fuel);
    }
  }

  lemma HandleIsUsable(registry: Registry, cache: Cache, task: Task)
    requires Usable(cache)
    ensures Usable(Handle(registry, cache, task).0)
  {
    var id, jobs := task.runId, task.jobs;
    if !IsEviction(jobs) {
      if IsInitial(jobs) {
        var w := registry(jobs[0].workflowType, id, jobs[0].input);
        if w.Some? {
          ActivationIsIdle(w.value.env, Start(w.value.mem, w.value.body), jobs[1..], task.fuel);
        }
      } else if id in cache {
        ActivationIsIdle(cache[id].workflow.env, cache[id].state, jobs, task.fuel);
      }
    }
  }

  // ---- A cached execution is a run of its workflow ----

  /** Nothing but the recorded activations made this state and these commands. */
  ghost predicate IsRun(run: Cached) {
    run.intact ==>
      RunOf(run.workflow.env, run.workflow.mem, run.workflow.body, run.inputs) == RunOk(run.state, run.outputs)
  }

  ghost predicate AllRuns(cache: Cache) {
    forall id :: id in cache ==> IsRun(cache[id])
  }

  function Prepend(commands: seq<Command>, r: RunResult): RunResult {
    match r
    case RunOk(s, outputs) => RunOk(s, commands + outputs)
    case RunStopped => r
  }

  /** The outcome of a run that starts with this activation. */
  lemma RunFirst(env: Env, s: Exec, first: Input, rest: seq<Input>, a: ActivateResult)
    requires s.current == None && Activate(env, s, first.jobs, first.fuel) == a && a.Activated?
    ensures a.state.current == None && Run(env, s, [first] + rest) == Prepend(a.commands, Run(env, a.state, rest))
  {
    var inputs := [first] + rest;
    assert inputs[0] == first && inputs[1..] == rest;
    ActivatedRests(env, s, first.jobs, first.fuel);
    assert Run(env, s, inputs) == Prepend(a.commands, Run(env, a.state, inputs[1..]));
  }

  lemma PrependTwice(commands: seq<Command>, r: RunResult, a: ActivateResult)
    requires r.RunOk? && a.Activated?
    ensures Prepend(commands, RunOk(a.state, r.outputs + a.commands))
            == RunOk(a.state, Prepend(commands, r).outputs + a.commands)
  {
    assert commands + (r.outputs + a.commands) == (commands + r.outputs) + a.commands;
  }

  lemma RunExtendsStep(env: Env, s: Exec, first: Input, rest: seq<Input>, f: ActivateResult, end: RunResult)
    requires s.current == None && Activate(env, s, first.jobs, first.fuel) == f && f.Activated?
    requires f.state.current == None && Run(env, f.state, rest) == end
    ensures Run(env, s, [first] + rest) == Prepend(f.commands, end)
  {
    RunFirst(env, s, first, rest, f);
  }

  lemma {:induction false} RunExtends(env: Env, s: Exec, inputs: seq<Input>, last: Input, a: ActivateResult)
    requires s.current == None && Run(env, s, inputs).RunOk? && Run(env, s, inputs).state.current == None
    requires Activate(env, Run(env, s, inputs).state, last.jobs, last.fuel) == a && a.Activated?
    ensures Run(env, s, inputs + [last]) == RunOk(a.state, Run(env, s, inputs).outputs + a.commands)
    decreases |inputs|, 1
  {
    if inputs == [] {
      RunFirst(env, s, last, [], a);
      assert inputs + [last] == [last] + [];
    } else {
      RunExtendsMore(env, s, inputs[0], inputs[1..], last, a);
      assert inputs == [inputs[0]] + inputs[1..];
      assert inputs + [last] == [inputs[0]] + (inputs[1..] + [last]);
    }
  }

  lemma {:induction false} RunExtendsMore(
      env: Env, s: Exec, first: Input, rest: seq<Input>, last: Input, a: ActivateResult)
    requires s.current == None && Run(env, s, [first] + rest).RunOk?
    requires Run(env, s, [first] + rest).state.current == None
    requires Activate(env, Run(env, s, [first] + rest).state, last.jobs, last.fuel) == a && a.Activated?
    ensures Run(env, s, [first] + (rest + [last])) == RunOk(a.state, Run(env, s, [first] + rest).outputs + a.commands)
    decreases |rest| + 1, 0
  {
    var f := Activate(env, s, first.jobs, first.fuel);
    assert ([first] + rest)[0] == first;
    RunFirst(env, s, first, rest, f);
    var r := Run(env, f.state, rest);
    RunExtends(env, f.state, rest, last, a);
    RunExtendsStep(env, s, first, rest + [last], f, RunOk(a.state, r.outputs + a.commands));
    PrependTwice(f.commands, r, a);
  }

  lemma ProcessKeeps(cache: Cache, id: string, run: Cached, jobs: seq<Job>, fuel: nat)
    requires AllRuns(cache) && IsRun(run) && run.state.current == None
    ensures AllRuns(Process(cache, id, run, jobs, fuel).0)
  {
    if run.intact && Activated(run, jobs, fuel).Activated? {
      var w := run.workflow;
      RunExtends(w.env, Start(w.mem, w.body), run.inputs, Input(jobs, fuel), Activated(run, jobs, fuel));
    }
  }

  lemma HandleKeeps(registry: Registry, cache: Cache, task: Task)
    requires Usable(cache) && AllRuns(cache)
    ensures AllRuns(Handle(registry, cache, task).0)
  {
    var id, jobs := task.runId, task.jobs;
    if !IsEviction(jobs) {
      if IsInitial(jobs) {
        var workflow := registry(jobs[0].workflowType, id, jobs[0].input);
        if id !in cache && workflow.Some? {
          var w := workflow.value;
          ProcessKeeps(cache, id, Cached(w, Start(w.mem, w.body), [], [], true), jobs[1..], task.fuel);
        }
      } else if id in cache {
        ProcessKeeps(cache, id, cache[id], jobs, task.fuel);
      }
    }
  }

  /**
   Whatever activations the worker handles, of however many runs: a cached execution that has not
   panicked is exactly the run of its workflow on its own activations since it was initialized, so all
   guarantees about runs hold of it.
   */
  lemma {:induction false} CachedExecutionsAreRuns(registry: Registry, cache: Cache, tasks: seq<Task>, id: string)
    requires Usable(cache) && AllRuns(cache) && id in HandleAll(registry, cache, tasks).0
    ensures var run := HandleAll(registry, cache, tasks).0[id];
            && IsRun(run)
            && (run.intact ==> Sound(run.state) && CommandsOf(run.state.out.trace) == run.outputs)
    decreases |tasks|
  {
    if tasks == [] {
      var run := cache[id];
      if run.intact {
        RunSound(run.workflow.env, run.workflow.mem, run.workflow.body, run.inputs);
      }
    } else {
      HandleIsUsable(registry, cache, tasks[0]);
      HandleKeeps(registry, cache, tasks[0]);
      CachedExecutionsAreRuns(registry, Handle(registry, cache, tasks[0]).0, tasks[1..], id);
    }
  }

  // ---- One activation ----

  /**
   An activation concerns its own run only. It fails a second initialization without touching the
   execution, fails when there is neither an execution nor an initializer, and after an activation error
   or an eviction the run is no longer cached.
   */
  lemma OneRunAtATime(registry: Registry, cache: Cache, task: Task)
    requires Usable(cache)
    ensures var r := Handle(registry, cache, task);
            && (forall id :: id != task.runId ==> (id in r.0 <==> id in cache))
            && (forall id :: id != task.runId && id in cache ==> r.0[id] == cache[id])
            && (!r.1.NeverReturns? ==> r.1.runId == task.runId)
            && (task.jobs == [RemoveFromCache] ==> task.runId !in r.0 && r.1 == Succeeded(task.runId, []))
            && (task.jobs != [] && task.jobs[0].Initialize? && task.runId in cache ==> r == (cache, FailedWith(task.runId)))
            && (r.1.FailedWith? && task.runId in r.0 ==>
                  if task.jobs != [] && task.jobs[0].Initialize? && task.runId in cache then r.0[task.runId] == cache[task.runId]
                  else !r.0[task.runId].intact)
            && (r.1.Succeeded? && task.jobs != [RemoveFromCache] ==> task.runId in r.0)
  {
  }

  // ---- What Core gets ----

  /** The execution a task is for, and the jobs it is activated with; none when there is nothing to activate. */
  function Concerned(registry: Registry, cache: Cache, task: Task): Option<(Cached, seq<Job>)> {
    var id, jobs := task.runId, task.jobs;
    if jobs != [] && jobs[0].Initialize? then
      var workflow := registry(jobs[0].workflowType, id, jobs[0].input);
      if id in cache || workflow.None? then None
      else Some((Cached(workflow.value, Start(workflow.value.mem, workflow.value.body), [], [], true), jobs[1..]))
    else if id in cache then Some((cache[id], jobs))
    else None
  }

  /**
   Unless it evicts, a task activates the cached execution, or a fresh one, with its jobs; the completion
   carries exactly the commands of that activation, and the cache its state. An error removes the run.
   */
  lemma CompletionIsOfActivation(registry: Registry, cache: Cache, task: Task)
    requires Usable(cache) && task.jobs != [RemoveFromCache]
    ensures var r := Handle(registry, cache, task);
            var id := task.runId;
            match Concerned(registry, cache, task)
            case None => r == (cache, FailedWith(id))
            case Some((run, jobs)) =>
              && run.state.current == None
              && (match Activate(run.workflow.env, run.state, jobs, task.fuel)
                  case Activated(s, commands) =>
                    r.1 == Succeeded(id, commands) && id in r.0 && r.0[id].state == s && r.0[id].workflow == run.workflow
                  case ActivationFailed(_) => r.1 == FailedWith(id) && id !in r.0
                  case ActivationBroken(s) => r.1 == FailedWith(id) && id in r.0 && r.0[id].state == s && !r.0[id].intact
                  case ActivateStarved => r.1 == NeverReturns)
  {
  }

  /** What a run was given and gave since its initialization. */
  datatype Record = Record(inputs: seq<Input>, outputs: seq<Command>)

  /** The record after one more task of this run and its completion. */
  function Noted(record: Record, task: Task, completion: Completion): Record {
    match completion
    case Succeeded(_, commands) =>
      if task.jobs != [] && task.jobs[0].Initialize? then Record([Input(task.jobs[1..], task.fuel)], commands)
      else Record(record.inputs + [Input(task.jobs, task.fuel)], record.outputs + commands)
    case NeverReturns => if task.jobs != [] && task.jobs[0].Initialize? then Record([], []) else record
    case FailedWith(_) => record
  }

  /** The same, read off a list of tasks and the completions that Core got for them. */
  function Recorded(record: Record, id: string, tasks: seq<Task>, completions: seq<Completion>): Record
    requires |tasks| == |completions|
    decreases |tasks|
  {
    if tasks == [] then record
    else Recorded(if tasks[0].runId == id then Noted(record, tasks[0], completions[0]) else record,
                  id, tasks[1..], completions[1..])
  }

  ghost predicate Agrees(cache: Cache, id: string, record: Record) {
    id in cache && cache[id].intact ==> record == Record(cache[id].inputs, cache[id].outputs)
  }

  lemma NoteAgrees(registry: Registry, cache: Cache, task: Task, id: string, record: Record)
    requires Usable(cache) && Agrees(cache, id, record)
    ensures var r := Handle(registry, cache, task);
            Agrees(r.0, id, if task.runId == id then Noted(record, task, r.1) else record)
  {
  }

  lemma {:induction false} RecordsAgree(registry: Registry, cache: Cache, tasks: seq<Task>, id: string, record: Record)
    requires Usable(cache) && Agrees(cache, id, record)
    ensures var r := HandleAll(registry, cache, tasks);
            Agrees(r.0, id, Recorded(record, id, tasks, r.1))
    decreases |tasks|
  {
    if tasks != [] {
      HandleIsUsable(registry, cache, tasks[0]);
      NoteAgrees(registry, cache, tasks[0], id, record);
      var r := Handle(registry, cache, tasks[0]);
      var next := if tasks[0].runId == id then Noted(record, tasks[0], r.1) else record;
      RecordsAgree(registry, r.0, tasks[1..], id, next);
    }
  }

  /**
   Core gets what the workflow did: for a cached run that is intact, the commands in the completions of
   its own tasks since initialization, put together, are the outputs of the run of its workflow on the
   jobs of those tasks.
   */
  lemma CoreGetsTheRun(registry: Registry, tasks: seq<Task>, id: string)
    requires id in HandleAll(registry, map[], tasks).0 && HandleAll(registry, map[], tasks).0[id].intact
    ensures var r := HandleAll(registry, map[], tasks);
            var record := Recorded(Record([], []), id, tasks, r.1);
            var w := r.0[id].workflow;
            RunOf(w.env, w.mem, w.body, record.inputs) == RunOk(r.0[id].state, record.outputs)
  {
    RecordsAgree(registry, map[], tasks, id, Record([], []));
    CachedExecutionsAreRuns(registry, map[], tasks, id);
  }

  // ---- The cache as an object ----

  lemma ProcessOverwrites(cache: Cache, id: string, run: Cached, jobs: seq<Job>, fuel: nat)
    requires run.state.current == None
    ensures Process(cache[id := run], id, run, jobs, fuel) == Process(cache, id, run, jobs, fuel)
    ensures id in cache && cache[id] == run ==> cache[id := run] == cache
  {
    assert cache[id := run] - {id} == cache - {id};
    var x := Process(cache, id, run, jobs, fuel).0;
    if id in x {
      assert cache[id := run][id := x[id]] == cache[id := x[id]];
    }
  }

  class RunCache {
    const registry: Registry
    var runs: Cache

    constructor (registry: Registry)
      ensures this.registry == registry && runs == map[] && Usable(runs) && AllRuns(runs)
    {
      this.registry, runs := registry, map[];
    }

    method HandleActivation(task: Task) returns (completion: Completion)
      requires Usable(runs) && AllRuns(runs)
      modifies this
      ensures Usable(runs) && AllRuns(runs)
      ensures (runs, completion) == Handle(registry, old(runs), task)
    {
      HandleIsUsable(registry, runs, task);
      HandleKeeps(registry, runs, task);
      ghost var cache := runs;
      var id := task.runId;
      if |task.jobs| == 1 && task.jobs[0] == RemoveFromCache {
        if id in runs {
          runs := runs - {id};
        }
        assert runs == cache - {id};
        return Succeeded(id, []);
      }
      var jobs := task.jobs;
      if |jobs| > 0 && jobs[0].Initialize? {
        if id in runs {
          return FailedWith(id);
        }
        var workflow := registry(jobs[0].workflowType, id, jobs[0].input);
        if workflow == None {
          return FailedWith(id);
        }
        runs := runs[id := Cached(workflow.value, Start(workflow.value.mem, workflow.value.body), [], [], true)];
        jobs := jobs[1..];
      }
      if id !in runs {
        return FailedWith(id);
      }
      ProcessOverwrites(cache, id, runs[id], jobs, task.fuel);
      completion := ActivateRun(id, jobs, task.fuel);
    }

    method ActivateRun(id: string, jobs: seq<Job>, fuel: nat) returns (completion: Completion)
      requires id in runs && runs[id].state.current == None
      modifies this
      ensures (runs, completion) == Process(old(runs), id, old(runs)[id], jobs, fuel)
    {
      var run := runs[id];
      var r := Activate(run.workflow.env, run.state, jobs, fuel);
      match r
      case ActivateStarved =>
        completion := NeverReturns;
        assert runs == runs[id := run];
      case ActivationFailed(_) =>
        runs := runs - {id};
        completion := FailedWith(id);
      case ActivationBroken(s) =>
        runs := runs[id := run.(state := s, intact := false)];
        completion := FailedWith(id);
      case Activated(s, commands) =>
        runs := runs[id := run.(state := s, inputs := run.inputs + [Input(jobs, fuel)],
                                outputs := run.outputs + commands)];
        completion := Succeeded(id, commands);
    }
  }
}
