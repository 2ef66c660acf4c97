/** Why the progress theorem has an exception: a failed fetch can leave a stage waiting forever. */
module FailedFetch {
  import opened Wrappers
  import opened TaskGraph
  import opened StageMachine
  import opened StageSafety
  import opened StageProgress
  import opened StageOutcome

  /** Tasks 1 and 2 of stage 1 both depend on task 0 of stage 0, which ran on another process. */
  function Example<V>(body: Body<V>): Config<V>
  {
    Config([Task(0, []), Task(1, [0]), Task(1, [0])], body, 1, [1, 2], true)
  }

  /** The state after `k` steps: the first worker claims task 0, the second one waits for it, the fetch fails. */
  function Stage<V>(k: nat): Proc<V>
  {
    var shared := TaskState(if k < 2 then NotStarted else InProgress, None, 0, if k < 2 then None else Some(0), k >= 5);
    var first := TaskState(NotStarted, None, if k < 1 then 0 else 1, if k < 1 then None else Some(0), false);
    var second := TaskState(NotStarted, None, if k < 3 then 0 else 1, if k < 3 then None else Some(1), false);
    Proc([shared, first, second], [First(k), Second(k)])
  }

  function First(k: nat): Worker
  {
    if k == 0 then Worker([], 0, Running)
    else if k == 1 then Worker([Frame(1, 0, Preparing)], 2, Running)
    else if k <= 4 then Worker([Frame(1, 0, Migrating)], 2, Running)
    else if k == 5 then Worker([Frame(1, 0, Preparing)], 2, Throwing)
    else Worker([], 2, Ended(false))
  }

  function Second(k: nat): Worker
  {
    if k <= 2 then Worker([], 1, Running)
    else Worker([Frame(2, 0, if k == 3 then Preparing else Waiting)], 3, Running)
  }

  function Moves(k: nat): nat
  {
    if k == 2 || k == 3 then 1 else 0
  }

  lemma ExampleShape<V>(body: Body<V>, k: nat)
    requires k <= 6
    ensures Shape(Example(body), Stage(k))
  {
    assert WorkerShape(Example(body).g, First(k)) && WorkerShape(Example(body).g, Second(k));
  }

  lemma ExampleMoves<V>(body: Body<V>, k: nat)
    requires k <= 6 && Shape(Example(body), Stage(k))
    ensures if k < 6 then CanStep(Example(body), Stage(k), Moves(k))
            else forall w: nat :: !CanStep(Example(body), Stage(k), w)
  {
  }

  lemma SameProc<V>(p: Proc<V>, q: Proc<V>)
    requires |p.tasks| == |q.tasks| == 3 && |p.workers| == |q.workers| == 2
    requires p.tasks[0] == q.tasks[0] && p.tasks[1] == q.tasks[1] && p.tasks[2] == q.tasks[2]
    requires p.workers[0] == q.workers[0] && p.workers[1] == q.workers[1]
    ensures p == q
  {
    assert p.tasks == q.tasks && p.workers == q.workers;
  }

  /** Taking a root, and unwinding out of it. */
  lemma RootSteps<V>(body: Body<V>, k: nat)
    requires (k == 0 || k == 2 || k == 5) && Shape(Example(body), Stage(k))
    requires CanStep(Example(body), Stage(k), Moves(k))
    ensures Step(Example(body), Stage(k), Moves(k), Choice(true, None)) == Stage(k + 1)
  {
    SameProc(Step(Example(body), Stage(k), Moves(k), Choice(true, None)), Stage(k + 1));
  }

  /** Claiming the shared dependency, failing to claim it, and failing to fetch it. */
  lemma DependencySteps<V>(body: Body<V>, k: nat)
    requires (k == 1 || k == 3 || k == 4) && Shape(Example(body), Stage(k))
    requires CanStep(Example(body), Stage(k), Moves(k))
    ensures Step(Example(body), Stage(k), Moves(k), Choice(true, None)) == Stage(k + 1)
  {
    var c, p := Example(body), Stage(k);
    var q := Step(c, p, Moves(k), Choice(true, None));
    assert Dep(c.g, Top(p.workers[Moves(k)])) == 0;
    assert q.workers[Moves(k)].stack == Stage<V>(k + 1).workers[Moves(k)].stack;
    SameProc(q, Stage(k + 1));
  }

  lemma ExampleStep<V>(body: Body<V>, k: nat)
    requires k < 6
    ensures Shape(Example(body), Stage(k)) && CanStep(Example(body), Stage(k), Moves(k))
    ensures FetchOk(Example(body), Stage(k), Moves(k), Choice(true, None))
    ensures Step(Example(body), Stage(k), Moves(k), Choice(true, None)) == Stage(k + 1)
  {
    ExampleShape(body, k);
    ExampleMoves(body, k);
    if k == 0 || k == 2 || k == 5 { RootSteps(body, k); } else { DependencySteps(body, k); }
  }

  lemma {:induction false} ExampleRun<V>(body: Body<V>, k: nat) returns (acts: seq<Act<V>>)
    requires k <= 6
    ensures Run(Example(body), Stage(k), acts) && After(Example(body), Stage(k), acts) == Stage(6)
    decreases 6 - k
  {
    acts := [];
    if k < 6 {
      ExampleStep(body, k);
      var rest := ExampleRun(body, k + 1);
      acts := [Act(Moves(k), Choice(true, None))] + rest;
      assert acts[1..] == rest;
    }
  }

  lemma ExampleReady<V>(body: Body<V>)
    ensures ConfigOk(Example(body)) && Ready(Example(body), Stage(0).tasks) && Stage<V>(0).workers == Team(2)
  {
    var c, ts := Example(body), Stage<V>(0).tasks;
    forall t | 0 <= t < |c.g| ensures Settled(c.g, c.body, ts, t) && ts[t].status.NotStarted? {
      assert ts[t] == TaskState(NotStarted, None, 0, None, false);
    }
  }

  /** Two tasks share a dependency of an earlier stage. If fetching it fails, the worker that tried ends with an
    exception and the other one waits forever: no worker can step, and the stage is not over. */
  lemma FailedFetchDeadlocks<V>(body: Body<V>) returns (acts: seq<Act<V>>)
    ensures ConfigOk(Example(body)) && Ready(Example(body), Stage(0).tasks) && Stage<V>(0).workers == Team(2)
    ensures Run(Example(body), Stage(0), acts)
    ensures var p := After(Example(body), Stage(0), acts);
      Shape(Example(body), p) && !AllEnded(p) && forall w: nat :: !CanStep(Example(body), p, w)
  {
    acts := ExampleRun(body, 0);
    ExampleShape(body, 6);
    ExampleMoves(body, 6);
    assert !Stage<V>(6).workers[1].mode.Ended?;
    ExampleReady(body);
  }
}
