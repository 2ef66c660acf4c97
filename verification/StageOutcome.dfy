/** Entering and leaving a stage, and what holds over a whole run of it. */
module StageOutcome {
  import opened Wrappers
  import opened TaskGraph
  import opened StageMachine
  import opened StageSafety
  import opened StageProgress

  /** What a process's tasks look like between stages. */
  ghost predicate Settled<V>(g: Graph, body: Body<V>, ts: seq<TaskState<V>>, t: nat)
    requires WellFormed(g) && t < |g| == |ts|
  {
    var x := ts[t];
    !x.lost && x.starts <= 1 &&
    (x.status.NotStarted? || x.status.Finished?) &&
    (x.status.NotStarted? ==> x.owner.None? && x.starts == 0) &&
    (x.status.Finished? ==> x.owner.Some? && x.result == Some(Val(g, body, t))) &&
    (x.starts == 1 ==> forall i :: 0 <= i < |g[t].deps| ==>
       ts[g[t].deps[i]].status.Finished? && Usable(g, t, g[t].deps[i], ts[g[t].deps[i]]))
  }

  ghost predicate Ready<V>(c: Config<V>, ts: seq<TaskState<V>>)
  {
    WellFormed(c.g) && |ts| == |c.g| &&
    forall t :: 0 <= t < |c.g| ==>
      Settled(c.g, c.body, ts, t) && (c.g[t].stage >= c.stage ==> ts[t].status.NotStarted?)
  }

  function Team(n: nat): seq<Worker>
  {
    seq(n, w requires 0 <= w < n => Worker([], w, Running))
  }

  /** Every worker of a new team has its first root before it. */
  lemma TeamOk<V>(c: Config<V>, p: Proc<V>, n: nat, w: nat)
    requires Shape(c, p) && ConfigOk(c) && p.workers == Team(n) && w < n
    ensures WorkerOk(c, p, w)
  {
    assert p.workers[w].idx == w && w % n == w;
  }

  lemma RootAhead<V>(c: Config<V>, p: Proc<V>, n: nat, j: nat)
    requires Shape(c, p) && ConfigOk(c) && p.workers == Team(n) && j < |c.roots|
    requires p.tasks[c.roots[j]].owner.None? && p.tasks[c.roots[j]].status.NotStarted?
    ensures RootOk(c, p, j)
  {
    if n > 0 { assert p.workers[j % n].idx == j % n <= j; }
  }

  lemma EnterKeeps<V>(c: Config<V>, ts: seq<TaskState<V>>, n: nat)
    requires ConfigOk(c) && Ready(c, ts)
    ensures Inv(c, Proc(ts, Team(n)))
  {
    var p := Proc(ts, Team(n));
    assert Shape(c, p);
    forall w | 0 <= w < n ensures WorkerOk(c, p, w) {
      TeamOk(c, p, n, w);
    }
    forall t | 0 <= t < |c.g| ensures TaskOk(c, p, t) {
      assert Settled(c.g, c.body, ts, t);
    }
    forall j | 0 <= j < |c.roots| ensures RootOk(c, p, j) {
      assert Settled(c.g, c.body, ts, c.roots[j]);
      RootAhead(c, p, n, j);
    }
  }

  ghost predicate NothingLost<V>(p: Proc<V>)
  {
    forall t :: 0 <= t < |p.tasks| ==> !p.tasks[t].lost
  }

  ghost predicate Succeeded<V>(p: Proc<V>)
  {
    forall w :: 0 <= w < |p.workers| ==> p.workers[w].mode == Ended(true)
  }

  /** If no worker recorded an exception, every root of the stage is finished: the strides cover the root list. */
  lemma RootsFinished<V>(c: Config<V>, p: Proc<V>, j: nat)
    requires Inv(c, p) && Succeeded(p) && p.workers != [] && j < |c.roots|
    ensures p.tasks[c.roots[j]].status.Finished? && p.tasks[c.roots[j]].starts == 1
  {
    var w := j % |p.workers|;
    assert RootOk(c, p, j) && WorkerOk(c, p, w) && p.workers[w].mode == Ended(true);
  }

  lemma {:induction false} ReachedFinished<V>(c: Config<V>, p: Proc<V>, a: nat, t: nat)
    requires Inv(c, p) && a < |c.g| && c.g[a].stage == c.stage && p.tasks[a].status.Finished? && Reaches(c.g, a, t)
    ensures t < |c.g| && p.tasks[t].status.Finished? && p.tasks[t].starts == 1
    decreases a
  {
    assert TaskOk(c, p, a);
    if a != t {
      var i :| 0 <= i < |c.g[a].deps| && c.g[c.g[a].deps[i]].stage == c.g[a].stage && Reaches(c.g, c.g[a].deps[i], t);
      assert DepsFinished(c, p, a);
      ReachedFinished(c, p, c.g[a].deps[i], t);
    }
  }

  /** A successful stage executes exactly the tasks of the stage that its roots reach. */
  lemma StageExecutes<V>(c: Config<V>, p: Proc<V>, t: nat)
    requires Inv(c, p) && Succeeded(p) && p.workers != [] && t < |c.g| && c.g[t].stage == c.stage
    ensures p.tasks[t].status.Finished? <==> FromRoots(c, t)
    ensures p.tasks[t].starts == if FromRoots(c, t) then 1 else 0
  {
    assert TaskOk(c, p, t);
    if FromRoots(c, t) {
      var j :| 0 <= j < |c.roots| && Reaches(c.g, c.roots[j], t);
      RootsFinished(c, p, j);
      ReachedFinished(c, p, c.roots[j], t);
    }
  }

  /** A successful stage leaves the process ready for the next one: nothing is in progress, failed or abandoned. */
  lemma SuccessSettles<V>(c: Config<V>, p: Proc<V>, c': Config<V>)
    requires Inv(c, p) && Succeeded(p)
    requires c'.g == c.g && c'.body == c.body && c'.stage == c.stage + 1
    ensures Ready(c', p.tasks)
  {
    forall t | 0 <= t < |c.g|
      ensures Settled(c.g, c.body, p.tasks, t) && (c.g[t].stage >= c'.stage ==> p.tasks[t].status.NotStarted?)
    {
      assert TaskOk(c, p, t);
      var x := p.tasks[t];
      if x.owner.Some? && x.owner.value < |p.workers| {
        assert WorkerOk(c, p, x.owner.value) && p.workers[x.owner.value].mode == Ended(true);
      }
      if t in c.roots {
        var j :| 0 <= j < |c.roots| && c.roots[j] == t;
        if p.workers == [] { assert RootOk(c, p, j); } else { RootsFinished(c, p, j); }
      }
      if x.starts == 1 { assert DepsFinished(c, p, t); }
    }
  }

  datatype Act<V> = Act(worker: nat, choice: Choice<V>)

  /** `acts` is a sequence of steps that the workers can take one after the other from `p`. */
  ghost predicate Run<V>(c: Config<V>, p: Proc<V>, acts: seq<Act<V>>)
    decreases |acts|
  {
    acts == [] ||
    (Shape(c, p) && CanStep(c, p, acts[0].worker) && FetchOk(c, p, acts[0].worker, acts[0].choice) &&
     Run(c, Step(c, p, acts[0].worker, acts[0].choice), acts[1..]))
  }

  ghost function After<V>(c: Config<V>, p: Proc<V>, acts: seq<Act<V>>): Proc<V>
    requires Run(c, p, acts)
    decreases |acts|
  {
    if acts == [] then p else After(c, Step(c, p, acts[0].worker, acts[0].choice), acts[1..])
  }

  /** Over every run from a state that satisfies the invariant: it still does, and the run is bounded. */
  lemma {:induction false} RunKeeps<V>(c: Config<V>, p: Proc<V>, acts: seq<Act<V>>)
    requires Inv(c, p) && Run(c, p, acts)
    ensures Inv(c, After(c, p, acts)) && |acts| + Measure(c.g, After(c, p, acts)) <= Measure(c.g, p)
    decreases |acts|
  {
    if acts != [] {
      StepKeeps(c, p, acts[0].worker, acts[0].choice);
      StepDecreases(c, p, acts[0].worker, acts[0].choice);
      RunKeeps(c, Step(c, p, acts[0].worker, acts[0].choice), acts[1..]);
    }
  }

  /** In every interleaving of a stage: a body starts at most once, a result is visible only once its task is
    finished, a visible result is the sequential value, and the run is bounded by the initial measure. */
  lemma StageRun<V>(c: Config<V>, ts: seq<TaskState<V>>, n: nat, acts: seq<Act<V>>, t: nat)
    requires ConfigOk(c) && Ready(c, ts) && Run(c, Proc(ts, Team(n)), acts) && t < |c.g|
    ensures var p := After(c, Proc(ts, Team(n)), acts);
      |p.tasks| == |c.g| && p.tasks[t].starts <= 1 &&
      (Result(p, t).Some? <==> p.tasks[t].status.Finished?) &&
      (Result(p, t).Some? ==> Result(p, t).value == Val(c.g, c.body, t)) &&
      |acts| <= Measure(c.g, Proc(ts, Team(n)))
  {
    EnterKeeps(c, ts, n);
    RunKeeps(c, Proc(ts, Team(n)), acts);
    var p := After(c, Proc(ts, Team(n)), acts);
    MeasureNonNegative(c, p);
    assert TaskOk(c, p, t);
  }

  /** A stage that cannot go on is over exactly if no worker waits for an abandoned task; such a wait never ends. */
  lemma StageEnds<V>(c: Config<V>, ts: seq<TaskState<V>>, n: nat, acts: seq<Act<V>>)
    requires ConfigOk(c) && Ready(c, ts) && Run(c, Proc(ts, Team(n)), acts)
    ensures var p := After(c, Proc(ts, Team(n)), acts);
      Shape(c, p) &&
      ((forall w: nat :: !CanStep(c, p, w)) ==> (AllEnded(p) <==> forall w: nat :: !WaitsForLost(c, p, w)))
  {
    EnterKeeps(c, ts, n);
    RunKeeps(c, Proc(ts, Team(n)), acts);
    var p := After(c, Proc(ts, Team(n)), acts);
    if !AllEnded(p) { Progress(c, p); }
  }

  /** Waiting for an abandoned task never ends, whatever the workers do. */
  lemma {:induction false} LostWaitIsForever<V>(c: Config<V>, p: Proc<V>, w: nat, acts: seq<Act<V>>)
    requires Inv(c, p) && WaitsForLost(c, p, w) && Run(c, p, acts)
    ensures Shape(c, After(c, p, acts)) && WaitsForLost(c, After(c, p, acts), w) && !AllEnded(After(c, p, acts))
    decreases |acts|
  {
    if acts != [] {
      StepKeeps(c, p, acts[0].worker, acts[0].choice);
      LostWaitStays(c, p, w, acts[0].worker, acts[0].choice);
      LostWaitIsForever(c, Step(c, p, acts[0].worker, acts[0].choice), w, acts[1..]);
    }
  }

  // ---------- A task that is neither executed nor fetched ----------

  ghost predicate FetchedAt(g: Graph, k: Worker, d: nat)
  {
    k.stack != [] && Top(k).phase.Fetched? && FrameShape(g, Top(k)) && Dep(g, Top(k)) == d
  }

  /** The process has no result of `d`, and none is on its way. */
  ghost predicate Absent<V>(g: Graph, p: Proc<V>, d: nat)
  {
    d < |p.tasks| && p.tasks[d].starts == 0 && !p.tasks[d].status.Finished? &&
    forall w :: 0 <= w < |p.workers| ==> !FetchedAt(g, p.workers[w], d)
  }

  ghost predicate Fetches<V>(c: Config<V>, p: Proc<V>, w: nat, d: nat)
    requires Shape(c, p) && w < |p.workers|
  {
    var k := p.workers[w];
    k.mode.Running? && k.stack != [] && Top(k).phase.Migrating? && Dep(c.g, Top(k)) == d
  }

  /** A task of another rank's pipelines is not started here. */
  lemma UnstartedStays<V>(c: Config<V>, p: Proc<V>, w: nat, ch: Choice<V>, d: nat)
    requires Inv(c, p) && CanStep(c, p, w) && Inv(c, Step(c, p, w, ch)) && d < |c.g| && p.tasks[d].starts == 0
    requires c.g[d].stage == c.stage ==> !FromRoots(c, d)
    ensures Step(c, p, w, ch).tasks[d].starts == 0
  {
    var k := p.workers[w];
    if c.g[d].stage >= c.stage {
      assert TaskOk(c, Step(c, p, w, ch), d);
    } else {
      assert WorkerOk(c, p, w);
      if k.stack != [] { assert FrameOk(c, p, w, |k.stack| - 1); }
    }
  }

  lemma AbsentTask<V>(c: Config<V>, p: Proc<V>, w: nat, ch: Choice<V>, d: nat)
    requires Inv(c, p) && CanStep(c, p, w) && Inv(c, Step(c, p, w, ch)) && d < |c.g| && Absent(c.g, p, d)
    requires c.g[d].stage == c.stage ==> !FromRoots(c, d)
    ensures var x := Step(c, p, w, ch).tasks[d]; x.starts == 0 && !x.status.Finished?
  {
    var k := p.workers[w];
    UnstartedStays(c, p, w, ch, d);
    if c.g[d].stage >= c.stage {
      assert TaskOk(c, Step(c, p, w, ch), d);
    } else {
      assert WorkerOk(c, p, w);
      if k.stack != [] { assert FrameOk(c, p, w, |k.stack| - 1); }
    }
  }

  lemma AbsentWorker<V>(c: Config<V>, p: Proc<V>, w: nat, ch: Choice<V>, d: nat)
    requires Inv(c, p) && CanStep(c, p, w) && Inv(c, Step(c, p, w, ch)) && d < |c.g| && Absent(c.g, p, d)
    requires Fetches(c, p, w, d) ==> ch.fetched.None?
    ensures !FetchedAt(c.g, Step(c, p, w, ch).workers[w], d)
  {
    var k := p.workers[w];
    assert WorkerOk(c, p, w);
    if |k.stack| > 1 { assert FrameOk(c, p, w, |k.stack| - 1); }
  }

  /** It stays so if no root of the stage reaches the task and no fetch brings it. */
  lemma AbsentStays<V>(c: Config<V>, p: Proc<V>, w: nat, ch: Choice<V>, d: nat)
    requires Inv(c, p) && CanStep(c, p, w) && FetchOk(c, p, w, ch) && d < |c.g| && Absent(c.g, p, d)
    requires c.g[d].stage == c.stage ==> !FromRoots(c, d)
    requires Fetches(c, p, w, d) ==> ch.fetched.None?
    ensures Absent(c.g, Step(c, p, w, ch), d)
  {
    StepKeeps(c, p, w, ch);
    AbsentTask(c, p, w, ch, d);
    AbsentWorker(c, p, w, ch, d);
  }

  lemma EnterAbsent<V>(g: Graph, ts: seq<TaskState<V>>, n: nat, d: nat)
    requires d < |ts| && ts[d].starts == 0 && !ts[d].status.Finished?
    ensures Absent(g, Proc(ts, Team(n)), d)
  {
  }

  // ---------- A stage in which nothing throws ----------

  ghost predicate Calm<V>(p: Proc<V>)
  {
    forall w :: 0 <= w < |p.workers| ==> !Threw(p.workers[w])
  }

  /** Worker `w` is about to compute its task. */
  ghost predicate AtCompute<V>(c: Config<V>, p: Proc<V>, w: nat)
    requires Shape(c, p) && w < |p.workers|
  {
    var k := p.workers[w];
    k.mode.Running? && k.stack != [] && Top(k).phase.Preparing? && Top(k).next == |c.g[Top(k).task].deps|
  }

  /** A step throws only if a body throws, a claim is abandoned, or a merge task finds no offsets. */
  lemma CalmStays<V>(c: Config<V>, p: Proc<V>, w: nat, ch: Choice<V>)
    requires Inv(c, p) && CanStep(c, p, w) && Calm(p) && ch.ok
    requires AtCompute(c, p, w) ==> Computable(c, p, Top(p.workers[w]).task)
    requires forall t :: 0 <= t < |Step(c, p, w, ch).tasks| ==> !Step(c, p, w, ch).tasks[t].lost
    ensures Calm(Step(c, p, w, ch))
  {
    var k, q := p.workers[w], Step(c, p, w, ch);
    assert WorkerOk(c, p, w);
    if k.stack != [] && Top(k).next < |c.g[Top(k).task].deps| {
      var d := Dep(c.g, Top(k));
      assert TaskOk(c, p, d) && FrameOk(c, p, w, |k.stack| - 1);
      assert !q.tasks[d].lost;
    }
  }

  /** At that point all dependencies are finished, and those of the stage itself were executed here. */
  lemma ComputesWith<V>(c: Config<V>, p: Proc<V>, w: nat, i: nat)
    requires Inv(c, p) && w < |p.workers| && AtCompute(c, p, w) && i < |c.g[Top(p.workers[w]).task].deps|
    ensures var t := Top(p.workers[w]).task; var d := c.g[t].deps[i];
      c.g[t].stage == c.stage && FromRoots(c, t) && p.tasks[d].status.Finished? &&
      (c.g[d].stage == c.stage ==> p.tasks[d].starts == 1)
  {
    var t := Top(p.workers[w]).task;
    assert WorkerOk(c, p, w) && FrameOk(c, p, w, |p.workers[w].stack| - 1);
    assert TaskOk(c, p, t) && TaskOk(c, p, c.g[t].deps[i]);
  }
}
