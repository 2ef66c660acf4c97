/** The stage loop of a single process: run a stage's workers, join them, rethrow or go on to the next stage. */
module SingleGpu {
  import opened Wrappers
  import opened TaskGraph
  import opened StageMachine
  import opened StageSafety
  import opened StageProgress
  import opened StageOutcome

  datatype Plan<!V> = Plan(g: Graph, body: Body<V>, stageRoots: seq<seq<nat>>, maxWorkers: nat)

  function StageOf<V>(plan: Plan<V>, k: nat): Config<V>
    requires k < |plan.stageRoots|
  {
    Config(plan.g, plan.body, k, plan.stageRoots[k], false)
  }

  function Workers<V>(plan: Plan<V>, k: nat): nat
    requires k < |plan.stageRoots|
  {
    if plan.maxWorkers < |plan.stageRoots[k]| then plan.maxWorkers else |plan.stageRoots[k]|
  }

  /** What the graph builder always delivers: good root lists. */
  ghost predicate StagesOk<V>(plan: Plan<V>)
  {
    WellFormed(plan.g) && forall k :: 0 <= k < |plan.stageRoots| ==> ConfigOk(StageOf(plan, k))
  }

  /** A root of its stage reaches `d`. */
  ghost predicate Covered<V>(plan: Plan<V>, d: nat)
    requires d < |plan.g|
  {
    plan.g[d].stage < |plan.stageRoots| && ConfigOk(StageOf(plan, plan.g[d].stage)) &&
    FromRoots(StageOf(plan, plan.g[d].stage), d)
  }

  /** Task `t` finds what it needs of its dependency `d`: it is executed, and it is a partition task if `t` merges. */
  ghost predicate Feeds<V>(plan: Plan<V>, t: nat, d: nat)
    requires t < |plan.g| && d < |plan.g|
  {
    Covered(plan, d) && (plan.g[t].kind.Merge? ==> plan.g[d].kind.Partition?)
  }

  /** Every executed task finds what it needs. */
  ghost predicate Fed<V>(plan: Plan<V>)
    requires WellFormed(plan.g)
  {
    forall t, i :: 0 <= t < |plan.g| && 0 <= i < |plan.g[t].deps| && Covered(plan, t) ==>
      Feeds(plan, t, plan.g[t].deps[i])
  }

  datatype Sys<V> =
    | Executing(k: nat, p: Proc<V>)
    | Done(tasks: seq<TaskState<V>>)
    | Rethrown(k: nat, tasks: seq<TaskState<V>>)

  /** Start stage `k`. A stage without roots gets no workers and is left at once. */
  function Begin<V>(plan: Plan<V>, k: nat, ts: seq<TaskState<V>>): Sys<V>
    requires k <= |plan.stageRoots|
  {
    if k == |plan.stageRoots| then Done(ts) else Executing(k, Proc(ts, Team(Workers(plan, k))))
  }

  function Fresh<V>(n: nat): seq<TaskState<V>>
  {
    seq(n, _ => TaskState(NotStarted, None, 0, None, false))
  }

  /** A worker's step, or the main thread joining all workers. A single process never receives a result. */
  datatype Move = Work(worker: nat, ok: bool) | Join

  ghost predicate CanMove<V>(plan: Plan<V>, s: Sys<V>, m: Move)
  {
    s.Executing? && s.k < |plan.stageRoots| && Shape(StageOf(plan, s.k), s.p) &&
    match m
    case Work(w, _) => CanStep(StageOf(plan, s.k), s.p, w)
    case Join => AllEnded(s.p)
  }

  ghost function Next<V>(plan: Plan<V>, s: Sys<V>, m: Move): Sys<V>
    requires CanMove(plan, s, m)
  {
    match m
    case Work(w, ok) => s.(p := Step(StageOf(plan, s.k), s.p, w, Choice(ok, None)))
    case Join => if Succeeded(s.p) then Begin(plan, s.k + 1, s.p.tasks) else Rethrown(s.k, s.p.tasks)
  }

  /** Everything a root of an earlier stage reaches is finished. */
  ghost predicate EarlierDone<V>(plan: Plan<V>, k: nat, ts: seq<TaskState<V>>)
    requires |ts| == |plan.g|
  {
    forall d :: 0 <= d < |plan.g| && plan.g[d].stage < k && Covered(plan, d) ==>
      ts[d].status.Finished? && ts[d].starts == 1
  }

  ghost predicate LaterUntouched<V>(plan: Plan<V>, k: nat, ts: seq<TaskState<V>>)
    requires |ts| == |plan.g|
  {
    forall t :: 0 <= t < |plan.g| && plan.g[t].stage > k ==> ts[t].status.NotStarted? && ts[t].starts == 0
  }

  ghost predicate SysInv<V>(plan: Plan<V>, s: Sys<V>)
  {
    StagesOk(plan) &&
    match s
    case Executing(k, p) =>
      k < |plan.stageRoots| && Inv(StageOf(plan, k), p) && |p.workers| == Workers(plan, k) &&
      (plan.maxWorkers > 0 ==> EarlierDone(plan, k, p.tasks))
    case Done(ts) =>
      |ts| == |plan.g| && (plan.maxWorkers > 0 ==> EarlierDone(plan, |plan.stageRoots|, ts)) &&
      forall t :: 0 <= t < |ts| ==> Settled(plan.g, plan.body, ts, t)
    case Rethrown(k, ts) =>
      k < |plan.stageRoots| && |ts| == |plan.g| && LaterUntouched(plan, k, ts)
  }

  /** What a worker is about to claim from an earlier stage is finished already. */
  lemma EarlierFinished<V>(plan: Plan<V>, k: nat, p: Proc<V>, w: nat)
    requires SysInv(plan, Executing(k, p)) && Fed(plan) && w < |p.workers| && p.workers[w].stack != []
    requires var f := Top(p.workers[w]); f.next < |plan.g[f.task].deps| && plan.g[Dep(plan.g, f)].stage < k
    ensures p.tasks[Dep(plan.g, Top(p.workers[w]))].status.Finished?
  {
    var c, f := StageOf(plan, k), Top(p.workers[w]);
    assert WorkerOk(c, p, w) && FrameOk(c, p, w, |p.workers[w].stack| - 1) && TaskOk(c, p, f.task);
    assert Covered(plan, f.task);
    assert Feeds(plan, f.task, plan.g[f.task].deps[f.next]);
  }

  /** So no worker ever abandons a claim: both `logic_error` branches are dead. */
  lemma NeverLoses<V>(plan: Plan<V>, k: nat, p: Proc<V>, w: nat, ok: bool)
    requires SysInv(plan, Executing(k, p)) && CanStep(StageOf(plan, k), p, w) && Fed(plan) && NothingLost(p)
    ensures NothingLost(Step(StageOf(plan, k), p, w, Choice(ok, None)))
  {
    var c, x := StageOf(plan, k), p.workers[w];
    if x.stack != [] && Top(x).next < |c.g[Top(x).task].deps| {
      var d := Dep(c.g, Top(x));
      assert WorkerOk(c, p, w) && FrameOk(c, p, w, |x.stack| - 1) && TaskOk(c, p, d);
      if c.g[d].stage < k { EarlierFinished(plan, k, p, w); }
    }
  }

  lemma BeginKeeps<V>(plan: Plan<V>, k: nat, ts: seq<TaskState<V>>)
    requires StagesOk(plan) && k <= |plan.stageRoots| && |ts| == |plan.g|
    requires Ready(Config(plan.g, plan.body, k, [], false), ts)
    requires plan.maxWorkers > 0 ==> EarlierDone(plan, k, ts)
    ensures SysInv(plan, Begin(plan, k, ts))
  {
    if k < |plan.stageRoots| {
      EnterKeeps(StageOf(plan, k), ts, Workers(plan, k));
    }
  }

  lemma JoinKeeps<V>(plan: Plan<V>, k: nat, p: Proc<V>)
    requires SysInv(plan, Executing(k, p)) && AllEnded(p)
    ensures SysInv(plan, Next(plan, Executing(k, p), Join))
  {
    var c := StageOf(plan, k);
    if Succeeded(p) {
      SuccessSettles(c, p, Config(plan.g, plan.body, k + 1, [], false));
      if plan.maxWorkers > 0 {
        forall d | 0 <= d < |plan.g| && plan.g[d].stage < k + 1 && Covered(plan, d)
          ensures p.tasks[d].status.Finished? && p.tasks[d].starts == 1
        {
          if plan.g[d].stage == k { StageExecutes(c, p, d); }
        }
      }
      BeginKeeps(plan, k + 1, p.tasks);
    } else {
      forall t | 0 <= t < |plan.g| && plan.g[t].stage > k
        ensures p.tasks[t].status.NotStarted? && p.tasks[t].starts == 0
      {
        assert TaskOk(c, p, t);
      }
    }
  }

  lemma WorkKeeps<V>(plan: Plan<V>, k: nat, p: Proc<V>, w: nat, ok: bool)
    requires SysInv(plan, Executing(k, p)) && CanStep(StageOf(plan, k), p, w)
    ensures SysInv(plan, Next(plan, Executing(k, p), Work(w, ok)))
  {
    var c := StageOf(plan, k);
    var ch := Choice(ok, None);
    StepKeeps(c, p, w, ch);
    var q := Step(c, p, w, ch);
    forall d | 0 <= d < |plan.g| && plan.g[d].stage < k && Covered(plan, d)
      ensures q.tasks[d].status.Finished? && q.tasks[d].starts == 1
    {
      FinishedStays(c, p, w, ch, d);
    }
  }

  /** The main thread or some worker can always move until the stages are done or an exception is rethrown. */
  lemma SysProgress<V>(plan: Plan<V>, s: Sys<V>)
    requires SysInv(plan, s) && s.Executing? && NothingLost(s.p)
    ensures exists m: Move :: CanMove(plan, s, m)
  {
    var c := StageOf(plan, s.k);
    if AllEnded(s.p) {
      assert CanMove(plan, s, Join);
    } else {
      Progress(c, s.p);
      var v :| CanStep(c, s.p, v) || WaitsForLost(c, s.p, v);
      assert CanMove(plan, s, Work(v, true));
    }
  }

  function Rest<V>(plan: Plan<V>, k: nat): int
    requires k <= |plan.stageRoots|
    decreases |plan.stageRoots| - k
  {
    if k == |plan.stageRoots| then 0 else 1 + 3 * Workers(plan, k) + Rest(plan, k + 1)
  }

  /** A bound on the moves still to come. */
  function SysMeasure<V>(plan: Plan<V>, s: Sys<V>): int
    requires s.Executing? ==> s.k < |plan.stageRoots| && |s.p.tasks| == |plan.g|
  {
    if s.Executing? then Measure(plan.g, s.p) + 1 + Rest(plan, s.k + 1) else 0
  }

  lemma {:induction false} TeamCost(g: Graph, n: nat)
    ensures TeamWork(g, Team(n)) == 3 * n
  {
    if n > 0 {
      assert Team(n)[..n-1] == Team(n-1);
      TeamCost(g, n - 1);
    }
  }

  lemma {:induction false} RestNonNegative<V>(plan: Plan<V>, k: nat)
    requires k <= |plan.stageRoots|
    ensures Rest(plan, k) >= 0
    decreases |plan.stageRoots| - k
  {
    if k < |plan.stageRoots| { RestNonNegative(plan, k + 1); }
  }

  lemma MoveKeeps<V>(plan: Plan<V>, s: Sys<V>, m: Move)
    requires SysInv(plan, s) && CanMove(plan, s, m)
    ensures SysInv(plan, Next(plan, s, m)) && SysMeasure(plan, Next(plan, s, m)) < SysMeasure(plan, s)
  {
    var c := StageOf(plan, s.k);
    match m
    case Work(w, ok) =>
      WorkKeeps(plan, s.k, s.p, w, ok);
      StepDecreases(c, s.p, w, Choice(ok, None));
    case Join =>
      JoinKeeps(plan, s.k, s.p);
      JoinDecreases(plan, s.k, s.p);
  }

  lemma JoinDecreases<V>(plan: Plan<V>, k: nat, p: Proc<V>)
    requires k < |plan.stageRoots| && Shape(StageOf(plan, k), p) && AllEnded(p)
    ensures SysMeasure(plan, Next(plan, Executing(k, p), Join)) < SysMeasure(plan, Executing(k, p))
  {
    TeamWorkNonNegative(plan.g, p.workers);
    PoolNonNegative(plan.g, p.tasks);
    RestNonNegative(plan, k + 1);
    if k + 1 < |plan.stageRoots| { TeamCost(plan.g, Workers(plan, k + 1)); }
  }

  lemma SysMeasureNonNegative<V>(plan: Plan<V>, s: Sys<V>)
    requires s.Executing? ==> s.k < |plan.stageRoots| && Shape(StageOf(plan, s.k), s.p)
    ensures SysMeasure(plan, s) >= 0
  {
    if s.Executing? {
      MeasureNonNegative(StageOf(plan, s.k), s.p);
      RestNonNegative(plan, s.k + 1);
    }
  }

  ghost predicate SysRun<V>(plan: Plan<V>, s: Sys<V>, ms: seq<Move>)
    decreases |ms|
  {
    ms == [] || (CanMove(plan, s, ms[0]) && SysRun(plan, Next(plan, s, ms[0]), ms[1..]))
  }

  ghost function SysAfter<V>(plan: Plan<V>, s: Sys<V>, ms: seq<Move>): Sys<V>
    requires SysRun(plan, s, ms)
    decreases |ms|
  {
    if ms == [] then s else SysAfter(plan, Next(plan, s, ms[0]), ms[1..])
  }

  lemma {:induction false} SysRunKeeps<V>(plan: Plan<V>, s: Sys<V>, ms: seq<Move>)
    requires SysInv(plan, s) && SysRun(plan, s, ms)
    ensures SysInv(plan, SysAfter(plan, s, ms)) && |ms| + SysMeasure(plan, SysAfter(plan, s, ms)) <= SysMeasure(plan, s)
    decreases |ms|
  {
    if ms != [] {
      MoveKeeps(plan, s, ms[0]);
      SysRunKeeps(plan, Next(plan, s, ms[0]), ms[1..]);
    }
  }

  ghost predicate Unlost<V>(s: Sys<V>)
  {
    s.Executing? ==> NothingLost(s.p)
  }

  lemma MoveLosesNothing<V>(plan: Plan<V>, s: Sys<V>, m: Move)
    requires SysInv(plan, s) && CanMove(plan, s, m) && Fed(plan) && Unlost(s)
    ensures Unlost(Next(plan, s, m))
  {
    match m
    case Work(w, ok) => NeverLoses(plan, s.k, s.p, w, ok);
    case Join =>
  }

  lemma {:induction false} RunLosesNothing<V>(plan: Plan<V>, s: Sys<V>, ms: seq<Move>)
    requires SysInv(plan, s) && Fed(plan) && Unlost(s) && SysRun(plan, s, ms)
    ensures Unlost(SysAfter(plan, s, ms))
    decreases |ms|
  {
    if ms != [] {
      MoveKeeps(plan, s, ms[0]);
      MoveLosesNothing(plan, s, ms[0]);
      RunLosesNothing(plan, Next(plan, s, ms[0]), ms[1..]);
    }
  }

  ghost function Start<V>(plan: Plan<V>): Sys<V>
  {
    Begin(plan, 0, Fresh(|plan.g|))
  }

  lemma StartOk<V>(plan: Plan<V>)
    requires StagesOk(plan)
    ensures SysInv(plan, Start(plan)) && Unlost(Start(plan))
  {
    BeginKeeps(plan, 0, Fresh(|plan.g|));
  }

  ghost predicate AllRootsHaveValues<V>(plan: Plan<V>, ts: seq<TaskState<V>>)
    requires StagesOk(plan) && |ts| == |plan.g|
  {
    forall k, j :: 0 <= k < |plan.stageRoots| && 0 <= j < |plan.stageRoots[k]| ==>
      RootHasValue(plan, ts, plan.stageRoots[k][j])
  }

  ghost predicate RootHasValue<V>(plan: Plan<V>, ts: seq<TaskState<V>>, r: nat)
    requires WellFormed(plan.g) && |ts| == |plan.g|
  {
    r < |plan.g| && ts[r].status.Finished? && ts[r].result == Some(Val(plan.g, plan.body, r))
  }

  /** Every run of the whole task graph is bounded; if every executed task finds what it needs it moves on until it
    ends; ending normally means every root of every stage holds its sequential value; ending with a rethrown exception
    means no later stage has started. */
  lemma TaskGraphRun<V>(plan: Plan<V>, ms: seq<Move>)
    requires StagesOk(plan) && plan.maxWorkers > 0 && SysRun(plan, Start(plan), ms)
    ensures var s := SysAfter(plan, Start(plan), ms);
      |ms| <= SysMeasure(plan, Start(plan)) &&
      (s.Executing? && Fed(plan) ==> NothingLost(s.p) && exists m: Move :: CanMove(plan, s, m)) &&
      (s.Done? ==> |s.tasks| == |plan.g| && AllRootsHaveValues(plan, s.tasks)) &&
      (s.Rethrown? ==> |s.tasks| == |plan.g| && LaterUntouched(plan, s.k, s.tasks))
  {
    StartOk(plan);
    SysRunKeeps(plan, Start(plan), ms);
    var s := SysAfter(plan, Start(plan), ms);
    SysMeasureNonNegative(plan, s);
    if s.Executing? && Fed(plan) {
      RunLosesNothing(plan, Start(plan), ms);
      SysProgress(plan, s);
    } else if s.Done? {
      DoneHasValues(plan, s.tasks);
    }
  }

  lemma DoneHasValues<V>(plan: Plan<V>, ts: seq<TaskState<V>>)
    requires SysInv(plan, Done(ts)) && plan.maxWorkers > 0
    ensures AllRootsHaveValues(plan, ts)
  {
    forall k, j | 0 <= k < |plan.stageRoots| && 0 <= j < |plan.stageRoots[k]|
      ensures RootHasValue(plan, ts, plan.stageRoots[k][j])
    {
      var r := plan.stageRoots[k][j];
      assert ConfigOk(StageOf(plan, k));
      assert Reaches(plan.g, r, r);
      assert StageOf(plan, k).roots[j] == r;
      assert Covered(plan, r);
      assert Settled(plan.g, plan.body, ts, r);
    }
  }

  /** With a worker limit of zero every stage is left without running anything and without an error. */
  lemma {:induction false} ZeroWorkersSkip<V>(plan: Plan<V>, k: nat, ts: seq<TaskState<V>>) returns (ms: seq<Move>)
    requires StagesOk(plan) && plan.maxWorkers == 0 && k <= |plan.stageRoots| && |ts| == |plan.g|
    ensures SysRun(plan, Begin(plan, k, ts), ms) && SysAfter(plan, Begin(plan, k, ts), ms) == Done(ts)
    decreases |plan.stageRoots| - k
  {
    if k == |plan.stageRoots| {
      ms := [];
    } else {
      var s := Begin(plan, k, ts);
      assert ConfigOk(StageOf(plan, k));
      assert CanMove(plan, s, Join) && Next(plan, s, Join) == Begin(plan, k + 1, ts);
      var rest := ZeroWorkersSkip(plan, k + 1, ts);
      ms := [Join] + rest;
      assert ms[1..] == rest;
    }
  }

  ghost predicate DoneMeansValues<V>(plan: Plan<V>, ms: seq<Move>)
    requires StagesOk(plan) && SysRun(plan, Start(plan), ms)
  {
    var s := SysAfter(plan, Start(plan), ms);
    s.Done? ==> |s.tasks| == |plan.g| && AllRootsHaveValues(plan, s.tasks)
  }

  /** Finishing normally always means finished roots exactly when the worker limit is positive or there is no root. */
  lemma NeedsAWorker<V>(plan: Plan<V>)
    requires StagesOk(plan)
    ensures (forall ms: seq<Move> :: SysRun(plan, Start(plan), ms) ==> DoneMeansValues(plan, ms))
      <==> (plan.maxWorkers > 0 || forall k :: 0 <= k < |plan.stageRoots| ==> plan.stageRoots[k] == [])
  {
    if plan.maxWorkers > 0 {
      forall ms: seq<Move> | SysRun(plan, Start(plan), ms) ensures DoneMeansValues(plan, ms) {
        TaskGraphRun(plan, ms);
      }
    } else if k :| 0 <= k < |plan.stageRoots| && plan.stageRoots[k] != [] {
      var ms := ZeroWorkersSkip(plan, 0, Fresh(|plan.g|));
      assert ConfigOk(StageOf(plan, k));
      assert !RootHasValue(plan, Fresh(|plan.g|), plan.stageRoots[k][0]);
      assert !DoneMeansValues(plan, ms);
    } else {
      forall ms: seq<Move> | SysRun(plan, Start(plan), ms) ensures DoneMeansValues(plan, ms) {
        StartOk(plan);
        SysRunKeeps(plan, Start(plan), ms);
      }
    }
  }

  // ---------- Which plans can be executed ----------

  /** There is no result of `d` anywhere. */
  ghost predicate Missing<V>(plan: Plan<V>, s: Sys<V>, d: nat)
  {
    match s
    case Executing(_, p) => Absent(plan.g, p, d)
    case Done(ts) => d < |ts| && ts[d].starts == 0 && !ts[d].status.Finished?
    case Rethrown(_, ts) => d < |ts| && ts[d].starts == 0 && !ts[d].status.Finished?
  }

  lemma MissingStays<V>(plan: Plan<V>, s: Sys<V>, m: Move, d: nat)
    requires SysInv(plan, s) && CanMove(plan, s, m) && d < |plan.g| && !Covered(plan, d) && Missing(plan, s, d)
    ensures Missing(plan, Next(plan, s, m), d)
  {
    match m
    case Work(w, ok) => AbsentStays(StageOf(plan, s.k), s.p, w, Choice(ok, None), d);
    case Join =>
      if Succeeded(s.p) && s.k + 1 < |plan.stageRoots| {
        EnterAbsent(plan.g, s.p.tasks, Workers(plan, s.k + 1), d);
      }
  }

  lemma {:induction false} MissingForever<V>(plan: Plan<V>, s: Sys<V>, ms: seq<Move>, d: nat)
    requires SysInv(plan, s) && SysRun(plan, s, ms) && d < |plan.g| && !Covered(plan, d) && Missing(plan, s, d)
    ensures Missing(plan, SysAfter(plan, s, ms), d)
    decreases |ms|
  {
    if ms != [] {
      MissingStays(plan, s, ms[0], d);
      MoveKeeps(plan, s, ms[0]);
      MissingForever(plan, Next(plan, s, ms[0]), ms[1..], d);
    }
  }

  /** A task that no root of its stage reaches is never started, in its stage or later. */
  lemma NeverStarted<V>(plan: Plan<V>, ms: seq<Move>, d: nat)
    requires StagesOk(plan) && SysRun(plan, Start(plan), ms) && d < |plan.g| && !Covered(plan, d)
    ensures Missing(plan, SysAfter(plan, Start(plan), ms), d)
  {
    StartOk(plan);
    if plan.stageRoots != [] { EnterAbsent(plan.g, Fresh<V>(|plan.g|), Workers(plan, 0), d); }
    MissingForever(plan, Start(plan), ms, d);
  }

  /** A task executed without what it needs keeps every run from ending normally: it throws. */
  lemma UnfedNeverDone<V>(plan: Plan<V>, ms: seq<Move>, t: nat, i: nat)
    requires StagesOk(plan) && plan.maxWorkers > 0 && SysRun(plan, Start(plan), ms)
    requires t < |plan.g| && i < |plan.g[t].deps| && Covered(plan, t) && !Feeds(plan, t, plan.g[t].deps[i])
    ensures !SysAfter(plan, Start(plan), ms).Done?
  {
    StartOk(plan);
    SysRunKeeps(plan, Start(plan), ms);
    DoneHasInputs(plan, SysAfter(plan, Start(plan), ms), t, i);
    if !Covered(plan, plan.g[t].deps[i]) { NeverStarted(plan, ms, plan.g[t].deps[i]); }
  }

  lemma DoneHasInputs<V>(plan: Plan<V>, s: Sys<V>, t: nat, i: nat)
    requires SysInv(plan, s) && plan.maxWorkers > 0 && t < |plan.g| && i < |plan.g[t].deps| && Covered(plan, t)
    ensures s.Done? ==> |s.tasks| == |plan.g| && s.tasks[plan.g[t].deps[i]].status.Finished?
    ensures s.Done? && plan.g[t].kind.Merge? ==> plan.g[plan.g[t].deps[i]].kind.Partition?
  {
    if s.Done? { assert Settled(plan.g, plan.body, s.tasks, t); }
  }

  ghost predicate CalmSys<V>(s: Sys<V>)
  {
    !s.Rethrown? && (s.Executing? ==> Calm(s.p))
  }

  /** Otherwise a run in which no body throws ends normally. */
  lemma {:induction false} FedRunEnds<V>(plan: Plan<V>, s: Sys<V>) returns (ms: seq<Move>)
    requires SysInv(plan, s) && Fed(plan) && Unlost(s) && CalmSys(s)
    ensures SysRun(plan, s, ms) && SysAfter(plan, s, ms).Done?
    decreases SysMeasure(plan, s)
  {
    ms := [];
    if s.Executing? {
      var m := CalmMove(plan, s);
      MoveKeeps(plan, s, m);
      MoveLosesNothing(plan, s, m);
      SysMeasureNonNegative(plan, Next(plan, s, m));
      var rest := FedRunEnds(plan, Next(plan, s, m));
      ms := [m] + rest;
      assert ms[1..] == rest;
    }
  }

  /** A worker that is about to compute finds what its task needs. */
  lemma FedComputes<V>(plan: Plan<V>, k: nat, p: Proc<V>, w: nat)
    requires SysInv(plan, Executing(k, p)) && Fed(plan) && w < |p.workers| && AtCompute(StageOf(plan, k), p, w)
    ensures Computable(StageOf(plan, k), p, Top(p.workers[w]).task)
  {
    var c, t := StageOf(plan, k), Top(p.workers[w]).task;
    forall i | 0 <= i < |c.g[t].deps| ensures Usable(c.g, t, c.g[t].deps[i], p.tasks[c.g[t].deps[i]]) {
      ComputesWith(c, p, w, i);
      assert Covered(plan, t);
      assert Feeds(plan, t, plan.g[t].deps[i]);
    }
  }

  lemma CalmMove<V>(plan: Plan<V>, s: Sys<V>) returns (m: Move)
    requires SysInv(plan, s) && s.Executing? && Fed(plan) && Unlost(s) && CalmSys(s)
    ensures CanMove(plan, s, m) && CalmSys(Next(plan, s, m))
  {
    var c := StageOf(plan, s.k);
    if AllEnded(s.p) {
      m := Join;
      assert Succeeded(s.p);
    } else {
      Progress(c, s.p);
      var v: nat :| CanStep(c, s.p, v) || WaitsForLost(c, s.p, v);
      m := Work(v, true);
      NeverLoses(plan, s.k, s.p, v, true);
      if AtCompute(c, s.p, v) { FedComputes(plan, s.k, s.p, v); }
      CalmStays(c, s.p, v, Choice(true, None));
    }
  }

  ghost predicate CanFinish<V>(plan: Plan<V>)
  {
    exists ms: seq<Move> :: SysRun(plan, Start(plan), ms) && SysAfter(plan, Start(plan), ms).Done?
  }

  /** With a worker, some run ends normally if and only if every executed task finds what it needs. */
  lemma FinishesIffFed<V>(plan: Plan<V>)
    requires StagesOk(plan) && plan.maxWorkers > 0
    ensures CanFinish(plan) <==> Fed(plan)
  {
    if Fed(plan) {
      StartOk(plan);
      var ms := FedRunEnds(plan, Start(plan));
    } else {
      var t, i :| 0 <= t < |plan.g| && 0 <= i < |plan.g[t].deps| && Covered(plan, t) &&
                  !Feeds(plan, t, plan.g[t].deps[i]);
      forall ms: seq<Move> | SysRun(plan, Start(plan), ms) ensures !SysAfter(plan, Start(plan), ms).Done? {
        UnfedNeverDone(plan, ms, t, i);
      }
    }
  }
}
