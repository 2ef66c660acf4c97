/** Agreement across ranks, and what a rank can fetch from the others. */
module ClusterSafety {
  import opened Wrappers
  import opened TaskGraph
  import opened StageMachine
  import opened StageSafety
  import opened StageProgress
  import opened StageOutcome
  import opened Cluster

  lemma {:induction false} LocalOfMember<V>(job: Job<V>, r: nat, s: seq<nat>, t: nat)
    ensures t in LocalOf(job, r, s) <==> t in s && Local(job, r, t)
  {
    if s != [] {
      LocalOfMember(job, r, s[..|s| - 1], t);
      assert s == s[..|s| - 1] + [s[|s| - 1]];
    }
  }

  lemma {:induction false} LocalOfDistinct<V>(job: Job<V>, r: nat, s: seq<nat>)
    requires Distinct(s)
    ensures Distinct(LocalOf(job, r, s))
  {
    if s != [] {
      var u := LocalOf(job, r, s[..|s| - 1]);
      LocalOfDistinct(job, r, s[..|s| - 1]);
      forall i | 0 <= i < |u| ensures u[i] != s[|s| - 1] {
        assert u[i] in u;
        LocalOfMember(job, r, s[..|s| - 1], u[i]);
      }
    }
  }

  /** Rank `r` executes `t` as part of a pipeline it was assigned. */
  ghost predicate RunsOn<V>(job: Job<V>, r: nat, t: nat)
    requires JobGraphOk(job) && t < |job.g|
  {
    job.g[t].stage < |job.stageRoots| &&
    exists j :: 0 <= j < |LocalRoots(job, r, job.g[t].stage)| &&
      LocalRoots(job, r, job.g[t].stage)[j] < |job.g| && Reaches(job.g, LocalRoots(job, r, job.g[t].stage)[j], t)
  }

  ghost predicate JobGraphOk<V>(job: Job<V>)
  {
    WellFormed(job.g) &&
    forall k :: 0 <= k < |job.stageRoots| ==> ConfigOk(Config(job.g, job.body, k, job.stageRoots[k], true))
  }

  ghost predicate IsStageRoot<V>(job: Job<V>, d: nat)
  {
    d < |job.g| && job.g[d].stage < |job.stageRoots| && d in job.stageRoots[job.g[d].stage]
  }

  /** Rank `r` can get what `t` needs of its dependency `d`: it runs `d` itself, or fetches it if it is a root. A merge
    task needs a partition task that ran on the same rank, because offsets are not fetched. */
  ghost predicate Served<V>(job: Job<V>, r: nat, t: nat, d: nat)
    requires JobGraphOk(job) && t < |job.g| && d < |job.g|
  {
    if job.g[t].kind.Merge? then job.g[d].kind.Partition? && RunsOn(job, r, d)
    else IsStageRoot(job, d) || RunsOn(job, r, d)
  }

  /** So does every rank that runs `t`. */
  ghost predicate Available<V>(job: Job<V>, t: nat, d: nat)
    requires JobGraphOk(job) && t < |job.g| && d < |job.g|
  {
    forall r :: 0 <= r < job.size && RunsOn(job, r, t) ==> Served(job, r, t, d)
  }

  /** Every dependency can be had. */
  ghost predicate AllAvailable<V>(job: Job<V>)
    requires JobGraphOk(job)
  {
    forall t, i :: 0 <= t < |job.g| && 0 <= i < |job.g[t].deps| ==> Available(job, t, job.g[t].deps[i])
  }

  ghost predicate RootsScheduled<V>(job: Job<V>)
  {
    forall k, j :: 0 <= k < |job.stageRoots| && 0 <= j < |job.stageRoots[k]| ==> SchedulerOk(job, job.stageRoots[k][j])
  }

  /** A root has at least one execution rank, and all of them exist. */
  ghost predicate SchedulerOk<V>(job: Job<V>, t: nat)
  {
    job.execRanks(t) != {} && forall q :: q in job.execRanks(t) ==> q < job.size
  }

  lemma StageAtOk<V>(job: Job<V>, r: nat, k: nat)
    requires JobGraphOk(job) && k < |job.stageRoots|
    ensures ConfigOk(StageAt(job, r, k))
  {
    var c := Config(job.g, job.body, k, job.stageRoots[k], true);
    var roots := LocalRoots(job, r, k);
    assert ConfigOk(c);
    LocalOfDistinct(job, r, job.stageRoots[k]);
    forall j | 0 <= j < |roots| ensures roots[j] in job.stageRoots[k] {
      assert roots[j] in roots;
      LocalOfMember(job, r, job.stageRoots[k], roots[j]);
    }
    forall t, i | 0 <= t < |c.g| && 0 <= i < |c.g[t].deps| && c.g[t].stage == k ensures c.g[t].deps[i] !in roots {
      LocalOfMember(job, r, job.stageRoots[k], c.g[t].deps[i]);
    }
  }

  function CallsBefore<V>(job: Job<V>, k: nat): nat
    requires k <= |job.stageRoots|
  {
    if k == 0 then 0 else CallsBefore(job, k - 1) + if job.stageRoots[k - 1] == [] then 0 else 2
  }

  lemma {:induction false} CallsBeforeMonotone<V>(job: Job<V>, a: nat, b: nat)
    requires a <= b <= |job.stageRoots|
    ensures CallsBefore(job, a) <= CallsBefore(job, b) && CallsBefore(job, a) % 2 == 0
    ensures a < b && job.stageRoots[a] != [] ==> CallsBefore(job, a) + 2 <= CallsBefore(job, b)
    decreases b
  {
    if a < b { CallsBeforeMonotone(job, a, b - 1); }
    else if a > 0 { CallsBeforeMonotone(job, a - 1, a - 1); }
  }

  function Entered(ph: RankPhase): nat
  {
    match ph
    case Executing => 0
    case Reducing => 1
    case AtBarrier => 2
    case Completed => 0
    case Aborted => 1
  }

  /** Everything the rank's roots of earlier stages reach is finished on the rank. */
  ghost predicate AssignedDone<V>(job: Job<V>, r: nat, k: nat, ts: seq<TaskState<V>>)
    requires JobGraphOk(job) && |ts| == |job.g|
  {
    forall d :: 0 <= d < |job.g| && job.g[d].stage < k && RunsOn(job, r, d) ==>
      ts[d].status.Finished? && ts[d].starts == 1
  }

  ghost predicate RankOk<V>(job: Job<V>, r: nat, rk: Rank<V>)
    requires JobGraphOk(job)
  {
    rk.k <= |job.stageRoots| && |rk.p.tasks| == |job.g| && AssignedDone(job, r, rk.k, rk.p.tasks) &&
    |rk.calls| == CallsBefore(job, rk.k) + Entered(rk.phase) &&
    (forall i :: 0 <= i < |rk.calls| ==> (rk.calls[i].Reduce? <==> i % 2 == 0)) &&
    if rk.phase.Completed? then
      rk.k == |job.stageRoots| && rk.p.workers == [] && Ready(Config(job.g, job.body, rk.k, [], true), rk.p.tasks)
    else
      rk.k < |job.stageRoots| && Inv(StageAt(job, r, rk.k), rk.p) && |rk.p.workers| == TeamSize(job, rk.k) &&
      (rk.phase.Executing? || (job.stageRoots[rk.k] != [] && AllEnded(rk.p))) &&
      (rk.phase.Reducing? || rk.phase.Aborted? ==> rk.calls[|rk.calls| - 1] == Reduce(!Succeeded(rk.p))) &&
      (rk.phase.AtBarrier? ==> Succeeded(rk.p))
  }

  /** Collectives the rank has left, and those it has left without throwing. */
  function Left<V>(rk: Rank<V>): int
  {
    |rk.calls| - if rk.phase.Reducing? || rk.phase.AtBarrier? then 1 else 0
  }

  function Passed<V>(rk: Rank<V>): int
  {
    |rk.calls| - if rk.phase.Executing? || rk.phase.Completed? then 0 else 1
  }

  /** No rank leaves a collective before all entered it, and passing a reduce means no rank reported an error there. */
  ghost predicate Agree<V>(a: Rank<V>, b: Rank<V>)
  {
    Left(a) <= |b.calls| &&
    forall i :: 0 <= i < Passed(a) && i % 2 == 0 ==> b.calls[i] == Reduce(false)
  }

  ghost predicate ClusterInv<V>(job: Job<V>, rs: seq<Rank<V>>)
  {
    JobGraphOk(job) && job.maxWorkers > 0 && |rs| == job.size &&
    (forall r :: 0 <= r < |rs| ==> RankOk(job, r, rs[r])) && CallsAgree(rs)
  }

  ghost predicate CallsAgree<V>(rs: seq<Rank<V>>)
  {
    (forall r, q :: 0 <= r < |rs| && 0 <= q < |rs| ==> Agree(rs[r], rs[q])) &&
    (forall r :: 0 <= r < |rs| && rs[r].phase.Aborted? ==> rs[r].calls != [] && AnyError(rs, |rs[r].calls| - 1))
  }

  ghost predicate Has<V>(job: Job<V>, rk: Rank<V>, d: nat)
    requires JobGraphOk(job) && d < |job.g|
  {
    |rk.p.tasks| == |job.g| && rk.p.tasks[d].status.Finished? && rk.p.tasks[d].starts == 1 &&
    rk.p.tasks[d].result == Some(Val(job.g, job.body, d))
  }

  /** Once one rank is past a stage, every rank has finished the tasks of that stage it was assigned. */
  lemma FinishedThere<V>(job: Job<V>, rs: seq<Rank<V>>, r: nat, q: nat, d: nat)
    requires ClusterInv(job, rs) && r < |rs| && q < |rs| && d < |job.g|
    requires job.g[d].stage < rs[r].k && RunsOn(job, q, d)
    ensures job.g[d].stage <= rs[q].k && Has(job, rs[q], d)
  {
    var j := job.g[d].stage;
    assert RankOk(job, r, rs[r]) && RankOk(job, q, rs[q]) && Agree(rs[r], rs[q]);
    StageNotEmpty(job, q, d);
    if rs[q].k > j {
      RankResults(job, q, rs[q], d);
    } else {
      Behind(job, rs[r], rs[q], j);
      assert rs[q].p.workers != [];
      StageExecutes(StageAt(job, q, j), rs[q].p, d);
      RankResults(job, q, rs[q], d);
    }
  }

  /** A rank behind one that is past stage `j` can only be waiting in the barrier of stage `j`. */
  lemma Behind<V>(job: Job<V>, a: Rank<V>, b: Rank<V>, j: nat)
    requires b.k <= j < a.k <= |job.stageRoots| && job.stageRoots[j] != [] && Left(a) <= |b.calls|
    requires |a.calls| == CallsBefore(job, a.k) + Entered(a.phase)
    requires |b.calls| == CallsBefore(job, b.k) + Entered(b.phase)
    requires b.phase.AtBarrier? ==> job.stageRoots[b.k] != []
    ensures b.k == j && b.phase.AtBarrier?
  {
    CallsBeforeMonotone(job, j, a.k);
    CallsBeforeMonotone(job, b.k, j);
  }

  lemma StageNotEmpty<V>(job: Job<V>, q: nat, d: nat)
    requires JobGraphOk(job) && d < |job.g| && RunsOn(job, q, d)
    ensures job.stageRoots[job.g[d].stage] != []
  {
  }

  lemma RankResults<V>(job: Job<V>, q: nat, rk: Rank<V>, d: nat)
    requires JobGraphOk(job) && RankOk(job, q, rk) && d < |job.g| && rk.p.tasks[d].status.Finished?
    ensures rk.p.tasks[d].result == Some(Val(job.g, job.body, d))
  {
    if rk.phase.Completed? {
      assert Settled(job.g, job.body, rk.p.tasks, d);
    } else {
      assert TaskOk(StageAt(job, q, rk.k), rk.p, d);
    }
  }

  lemma FetchingFacts<V>(job: Job<V>, r: nat, rk: Rank<V>, w: nat)
    requires JobGraphOk(job) && RankOk(job, r, rk) && rk.phase.Executing? && Fetching(job, rk, w)
    ensures var f := Top(rk.p.workers[w]);
      job.g[f.task].stage == rk.k && job.g[Dep(job.g, f)].stage < rk.k && RunsOn(job, r, f.task) &&
      rk.p.tasks[Dep(job.g, f)].status.InProgress?
  {
    var c := StageAt(job, r, rk.k);
    var f := Top(rk.p.workers[w]);
    assert WorkerOk(c, rk.p, w) && FrameOk(c, rk.p, w, |rk.p.workers[w].stack| - 1) && TaskOk(c, rk.p, f.task);
  }

  lemma FetchedIsRoot<V>(job: Job<V>, rs: seq<Rank<V>>, r: nat, w: nat)
    requires ClusterInv(job, rs) && AllAvailable(job) && r < |rs| && rs[r].phase.Executing? && Fetching(job, rs[r], w)
    ensures IsStageRoot(job, Dep(job.g, Top(rs[r].p.workers[w])))
  {
    assert RankOk(job, r, rs[r]);
    FetchingFacts(job, r, rs[r], w);
    var f := Top(rs[r].p.workers[w]);
    assert Available(job, f.task, job.g[f.task].deps[f.next]);
  }

  /** When a worker fetches a root of an earlier stage, every candidate rank has registered the task and holds it
    finished with its sequential value. */
  lemma MigrationFinds<V>(job: Job<V>, rs: seq<Rank<V>>, r: nat, w: nat, q: nat)
    requires ClusterInv(job, rs) && r < |rs| && rs[r].phase.Executing? && Fetching(job, rs[r], w)
    requires var d := Dep(job.g, Top(rs[r].p.workers[w])); IsStageRoot(job, d) && q in job.execRanks(d) && q < job.size
    ensures var d := Dep(job.g, Top(rs[r].p.workers[w]));
      q < |rs| && Registered(job, rs, q, d) && Has(job, rs[q], d)
  {
    var d := Dep(job.g, Top(rs[r].p.workers[w]));
    var k := job.g[d].stage;
    assert RankOk(job, r, rs[r]);
    FetchingFacts(job, r, rs[r], w);
    StageAtOk(job, q, k);
    LocalOfMember(job, q, job.stageRoots[k], d);
    var j :| 0 <= j < |LocalRoots(job, q, k)| && LocalRoots(job, q, k)[j] == d;
    assert Reaches(job.g, d, d);
    FinishedThere(job, rs, r, q, d);
  }

  lemma {:induction false} MigrateSucceeds<V>(job: Job<V>, rs: seq<Rank<V>>, d: nat, order: seq<nat>)
    requires JobGraphOk(job) && d < |job.g| && order != []
    requires forall q :: q in order ==> q < |rs| && Registered(job, rs, q, d) && Has(job, rs[q], d)
    ensures MigrateResult(job, rs, d, order) == Some(Val(job.g, job.body, d))
  {
  }

  /** A candidate that is passed over: it does not know the task, or the task failed there. */
  ghost predicate PassedOver<V>(job: Job<V>, rs: seq<Rank<V>>, d: nat, q: nat)
  {
    !Registered(job, rs, q, d) || d >= |rs[q].p.tasks| || rs[q].p.tasks[d].status.Failed?
  }

  /** The first candidate that is not passed over decides: its result if it has finished the task, else an exception. */
  lemma {:induction false} FirstCandidateDecides<V>(job: Job<V>, rs: seq<Rank<V>>, d: nat, order: seq<nat>, i: nat)
    requires i <= |order| && forall j :: 0 <= j < i ==> PassedOver(job, rs, d, order[j])
    requires i < |order| ==> !PassedOver(job, rs, d, order[i])
    ensures MigrateResult(job, rs, d, order) ==
            if i < |order| && rs[order[i]].p.tasks[d].status.Finished? then rs[order[i]].p.tasks[d].result else None
    decreases |order|
  {
    if i > 0 {
      assert PassedOver(job, rs, d, order[0]);
      forall j | 0 <= j < i - 1 ensures PassedOver(job, rs, d, order[1..][j]) {
        assert order[1..][j] == order[j + 1];
      }
      FirstCandidateDecides(job, rs, d, order[1..], i - 1);
    }
  }

  /** A rank offers only roots that it executes itself, of stages it has entered. */
  ghost predicate Offers<V>(job: Job<V>, rs: seq<Rank<V>>, q: nat, d: nat)
  {
    q < |rs| && Local(job, q, d) && d < |job.g| && job.g[d].stage < |job.stageRoots| && job.g[d].stage <= rs[q].k &&
    exists j :: 0 <= j < |job.stageRoots[job.g[d].stage]| && job.stageRoots[job.g[d].stage][j] == d
  }

  /** If no candidate offers the task, fetching it fails. In particular only roots of stages can be fetched. */
  lemma {:induction false} OnlyRootsMigrate<V>(job: Job<V>, rs: seq<Rank<V>>, d: nat, order: seq<nat>)
    requires forall i :: 0 <= i < |order| ==> !Offers(job, rs, order[i], d)
    ensures MigrateResult(job, rs, d, order) == None
  {
    if order != [] {
      assert !Offers(job, rs, order[0], d);
      OnlyRootsMigrate(job, rs, d, order[1..]);
    }
  }

  lemma FetchFails<V>(job: Job<V>, rs: seq<Rank<V>>, d: nat, order: seq<nat>)
    requires !IsStageRoot(job, d)
    ensures MigrateResult(job, rs, d, order) == None
  {
    forall i | 0 <= i < |order| ensures !Offers(job, rs, order[i], d) {
    }
    OnlyRootsMigrate(job, rs, d, order);
  }

  /** Whatever order the candidates are asked in, the fetch brings back the sequential value if the task is a root, and
    fails if it is not. */
  lemma MigrationSucceeds<V>(job: Job<V>, rs: seq<Rank<V>>, m: Move)
    requires ClusterInv(job, rs) && RootsScheduled(job) && CanMove(job, rs, m) && m.Work? && Fetching(job, rs[m.r], m.w)
    ensures var d := Dep(job.g, Top(rs[m.r].p.workers[m.w]));
      ChoiceOf(job, rs, m).fetched == if IsStageRoot(job, d) then Some(Val(job.g, job.body, d)) else None
  {
    var d := Dep(job.g, Top(rs[m.r].p.workers[m.w]));
    if IsStageRoot(job, d) {
      RootScheduled(job, d);
      forall q | q in m.order ensures q < |rs| && Registered(job, rs, q, d) && Has(job, rs[q], d) {
        MigrationFinds(job, rs, m.r, m.w, q);
      }
      var q :| q in job.execRanks(d);
      assert q in m.order;
      MigrateSucceeds(job, rs, d, m.order);
    } else {
      FetchFails(job, rs, d, m.order);
    }
  }

  lemma RootScheduled<V>(job: Job<V>, d: nat)
    requires RootsScheduled(job) && IsStageRoot(job, d)
    ensures SchedulerOk(job, d)
  {
    var j :| 0 <= j < |job.stageRoots[job.g[d].stage]| && job.stageRoots[job.g[d].stage][j] == d;
  }

  /** Only rank `r` moves; it extends its calls and still agrees with the others. */
  lemma CallsStillAgree<V>(rs: seq<Rank<V>>, r: nat, rk: Rank<V>)
    requires CallsAgree(rs) && r < |rs| && rs[r].calls <= rk.calls
    requires Agree(rk, rk) && forall q :: 0 <= q < |rs| && q != r ==> Agree(rk, rs[q])
    requires rk.phase.Aborted? ==> rk.calls != [] && AnyError(rs, |rk.calls| - 1)
    ensures CallsAgree(rs[r := rk])
  {
    var ss := rs[r := rk];
    assert rk.calls[..|rs[r].calls|] == rs[r].calls;
    forall a, b | 0 <= a < |ss| && 0 <= b < |ss| ensures Agree(ss[a], ss[b]) {
      assert Agree(rs[a], rs[b]);
    }
    forall a | 0 <= a < |ss| && ss[a].phase.Aborted? ensures ss[a].calls != [] && AnyError(ss, |ss[a].calls| - 1) {
      assert AnyError(rs, |ss[a].calls| - 1);
      ErrorStays(rs, r, rk, |ss[a].calls| - 1);
    }
  }

  lemma ErrorStays<V>(rs: seq<Rank<V>>, r: nat, rk: Rank<V>, i: nat)
    requires r < |rs| && rs[r].calls <= rk.calls && AnyError(rs, i)
    ensures AnyError(rs[r := rk], i)
  {
    var ss := rs[r := rk];
    var q :| 0 <= q < |rs| && i < |rs[q].calls| && rs[q].calls[i] == Reduce(true);
    assert i < |ss[q].calls| && ss[q].calls[i] == Reduce(true);
  }

  lemma RankChangeKeeps<V>(job: Job<V>, rs: seq<Rank<V>>, r: nat, rk: Rank<V>)
    requires ClusterInv(job, rs) && r < |rs| && RankOk(job, r, rk) && CallsAgree(rs[r := rk])
    ensures ClusterInv(job, rs[r := rk])
  {
  }

  /** Whatever a fetch brings back is the sequential value. */
  lemma {:induction false} MigratedIsValue<V>(job: Job<V>, rs: seq<Rank<V>>, d: nat, order: seq<nat>)
    requires ClusterInv(job, rs) && d < |job.g|
    ensures MigrateResult(job, rs, d, order).Some? ==> MigrateResult(job, rs, d, order).value == Val(job.g, job.body, d)
    decreases |order|
  {
    if order != [] {
      MigratedIsValue(job, rs, d, order[1..]);
      var q := order[0];
      if Registered(job, rs, q, d) {
        assert RankOk(job, q, rs[q]);
        if rs[q].p.tasks[d].status.Finished? { RankResults(job, q, rs[q], d); }
      }
    }
  }

  ghost predicate NoneLost<V>(rs: seq<Rank<V>>)
  {
    forall r :: 0 <= r < |rs| ==> NothingLost(rs[r].p)
  }

  /** A step that finds all earlier data abandons nothing. */
  lemma StepLosesNothing<V>(job: Job<V>, r: nat, rk: Rank<V>, w: nat, ch: Choice<V>)
    requires JobGraphOk(job) && RankOk(job, r, rk) && rk.phase.Executing? && NothingLost(rk.p)
    requires CanStep(StageAt(job, r, rk.k), rk.p, w) && (Fetching(job, rk, w) ==> ch.fetched.Some?)
    ensures NothingLost(Step(StageAt(job, r, rk.k), rk.p, w, ch))
  {
  }

  /** If every dependency can be had, no rank ever abandons a claim. */
  lemma MoveLosesNothing<V>(job: Job<V>, rs: seq<Rank<V>>, m: Move)
    requires ClusterInv(job, rs) && RootsScheduled(job) && AllAvailable(job) && CanMove(job, rs, m) && NoneLost(rs)
    ensures NoneLost(Next(job, rs, m))
  {
    assert RankOk(job, m.r, rs[m.r]);
    if m.Work? {
      if Fetching(job, rs[m.r], m.w) {
        FetchedIsRoot(job, rs, m.r, m.w);
        MigrationSucceeds(job, rs, m);
      }
      StepLosesNothing(job, m.r, rs[m.r], m.w, ChoiceOf(job, rs, m));
    }
    assert NothingLost(rs[m.r].p) && NothingLost(NextRank(job, rs, m).p);
  }

  lemma StepShape<V>(job: Job<V>, r: nat, rk: Rank<V>, w: nat, ch: Choice<V>)
    requires JobGraphOk(job) && RankOk(job, r, rk) && rk.phase.Executing? && CanStep(StageAt(job, r, rk.k), rk.p, w)
    ensures var q := Step(StageAt(job, r, rk.k), rk.p, w, ch);
      |q.tasks| == |job.g| && |q.workers| == |rk.p.workers|
  {
  }

  lemma WorkKeeps<V>(job: Job<V>, rs: seq<Rank<V>>, m: Move)
    requires ClusterInv(job, rs) && CanMove(job, rs, m) && m.Work?
    ensures ClusterInv(job, Next(job, rs, m))
  {
    var rk := rs[m.r];
    assert RankOk(job, m.r, rk);
    var c, ch := StageAt(job, m.r, rk.k), ChoiceOf(job, rs, m);
    if Fetching(job, rk, m.w) { MigratedIsValue(job, rs, Dep(job.g, Top(rk.p.workers[m.w])), m.order); }
    assert FetchOk(c, rk.p, m.w, ch) by {
      assert WorkerOk(c, rk.p, m.w);
    }
    StepKeeps(c, rk.p, m.w, ch);
    StepShape(job, m.r, rk, m.w, ch);
    EarlierStays(job, m.r, rk, m.w, ch);
    assert Agree(rk, rk) && forall q :: 0 <= q < |rs| ==> Agree(rk, rs[q]);
    CallsStillAgree(rs, m.r, NextRank(job, rs, m));
    RankChangeKeeps(job, rs, m.r, NextRank(job, rs, m));
  }

  lemma EarlierStays<V>(job: Job<V>, r: nat, rk: Rank<V>, w: nat, ch: Choice<V>)
    requires JobGraphOk(job) && RankOk(job, r, rk) && rk.phase.Executing? && CanStep(StageAt(job, r, rk.k), rk.p, w)
    ensures |Step(StageAt(job, r, rk.k), rk.p, w, ch).tasks| == |job.g|
    ensures AssignedDone(job, r, rk.k, Step(StageAt(job, r, rk.k), rk.p, w, ch).tasks)
  {
    var c := StageAt(job, r, rk.k);
    var q := Step(c, rk.p, w, ch);
    if |job.g| == 0 {
      assert WorkerOk(c, rk.p, w);
    } else {
      forall d | 0 <= d < |job.g| && job.g[d].stage < rk.k && RunsOn(job, r, d)
        ensures q.tasks[d].status.Finished? && q.tasks[d].starts == 1
      {
        FinishedStays(c, rk.p, w, ch, d);
      }
    }
  }

  ghost predicate LeavesStage<V>(job: Job<V>, r: nat, rk: Rank<V>)
    requires JobGraphOk(job)
  {
    RankOk(job, r, rk) && !rk.phase.Completed? && Succeeded(rk.p) &&
    (rk.phase.AtBarrier? || (rk.phase.Executing? && job.stageRoots[rk.k] == []))
  }

  lemma NextEarlierDone<V>(job: Job<V>, r: nat, rk: Rank<V>)
    requires JobGraphOk(job) && job.maxWorkers > 0 && LeavesStage(job, r, rk)
    ensures AssignedDone(job, r, rk.k + 1, rk.p.tasks)
  {
    forall d | 0 <= d < |job.g| && job.g[d].stage < rk.k + 1 && RunsOn(job, r, d)
      ensures rk.p.tasks[d].status.Finished? && rk.p.tasks[d].starts == 1
    {
      if job.g[d].stage == rk.k {
        StageNotEmpty(job, r, d);
        StageExecutes(StageAt(job, r, rk.k), rk.p, d);
      }
    }
  }

  lemma NextEntered<V>(job: Job<V>, r: nat, k: nat, ts: seq<TaskState<V>>)
    requires JobGraphOk(job) && k < |job.stageRoots| && Ready(Config(job.g, job.body, k, [], true), ts)
    ensures Inv(StageAt(job, r, k), Proc(ts, Team(TeamSize(job, k))))
  {
    StageAtOk(job, r, k);
    EnterKeeps(StageAt(job, r, k), ts, TeamSize(job, k));
  }

  /** Going on to the next stage after a successful one. */
  lemma BeginKeeps<V>(job: Job<V>, r: nat, rk: Rank<V>)
    requires JobGraphOk(job) && job.maxWorkers > 0 && LeavesStage(job, r, rk)
    ensures RankOk(job, r, Begin(job, rk, rk.k + 1))
  {
    NextEarlierDone(job, r, rk);
    SuccessSettles(StageAt(job, r, rk.k), rk.p, Config(job.g, job.body, rk.k + 1, [], true));
    BeginOk(job, r, rk, rk.k + 1);
  }

  lemma BeginOk<V>(job: Job<V>, r: nat, rk: Rank<V>, k: nat)
    requires JobGraphOk(job) && k <= |job.stageRoots| && Ready(Config(job.g, job.body, k, [], true), rk.p.tasks)
    requires AssignedDone(job, r, k, rk.p.tasks) && |rk.calls| == CallsBefore(job, k)
    requires forall i :: 0 <= i < |rk.calls| ==> (rk.calls[i].Reduce? <==> i % 2 == 0)
    ensures RankOk(job, r, Begin(job, rk, k))
  {
    if k < |job.stageRoots| {
      NextEntered(job, r, k, rk.p.tasks);
    }
  }

  lemma GoOnCalls<V>(rs: seq<Rank<V>>, r: nat, rk: Rank<V>)
    requires CallsAgree(rs) && r < |rs| && rk.calls == rs[r].calls && (rk.phase.Executing? || rk.phase.Completed?)
    requires rs[r].phase.Executing? || (rs[r].phase.AtBarrier? && AllArrived(rs, r) && |rk.calls| % 2 == 0)
    ensures CallsAgree(rs[r := rk])
  {
    forall q | 0 <= q < |rs| ensures Agree(rk, rs[q]) { assert Agree(rs[r], rs[q]); }
    CallsStillAgree(rs, r, rk);
  }

  lemma CanLeave<V>(job: Job<V>, r: nat, rk: Rank<V>)
    requires JobGraphOk(job) && RankOk(job, r, rk)
    requires rk.phase.AtBarrier? || (rk.phase.Executing? && job.stageRoots[rk.k] == [])
    ensures LeavesStage(job, r, rk) && (rk.phase.AtBarrier? ==> |rk.calls| % 2 == 0)
  {
    CallsBeforeMonotone(job, rk.k, rk.k);
  }

  lemma GoOnRank<V>(job: Job<V>, r: nat, rk: Rank<V>, next: Rank<V>)
    requires JobGraphOk(job) && job.maxWorkers > 0 && RankOk(job, r, rk) && rk.k < |job.stageRoots|
    requires rk.phase.AtBarrier? || (rk.phase.Executing? && job.stageRoots[rk.k] == [])
    requires next == Begin(job, rk, rk.k + 1)
    ensures RankOk(job, r, next) && next.calls == rk.calls && (next.phase.Executing? || next.phase.Completed?)
    ensures rk.phase.AtBarrier? ==> |rk.calls| % 2 == 0
  {
    CanLeave(job, r, rk);
    BeginKeeps(job, r, rk);
  }

  lemma GoOnKeeps<V>(job: Job<V>, rs: seq<Rank<V>>, r: nat, rk: Rank<V>)
    requires ClusterInv(job, rs) && r < |rs| && rs[r].k < |job.stageRoots|
    requires (rs[r].phase.AtBarrier? && AllArrived(rs, r)) || (rs[r].phase.Executing? && job.stageRoots[rs[r].k] == [])
    requires rk == Begin(job, rs[r], rs[r].k + 1)
    ensures ClusterInv(job, rs[r := rk])
  {
    assert RankOk(job, r, rs[r]);
    GoOnRank(job, r, rs[r], rk);
    GoOnCalls(rs, r, rk);
    RankChangeKeeps(job, rs, r, rk);
  }

  lemma EnterReduceCalls<V>(rs: seq<Rank<V>>, r: nat, rk: Rank<V>, b: bool)
    requires CallsAgree(rs) && r < |rs| && rs[r].phase.Executing?
    requires rk.calls == rs[r].calls + [Reduce(b)] && rk.phase.Reducing?
    ensures CallsAgree(rs[r := rk])
  {
    forall q | 0 <= q < |rs| ensures Agree(rk, rs[q]) { assert Agree(rs[r], rs[q]); }
    CallsStillAgree(rs, r, rk);
  }

  lemma EnterReduceKeeps<V>(job: Job<V>, rs: seq<Rank<V>>, r: nat, rk: Rank<V>)
    requires ClusterInv(job, rs) && r < |rs| && rs[r].phase.Executing? && rs[r].k < |job.stageRoots|
    requires job.stageRoots[rs[r].k] != [] && AllEnded(rs[r].p)
    requires rk == rs[r].(phase := Reducing, calls := rs[r].calls + [Reduce(!Succeeded(rs[r].p))])
    ensures ClusterInv(job, rs[r := rk])
  {
    assert RankOk(job, r, rs[r]);
    CallsBeforeMonotone(job, rs[r].k, rs[r].k);
    EnterReduceCalls(rs, r, rk, !Succeeded(rs[r].p));
    RankChangeKeeps(job, rs, r, rk);
  }

  lemma LeaveReduceCalls<V>(rs: seq<Rank<V>>, r: nat, rk: Rank<V>)
    requires CallsAgree(rs) && r < |rs| && rs[r].phase.Reducing? && rs[r].calls != [] && AllArrived(rs, r)
    requires var i := |rs[r].calls| - 1;
      (rk.phase.Aborted? && rk.calls == rs[r].calls && AnyError(rs, i)) ||
      (rk.phase.AtBarrier? && rk.calls == rs[r].calls + [Barrier] &&
       forall q :: 0 <= q < |rs| ==> rs[q].calls[i] == Reduce(false))
    ensures CallsAgree(rs[r := rk])
  {
    forall q | 0 <= q < |rs| ensures Agree(rk, rs[q]) { assert Agree(rs[r], rs[q]); }
    CallsStillAgree(rs, r, rk);
  }

  lemma LeaveReduceRank<V>(job: Job<V>, r: nat, rk: Rank<V>, abort: bool)
    requires JobGraphOk(job) && RankOk(job, r, rk) && rk.phase.Reducing?
    requires !abort ==> rk.calls[|rk.calls| - 1] == Reduce(false)
    ensures RankOk(job, r, if abort then rk.(phase := Aborted)
                           else rk.(phase := AtBarrier, calls := rk.calls + [Barrier]))
  {
  }

  lemma LeaveReduceKeeps<V>(job: Job<V>, rs: seq<Rank<V>>, r: nat, rk: Rank<V>)
    requires ClusterInv(job, rs) && r < |rs| && rs[r].phase.Reducing? && rs[r].calls != [] && AllArrived(rs, r)
    requires rk == if AnyError(rs, |rs[r].calls| - 1) then rs[r].(phase := Aborted)
                   else rs[r].(phase := AtBarrier, calls := rs[r].calls + [Barrier])
    ensures ClusterInv(job, rs[r := rk])
  {
    assert RankOk(job, r, rs[r]);
    ReduceAgrees(job, rs, r);
    LeaveReduceRank(job, r, rs[r], AnyError(rs, |rs[r].calls| - 1));
    LeaveReduceCalls(rs, r, rk);
    RankChangeKeeps(job, rs, r, rk);
  }

  lemma CollectiveKeeps<V>(job: Job<V>, rs: seq<Rank<V>>, m: Move, rk: Rank<V>)
    requires ClusterInv(job, rs) && CanMove(job, rs, m) && !m.Work? && rk == NextRank(job, rs, m)
    ensures ClusterInv(job, rs[m.r := rk])
  {
    match m
    case Skip(r) => GoOnKeeps(job, rs, r, rk);
    case EnterReduce(r) => EnterReduceKeeps(job, rs, r, rk);
    case LeaveReduce(r) => LeaveReduceKeeps(job, rs, r, rk);
    case LeaveBarrier(r) => GoOnKeeps(job, rs, r, rk);
  }

  /** Every move of every rank keeps the cluster invariant. */
  lemma MoveKeeps<V>(job: Job<V>, rs: seq<Rank<V>>, m: Move)
    requires ClusterInv(job, rs) && CanMove(job, rs, m)
    ensures ClusterInv(job, Next(job, rs, m))
  {
    if m.Work? {
      WorkKeeps(job, rs, m);
    } else {
      CollectiveKeeps(job, rs, m, NextRank(job, rs, m));
    }
  }

  lemma ReduceAgrees<V>(job: Job<V>, rs: seq<Rank<V>>, r: nat)
    requires ClusterInv(job, rs) && r < |rs| && rs[r].phase.Reducing? && AllArrived(rs, r)
    ensures !AnyError(rs, |rs[r].calls| - 1) ==>
      forall q :: 0 <= q < |rs| ==> rs[q].calls[|rs[r].calls| - 1] == Reduce(false)
  {
  }
}
