/** Which ranks execute a task under the schedulers that use pipeline ids. */
module Schedulers {
  import opened TaskGraph
  import opened StageMachine
  import opened StageSafety
  import opened StageOutcome
  import opened Cluster
  import opened ClusterSafety
  import opened ClusterCompletion
  import opened Pipelines

  ghost predicate RankOf(ids: set<nat>, n: nat, r: nat)
    requires n > 0
  {
    exists id :: id in ids && r == id % n
  }

  lemma RankOfOneMore(ids: set<nat>, id: nat, n: nat, r: nat)
    requires n > 0
    ensures RankOf(ids + {id}, n, r) <==> RankOf(ids, n, r) || r == id % n
  {
  }

  method RoundRobinRanks(ids: set<nat>, n: nat) returns (ranks: set<nat>)
    requires ids != {} && n > 0
    ensures ranks != {} && forall r: nat :: r in ranks <==> exists id :: id in ids && r == id % n
  {
    ranks := {};
    var left := ids;
    ghost var done: set<nat> := {};
    while left != {}
      invariant done + left == ids && forall r: nat :: r in ranks <==> RankOf(done, n, r)
      decreases left
    {
      var id :| id in left;
      forall r: nat ensures RankOf(done + {id}, n, r) <==> RankOf(done, n, r) || r == id % n {
        RankOfOneMore(done, id, n, r);
      }
      ranks := ranks + {id % n};
      left := left - {id};
      done := done + {id};
    }
    assert done == ids;
    ghost var id :| id in ids;
    assert RankOf(ids, n, id % n);
  }

  method AllToAllRanks(n: nat) returns (ranks: set<nat>)
    ensures forall r: nat :: r in ranks <==> r < n
  {
    ranks := {};
    for i := 0 to n
      invariant forall r: nat :: r in ranks <==> r < i
    {
      ranks := ranks + {i};
    }
  }

  /** Round robin names the ids of a task modulo the number of ranks; an id is the position of a root that reaches it.
    */
  ghost predicate RoundRobin<V>(job: Job<V>)
    requires JobGraphOk(job) && job.size > 0
  {
    forall t, r :: 0 <= t < |job.g| ==>
      (r in job.execRanks(t) <==> exists i: nat :: ReachedByRoot(job.g, job.stageRoots, t, i) && r == i % job.size)
  }

  /** Some pipeline of the task is rooted in a task marked to execute on all ranks. */
  ghost predicate OnAllPipeline<V>(job: Job<V>, t: nat)
    requires JobGraphOk(job) && t < |job.g|
  {
    exists i: nat :: ReachedByRoot(job.g, job.stageRoots, t, i) && job.onAll(job.stageRoots[job.g[t].stage][i])
  }

  /** The rank executes the task, as far as a caller can tell from the scheduler and the marks. */
  ghost predicate Named<V>(job: Job<V>, r: nat, t: nat)
    requires JobGraphOk(job) && t < |job.g|
  {
    r < job.size && (r in job.execRanks(t) || OnAllPipeline(job, t))
  }

  lemma {:induction false} ReachedIsDependency(g: Graph, a: nat, b: nat) returns (t: nat, i: nat)
    requires WellFormed(g) && a < |g| && Reaches(g, a, b) && a != b
    ensures t < |g| && g[t].stage == g[a].stage && i < |g[t].deps| && g[t].deps[i] == b
    decreases a
  {
    t := a;
    i :| 0 <= i < |g[a].deps| && g[g[a].deps[i]].stage == g[a].stage && Reaches(g, g[a].deps[i], b);
    if g[a].deps[i] != b {
      t, i := ReachedIsDependency(g, g[a].deps[i], b);
    }
  }

  /** A root is in one pipeline only: its own. */
  lemma RootHasOneId<V>(job: Job<V>, k: nat, j: nat, i: nat)
    requires JobGraphOk(job) && k < |job.stageRoots| && j < |job.stageRoots[k]|
    ensures job.stageRoots[k][j] < |job.g|
    ensures ReachedByRoot(job.g, job.stageRoots, job.stageRoots[k][j], i) <==> i == j
  {
    var roots := job.stageRoots[k];
    assert ConfigOk(Config(job.g, job.body, k, roots, true));
    if ReachedByRoot(job.g, job.stageRoots, roots[j], i) && i != j {
      var t, d := ReachedIsDependency(job.g, roots[i], roots[j]);
    }
  }

  lemma RootRank<V>(job: Job<V>, k: nat, j: nat, r: nat)
    requires JobGraphOk(job) && job.size > 0 && RoundRobin(job) && k < |job.stageRoots| && j < |job.stageRoots[k]|
    ensures var root := job.stageRoots[k][j];
      root < |job.g| && (r in job.execRanks(root) <==> r == j % job.size) &&
      (Local(job, r, root) <==> job.onAll(root) || r == j % job.size)
  {
    RootHasOneId(job, k, j, j);
    if r in job.execRanks(job.stageRoots[k][j]) {
      var i: nat :| ReachedByRoot(job.g, job.stageRoots, job.stageRoots[k][j], i) && r == i % job.size;
      RootHasOneId(job, k, j, i);
    }
  }

  lemma RunsIsNamed<V>(job: Job<V>, r: nat, t: nat)
    requires JobGraphOk(job) && job.size > 0 && RoundRobin(job) && t < |job.g| && RunsOn(job, r, t)
    ensures r in job.execRanks(t) || OnAllPipeline(job, t)
  {
    var k := job.g[t].stage;
    var local := LocalRoots(job, r, k);
    var n :| 0 <= n < |local| && local[n] < |job.g| && Reaches(job.g, local[n], t);
    assert local[n] in local;
    LocalOfMember(job, r, job.stageRoots[k], local[n]);
    var j :| 0 <= j < |job.stageRoots[k]| && job.stageRoots[k][j] == local[n];
    RootRank(job, k, j, r);
    assert ReachedByRoot(job.g, job.stageRoots, t, j);
  }

  lemma NamedRuns<V>(job: Job<V>, r: nat, t: nat, i: nat)
    requires JobGraphOk(job) && job.size > 0 && RoundRobin(job) && t < |job.g|
    requires ReachedByRoot(job.g, job.stageRoots, t, i)
    requires r == i % job.size || job.onAll(job.stageRoots[job.g[t].stage][i])
    ensures RunsOn(job, r, t)
  {
    var k := job.g[t].stage;
    var root := job.stageRoots[k][i];
    RootRank(job, k, i, r);
    LocalOfMember(job, r, job.stageRoots[k], root);
    var n :| 0 <= n < |LocalRoots(job, r, k)| && LocalRoots(job, r, k)[n] == root;
  }

  /** Under round robin the ranks whose pipelines contain a task are exactly those the scheduler names for it, also for
    tasks shared by several pipelines, and all ranks if a pipeline of it is marked to execute on all. */
  lemma WhoRuns<V>(job: Job<V>, r: nat, t: nat)
    requires JobGraphOk(job) && job.size > 0 && RoundRobin(job) && t < |job.g| && r < job.size
    ensures RunsOn(job, r, t) <==> Named(job, r, t)
  {
    if RunsOn(job, r, t) { RunsIsNamed(job, r, t); }
    if i: nat :| ReachedByRoot(job.g, job.stageRoots, t, i) &&
                 (r == i % job.size || job.onAll(job.stageRoots[job.g[t].stage][i])) {
      NamedRuns(job, r, t, i);
    }
  }

  /** So a stage that succeeds on rank `r` has executed a task of the stage there exactly if `r` is one of them. */
  lemma StageRunsOn<V>(job: Job<V>, r: nat, k: nat, p: Proc<V>, t: nat)
    requires JobGraphOk(job) && job.size > 0 && RoundRobin(job) && k < |job.stageRoots| && r < job.size
    requires Inv(StageAt(job, r, k), p) && Succeeded(p) && p.workers != [] && t < |job.g| && job.g[t].stage == k
    ensures p.tasks[t].status.Finished? <==> Named(job, r, t)
    ensures p.tasks[t].starts == if Named(job, r, t) then 1 else 0
  {
    StageExecutes(StageAt(job, r, k), p, t);
    WhoRuns(job, r, t);
    StageAtOk(job, r, k);
    assert FromRoots(StageAt(job, r, k), t) <==> RunsOn(job, r, t);
  }

  lemma RootsAreScheduled<V>(job: Job<V>)
    requires JobGraphOk(job) && job.size > 0 && RoundRobin(job)
    ensures RootsScheduled(job)
  {
    forall k, j | 0 <= k < |job.stageRoots| && 0 <= j < |job.stageRoots[k]|
      ensures SchedulerOk(job, job.stageRoots[k][j])
    {
      RootRank(job, k, j, j % job.size);
      forall q | q in job.execRanks(job.stageRoots[k][j]) ensures q < job.size {
        RootRank(job, k, j, q);
      }
    }
  }

  /** Every rank named for `t` is named for its dependency `d`, or `d` is a root and `t` is not a merge task. */
  ghost predicate Obtainable<V>(job: Job<V>, t: nat, d: nat)
    requires JobGraphOk(job) && t < |job.g| && d < |job.g|
  {
    forall r :: Named(job, r, t) ==>
      if job.g[t].kind.Merge? then job.g[d].kind.Partition? && Named(job, r, d)
      else IsStageRoot(job, d) || Named(job, r, d)
  }

  ghost predicate RanksCover<V>(job: Job<V>)
    requires JobGraphOk(job)
  {
    forall t, i :: 0 <= t < |job.g| && 0 <= i < |job.g[t].deps| ==> Obtainable(job, t, job.g[t].deps[i])
  }

  lemma AvailableIff<V>(job: Job<V>, t: nat, d: nat)
    requires JobGraphOk(job) && job.size > 0 && RoundRobin(job) && t < |job.g| && d < |job.g|
    ensures Available(job, t, d) <==> Obtainable(job, t, d)
  {
    forall r | 0 <= r < job.size
      ensures (RunsOn(job, r, t) <==> Named(job, r, t)) && (RunsOn(job, r, d) <==> Named(job, r, d))
    {
      WhoRuns(job, r, t);
      WhoRuns(job, r, d);
    }
  }

  /** Under round robin some run completes on all ranks if and only if every dependency is named for all ranks of its
    consumer, or is a root that the consumer can fetch. */
  lemma RoundRobinCompletes<V>(job: Job<V>)
    requires JobGraphOk(job) && job.maxWorkers > 0 && job.size > 0 && RoundRobin(job)
    ensures CanComplete(job) <==> RanksCover(job)
  {
    RootsAreScheduled(job);
    CompletesIffAvailable(job);
    forall t, i | 0 <= t < |job.g| && 0 <= i < |job.g[t].deps|
      ensures Available(job, t, job.g[t].deps[i]) <==> Obtainable(job, t, job.g[t].deps[i])
    {
      AvailableIff(job, t, job.g[t].deps[i]);
    }
  }

  /** A root marked to execute on all ranks runs on every rank, whatever the scheduler names. */
  lemma OnAllRunsEverywhere<V>(job: Job<V>, r: nat, k: nat, j: nat)
    requires JobGraphOk(job) && k < |job.stageRoots| && j < |job.stageRoots[k]| && job.onAll(job.stageRoots[k][j])
    ensures job.stageRoots[k][j] < |job.g| && RunsOn(job, r, job.stageRoots[k][j])
  {
    var root := job.stageRoots[k][j];
    assert ConfigOk(Config(job.g, job.body, k, job.stageRoots[k], true));
    LocalOfMember(job, r, job.stageRoots[k], root);
    var n :| 0 <= n < |LocalRoots(job, r, k)| && LocalRoots(job, r, k)[n] == root;
  }
}
