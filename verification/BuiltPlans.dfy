/** What the executor makes of the graphs that the builder delivers. */
module BuiltPlans {
  import opened Arith
  import opened TaskGraph
  import opened StageMachine
  import opened StageSafety
  import opened Pipelines
  import opened BuilderState
  import opened Relations
  import opened PlanGraphs
  import opened MergeTasks
  import opened MergePipelines
  import S = SingleGpu
  import C = Cluster
  import opened ClusterSafety
  import opened ClusterCompletion
  import opened Schedulers

  lemma RootsAreConfig<V>(s: State, body: Body<V>, k: nat, migrates: bool)
    requires Delivered(s) && k < |s.roots|
    ensures ConfigOk(Config(s.g, body, k, s.roots[k], migrates))
  {
    assert RootsOk(s.g, k, s.roots[k]);
  }

  // ---------- One process ----------

  function PlanOf<V>(s: State, body: Body<V>, maxWorkers: nat): S.Plan<V>
  {
    S.Plan(s.g, body, s.roots, maxWorkers)
  }

  /** Every delivered graph has what the executor asks of its root lists. */
  lemma BuiltStagesOk<V>(s: State, body: Body<V>, maxWorkers: nat)
    requires Delivered(s)
    ensures S.StagesOk(PlanOf(s, body, maxWorkers))
  {
    forall k | 0 <= k < |s.roots| ensures ConfigOk(Config(s.g, body, k, s.roots[k], false)) {
      RootsAreConfig(s, body, k, false);
    }
  }

  lemma CoveredIffExecuted<V>(s: State, body: Body<V>, maxWorkers: nat, u: nat)
    requires Delivered(s) && u < |s.g|
    ensures S.Covered(PlanOf(s, body, maxWorkers), u) <==> Executed(s, u)
  {
    RootsAreConfig(s, body, s.g[u].stage, false);
  }

  /** Task `t` finds what it needs of its dependency: it is executed, and it is a partition task if `t` merges. */
  ghost predicate Provided(s: State, t: nat, d: nat)
    requires Delivered(s) && t < |s.g| && d < |s.g|
  {
    Executed(s, d) && (s.g[t].kind.Merge? ==> s.g[d].kind.Partition?)
  }

  ghost predicate Supplied(s: State)
    requires Delivered(s)
  {
    forall t, i :: 0 <= t < |s.g| && 0 <= i < |s.g[t].deps| && Executed(s, t) ==> Provided(s, t, s.g[t].deps[i])
  }

  /** Every executed task of a plan finds what it needs exactly if the plan is safe and matched. */
  lemma SuppliedIff(p: nat, rel: Rel)
    requires p > 0 && Valid(p, rel)
    ensures Delivered(GraphOf(p, rel)) && (Supplied(GraphOf(p, rel)) <==> Safe(p, rel) && Matched(rel))
  {
    var s := GraphOf(p, rel);
    GraphIs(p, rel);
    GraphMatches(p, rel);
    if AllExecuted(s) { AllSupplied(s); }
    if Supplied(s) {
      forall t, i | 0 <= t < |s.g| && 0 <= i < |s.g[t].deps| && Executed(s, t) ensures Executed(s, s.g[t].deps[i]) {
        assert Provided(s, t, s.g[t].deps[i]);
      }
    }
  }

  lemma AllSupplied(s: State)
    requires Delivered(s) && AllExecuted(s)
    ensures Supplied(s) <==> MergesParts(s.g, 0)
  {
    if Supplied(s) {
      forall t, i | 0 <= t < |s.g| && s.g[t].kind.Merge? && 0 <= i < |s.g[t].deps|
        ensures s.g[s.g[t].deps[i]].kind.Partition?
      {
        assert Executed(s, t) && Provided(s, t, s.g[t].deps[i]);
      }
    }
  }

  lemma FedIff<V>(s: State, body: Body<V>, maxWorkers: nat)
    requires Delivered(s)
    ensures S.Fed(PlanOf(s, body, maxWorkers)) <==> Supplied(s)
  {
    var plan := PlanOf(s, body, maxWorkers);
    forall u | 0 <= u < |s.g| ensures S.Covered(plan, u) <==> Executed(s, u) {
      CoveredIffExecuted(s, body, maxWorkers, u);
    }
    forall t, i | 0 <= t < |s.g| && 0 <= i < |s.g[t].deps|
      ensures S.Feeds(plan, t, s.g[t].deps[i]) <==> Provided(s, t, s.g[t].deps[i])
    {
    }
  }

  /** A single process with a worker can run a plan to its end if and only if the plan is safe and matched. */
  lemma SafePlansFinish<V>(p: nat, rel: Rel, body: Body<V>, maxWorkers: nat)
    requires p > 0 && Valid(p, rel) && maxWorkers > 0
    ensures S.CanFinish(PlanOf(GraphOf(p, rel), body, maxWorkers)) <==> Safe(p, rel) && Matched(rel)
  {
    var s := GraphOf(p, rel);
    SuppliedIff(p, rel);
    BuiltStagesOk(s, body, maxWorkers);
    FedIff(s, body, maxWorkers);
    S.FinishesIffFed(PlanOf(s, body, maxWorkers));
  }

  /** A task that the builder lost is not started in any state of any run. */
  lemma LostIsSkipped<V>(s: State, body: Body<V>, maxWorkers: nat, ms: seq<S.Move>, u: nat)
    requires Delivered(s) && u < |s.g| && !Executed(s, u)
    requires S.SysRun(PlanOf(s, body, maxWorkers), S.Start(PlanOf(s, body, maxWorkers)), ms)
    ensures var plan := PlanOf(s, body, maxWorkers); S.Missing(plan, S.SysAfter(plan, S.Start(plan), ms), u)
  {
    BuiltStagesOk(s, body, maxWorkers);
    CoveredIffExecuted(s, body, maxWorkers, u);
    S.NeverStarted(PlanOf(s, body, maxWorkers), ms, u);
  }

  // ---------- Several ranks ----------

  /** The job runs this graph, and its scheduler deals the pipeline ids out round robin. */
  ghost predicate Deals<V>(job: C.Job<V>, s: State)
  {
    Delivered(s) && job.g == s.g && job.stageRoots == s.roots && job.size > 0 &&
    forall t, r :: 0 <= t < |s.g| ==> (r in job.execRanks(t) <==> RankOf(s.ids[t], job.size, r))
  }

  lemma BuiltJobGraphOk<V>(job: C.Job<V>, s: State)
    requires Delivered(s) && job.g == s.g && job.stageRoots == s.roots
    ensures JobGraphOk(job)
  {
    forall k | 0 <= k < |job.stageRoots| ensures ConfigOk(Config(job.g, job.body, k, job.stageRoots[k], true)) {
      RootsAreConfig(s, job.body, k, true);
    }
  }

  lemma BuiltJobOk<V>(job: C.Job<V>, s: State)
    requires Deals(job, s)
    ensures JobGraphOk(job) && RoundRobin(job)
  {
    BuiltJobGraphOk(job, s);
    forall t, r | 0 <= t < |s.g|
      ensures r in job.execRanks(t) <==> exists i: nat :: ReachedByRoot(s.g, s.roots, t, i) && r == i % job.size
    {
      if RankOf(s.ids[t], job.size, r) {
        var i :| i in s.ids[t] && r == i % job.size;
        assert ReachedByRoot(s.g, s.roots, t, i);
      }
      if i: nat :| ReachedByRoot(s.g, s.roots, t, i) && r == i % job.size {
        assert i in s.ids[t];
      }
    }
  }

  /** A rank that is named for some task of the graph executes it; somebody is named for it if it is executed. */
  lemma NamedIsExecuted<V>(job: C.Job<V>, s: State, r: nat, t: nat)
    requires Deals(job, s) && JobGraphOk(job) && RoundRobin(job) && t < |s.g|
    ensures Named(job, r, t) ==> Executed(s, t)
    ensures Executed(s, t) ==> exists k: nat :: Named(job, k % job.size, t)
  {
    if Named(job, r, t) {
      var i: nat :| ReachedByRoot(s.g, s.roots, t, i);
    }
    if Executed(s, t) {
      var xs := s.roots[s.g[t].stage];
      var k :| 0 <= k < |xs| && xs[k] < |s.g| && Reaches(s.g, xs[k], t);
      assert ReachedByRoot(s.g, s.roots, t, k) && Named(job, k % job.size, t);
    }
  }

  lemma RootExecuted(s: State, d: nat)
    requires Delivered(s) && d < |s.g| && d in s.roots[s.g[d].stage]
    ensures Executed(s, d)
  {
    var k :| 0 <= k < |s.roots[s.g[d].stage]| && s.roots[s.g[d].stage][k] == d;
    assert Reaches(s.g, d, d);
  }

  /** What all ranks can obtain is executed somewhere. */
  lemma CoverSupplies<V>(job: C.Job<V>, s: State)
    requires Deals(job, s) && JobGraphOk(job) && RoundRobin(job) && RanksCover(job)
    ensures Supplied(s)
  {
    forall t, i | 0 <= t < |s.g| && 0 <= i < |s.g[t].deps| && Executed(s, t) ensures Provided(s, t, s.g[t].deps[i]) {
      var d := s.g[t].deps[i];
      NamedIsExecuted(job, s, 0, t);
      var k: nat :| Named(job, k % job.size, t);
      assert Obtainable(job, t, job.g[t].deps[i]);
      if Named(job, k % job.size, d) { NamedIsExecuted(job, s, k % job.size, d); } else { RootExecuted(s, d); }
    }
  }

  lemma SameStageNamed<V>(job: C.Job<V>, s: State, r: nat, t: nat, i: nat)
    requires Deals(job, s) && JobGraphOk(job) && RoundRobin(job) && t < |s.g| && i < |s.g[t].deps|
    requires s.g[s.g[t].deps[i]].stage == s.g[t].stage && Named(job, r, t)
    ensures Named(job, r, s.g[t].deps[i])
  {
    var n: nat :| ReachedByRoot(s.g, s.roots, t, n) &&
                  (r == n % job.size || job.onAll(s.roots[s.g[t].stage][n]));
    ReachesStep(s.g, s.roots[s.g[t].stage][n], t, i);
    assert ReachedByRoot(s.g, s.roots, s.g[t].deps[i], n);
  }

  lemma PlainCovers<V>(job: C.Job<V>, s: State)
    requires Deals(job, s) && JobGraphOk(job) && RoundRobin(job) && CrossRooted(s, 0) && !HasMerges(s.g, 0)
    ensures RanksCover(job)
  {
    forall t, i | 0 <= t < |s.g| && 0 <= i < |s.g[t].deps| ensures Obtainable(job, t, s.g[t].deps[i]) {
      if Crosses(s.g, t, i) {
        assert IsRoot(s, s.g[t].deps[i]);
      } else {
        forall r | Named(job, r, t) ensures Named(job, r, s.g[t].deps[i]) {
          SameStageNamed(job, s, r, t, i);
        }
      }
    }
  }

  /** A single rank is named for everything that is executed. */
  lemma OneRankCovers<V>(job: C.Job<V>, s: State)
    requires Deals(job, s) && JobGraphOk(job) && RoundRobin(job) && Supplied(s) && job.size == 1
    ensures RanksCover(job)
  {
    forall t, i | 0 <= t < |s.g| && 0 <= i < |s.g[t].deps| ensures Obtainable(job, t, s.g[t].deps[i]) {
      forall r | Named(job, r, t) ensures Provided(s, t, s.g[t].deps[i]) && Named(job, r, s.g[t].deps[i]) {
        NamedIsExecuted(job, s, r, t);
        NamedIsExecuted(job, s, r, s.g[t].deps[i]);
      }
    }
  }

  /** Ranks under round robin can complete a plan if and only if every dependency is named for all ranks of its
    consumer, or is a root that the consumer can fetch. One rank can complete exactly the safe, matched plans. Several
    can complete all safe, plain plans that merge nothing, and none that is not safe or not matched. */
  lemma PlansComplete<V>(p: nat, rel: Rel, job: C.Job<V>)
    requires p > 0 && Valid(p, rel) && Deals(job, GraphOf(p, rel)) && job.maxWorkers > 0
    ensures JobGraphOk(job) && (CanComplete(job) <==> RanksCover(job))
    ensures CanComplete(job) ==> Safe(p, rel) && Matched(rel)
    ensures job.size == 1 && Safe(p, rel) && Matched(rel) ==> CanComplete(job)
    ensures Safe(p, rel) && Plain(p, rel) && !Merges(rel) ==> CanComplete(job)
  {
    var s := GraphOf(p, rel);
    SuppliedIff(p, rel);
    GraphIs(p, rel);
    GraphMatches(p, rel);
    BuiltJobOk(job, s);
    RoundRobinCompletes(job);
    if RanksCover(job) {
      CoverSupplies(job, s);
    } else {
      if Supplied(s) && job.size == 1 { OneRankCovers(job, s); }
      if CrossRooted(s, 0) && !HasMerges(s.g, 0) { PlainCovers(job, s); }
    }
  }

  // ---------- Shuffle joins on several ranks ----------

  lemma NeighboursDiffer(j: nat, size: nat)
    requires size > 1
    ensures j % size != (j + 1) % size
  {
    if j % size + 1 < size {
      ModIs(j + 1, size, j / size, j % size + 1);
    } else {
      ModIs(j + 1, size, j / size + 1, 0);
    }
  }

  /** A root is named for one rank only. */
  lemma RootNamedOnce<V>(job: C.Job<V>, d: nat, q: nat, r: nat)
    requires JobGraphOk(job) && job.size > 0 && RoundRobin(job) && d < |job.g| && (forall t :: !job.onAll(t))
    requires job.g[d].stage < |job.stageRoots| && d in job.stageRoots[job.g[d].stage]
    requires Named(job, q, d) && Named(job, r, d)
    ensures q == r
  {
    var k := job.g[d].stage;
    var j :| 0 <= j < |job.stageRoots[k]| && job.stageRoots[k][j] == d;
    RootRank(job, k, j, q);
    RootRank(job, k, j, r);
  }

  /** Twins that are torn apart cannot both have the root they share. */
  lemma TornFails<V>(job: C.Job<V>)
    requires JobGraphOk(job) && job.size > 1 && RoundRobin(job) && forall t :: !job.onAll(t)
    requires Torn(Final(job.g, job.stageRoots))
    ensures !RanksCover(job)
  {
    var f := Final(job.g, job.stageRoots);
    var t: nat, u: nat, j: nat :| Twins(f, t, u) && TornAt(f, t, u, j);
    var d: nat :| Shared(f, t, u, d);
    var i :| 0 <= i < |job.g[t].deps| && job.g[t].deps[i] == d;
    var k :| 0 <= k < |job.g[u].deps| && job.g[u].deps[k] == d;
    NeighboursDiffer(j, job.size);
    assert Named(job, j % job.size, t) && Named(job, (j + 1) % job.size, u);
    if RanksCover(job) {
      assert Obtainable(job, t, job.g[t].deps[i]) && Obtainable(job, u, job.g[u].deps[k]);
      RootNamedOnce(job, d, j % job.size, (j + 1) % job.size);
    }
  }

  /** Two ranks or more never complete a plan that merges at least two shuffle partitions: neighbouring merge tasks run
    on different ranks, and the offsets of the partition task that both read are on one of them only. */
  lemma MergesNeverComplete<V>(p: nat, rel: Rel, job: C.Job<V>)
    requires p > 1 && Valid(p, rel) && Deals(job, GraphOf(p, rel)) && job.maxWorkers > 0
    requires job.size > 1 && Merges(rel) && forall t :: !job.onAll(t)
    ensures !CanComplete(job)
  {
    PlansComplete(p, rel, job);
    if Safe(p, rel) && Matched(rel) {
      MergesAreTorn(p, rel);
      BuiltJobOk(job, GraphOf(p, rel));
      TornFails(job);
    }
  }

  /** So for plain plans it can be told before they are built who can complete them. */
  lemma PlainPlansComplete<V>(p: nat, rel: Rel, job: C.Job<V>)
    requires p > 1 && Valid(p, rel) && Plain(p, rel) && Deals(job, GraphOf(p, rel)) && job.maxWorkers > 0
    requires forall t :: !job.onAll(t)
    ensures CanComplete(job) <==> Safe(p, rel) && Matched(rel) && (job.size == 1 || !Merges(rel))
  {
    PlansComplete(p, rel, job);
    if job.size > 1 && Merges(rel) { MergesNeverComplete(p, rel, job); }
  }

  // ---------- All ranks run everything ----------

  /** The job runs this graph, and its scheduler names all ranks for every task. */
  ghost predicate Everywhere<V>(job: C.Job<V>, s: State)
  {
    Delivered(s) && job.g == s.g && job.stageRoots == s.roots && job.size > 0 &&
    forall t, r :: 0 <= t < |s.g| ==> (r in job.execRanks(t) <==> r < job.size)
  }

  lemma RunsIffExecuted<V>(job: C.Job<V>, s: State, r: nat, t: nat)
    requires Everywhere(job, s) && JobGraphOk(job) && r < job.size && t < |s.g|
    ensures RunsOn(job, r, t) <==> Executed(s, t)
  {
    var xs := s.roots[s.g[t].stage];
    var local := C.LocalRoots(job, r, s.g[t].stage);
    assert RootsOk(s.g, s.g[t].stage, xs);
    if RunsOn(job, r, t) {
      var n :| 0 <= n < |local| && local[n] < |s.g| && Reaches(s.g, local[n], t);
      assert local[n] in local;
      LocalOfMember(job, r, xs, local[n]);
    }
    if Executed(s, t) {
      var k :| 0 <= k < |xs| && xs[k] < |s.g| && Reaches(s.g, xs[k], t);
      LocalOfMember(job, r, xs, xs[k]);
      var n :| 0 <= n < |local| && local[n] == xs[k];
    }
  }

  lemma AvailableIffSupplied<V>(job: C.Job<V>, s: State)
    requires Everywhere(job, s) && JobGraphOk(job)
    ensures AllAvailable(job) <==> Supplied(s)
  {
    forall r, t | 0 <= r < job.size && 0 <= t < |s.g| ensures RunsOn(job, r, t) <==> Executed(s, t) {
      RunsIffExecuted(job, s, r, t);
    }
    forall t, i | 0 <= t < |s.g| && 0 <= i < |s.g[t].deps|
      ensures Available(job, t, s.g[t].deps[i]) <==> (Executed(s, t) ==> Provided(s, t, s.g[t].deps[i]))
    {
      AvailableIffProvided(job, s, t, s.g[t].deps[i]);
    }
  }

  lemma AvailableIffProvided<V>(job: C.Job<V>, s: State, t: nat, d: nat)
    requires Everywhere(job, s) && JobGraphOk(job) && t < |s.g| && d < |s.g|
    requires forall r, u :: 0 <= r < job.size && 0 <= u < |s.g| ==> (RunsOn(job, r, u) <==> Executed(s, u))
    ensures Available(job, t, d) <==> (Executed(s, t) ==> Provided(s, t, d))
  {
    if IsStageRoot(job, d) { RootExecuted(s, d); }
    if Available(job, t, d) && Executed(s, t) {
      assert RunsOn(job, 0, t) && Served(job, 0, t, d);
    }
  }

  /** With the all-to-all scheduler several ranks can complete a plan if and only if it is safe and matched. */
  lemma AllToAllCompletes<V>(p: nat, rel: Rel, job: C.Job<V>)
    requires p > 0 && Valid(p, rel) && Everywhere(job, GraphOf(p, rel)) && job.maxWorkers > 0
    ensures CanComplete(job) <==> Safe(p, rel) && Matched(rel)
  {
    var s := GraphOf(p, rel);
    SuppliedIff(p, rel);
    BuiltJobGraphOk(job, s);
    AvailableIffSupplied(job, s);
    forall k, j | 0 <= k < |s.roots| && 0 <= j < |s.roots[k]| ensures SchedulerOk(job, s.roots[k][j]) {
      assert RootsOk(s.g, k, s.roots[k]);
      assert 0 in job.execRanks(s.roots[k][j]);
    }
    CompletesIffAvailable(job);
  }
}
