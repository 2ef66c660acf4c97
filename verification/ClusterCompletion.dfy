/** Which jobs several ranks can complete. */
module ClusterCompletion {
  import opened StageMachine
  import opened StageSafety
  import opened StageOutcome
  import opened Cluster
  import opened ClusterSafety
  import opened ClusterProgress
  import SingleGpu

  // ---------- A dependency that cannot be had ----------

  lemma AbsentMove<V>(job: Job<V>, rs: seq<Rank<V>>, m: Move, r: nat, d: nat)
    requires ClusterInv(job, rs) && CanMove(job, rs, m) && r < |rs| && d < |job.g|
    requires !IsStageRoot(job, d) && !RunsOn(job, r, d) && Absent(job.g, rs[r].p, d)
    ensures Absent(job.g, Next(job, rs, m)[r].p, d)
  {
    if m.r == r {
      var rk := rs[r];
      assert RankOk(job, r, rk);
      match m
      case Work(_, w, _, order) => AbsentWork(job, rs, m, d);
      case Skip(_) => AbsentBegin(job, rk, d);
      case LeaveBarrier(_) => AbsentBegin(job, rk, d);
      case EnterReduce(_) =>
      case LeaveReduce(_) =>
    }
  }

  lemma AbsentBegin<V>(job: Job<V>, rk: Rank<V>, d: nat)
    requires rk.k < |job.stageRoots| && Absent(job.g, rk.p, d)
    ensures Absent(job.g, Begin(job, rk, rk.k + 1).p, d)
  {
    if rk.k + 1 < |job.stageRoots| { EnterAbsent(job.g, rk.p.tasks, TeamSize(job, rk.k + 1), d); }
  }

  lemma AbsentWork<V>(job: Job<V>, rs: seq<Rank<V>>, m: Move, d: nat)
    requires ClusterInv(job, rs) && CanMove(job, rs, m) && m.Work? && d < |job.g|
    requires !IsStageRoot(job, d) && !RunsOn(job, m.r, d) && Absent(job.g, rs[m.r].p, d)
    ensures Absent(job.g, NextRank(job, rs, m).p, d)
  {
    var rk := rs[m.r];
    assert RankOk(job, m.r, rk);
    var c, ch := StageAt(job, m.r, rk.k), ChoiceOf(job, rs, m);
    if Fetching(job, rk, m.w) { MigratedIsValue(job, rs, Dep(job.g, Top(rk.p.workers[m.w])), m.order); }
    FetchFails(job, rs, d, m.order);
    assert FetchOk(c, rk.p, m.w, ch) by {
      assert WorkerOk(c, rk.p, m.w);
    }
    AbsentStays(c, rk.p, m.w, ch, d);
  }

  lemma {:induction false} AbsentForever<V>(job: Job<V>, rs: seq<Rank<V>>, ms: seq<Move>, r: nat, d: nat)
    requires ClusterInv(job, rs) && ClusterRun(job, rs, ms) && r < |rs| && d < |job.g|
    requires !IsStageRoot(job, d) && !RunsOn(job, r, d) && Absent(job.g, rs[r].p, d)
    ensures r < |ClusterAfter(job, rs, ms)| && Absent(job.g, ClusterAfter(job, rs, ms)[r].p, d)
    decreases |ms|
  {
    if ms != [] {
      AbsentMove(job, rs, ms[0], r, d);
      MoveKeeps(job, rs, ms[0]);
      AbsentForever(job, Next(job, rs, ms[0]), ms[1..], r, d);
    }
  }

  lemma UnstartedMove<V>(job: Job<V>, rs: seq<Rank<V>>, m: Move, r: nat, d: nat)
    requires ClusterInv(job, rs) && CanMove(job, rs, m) && ClusterInv(job, Next(job, rs, m))
    requires r < |rs| && d < |job.g| && !RunsOn(job, r, d)
    requires |rs[r].p.tasks| == |job.g| && rs[r].p.tasks[d].starts == 0
    ensures |Next(job, rs, m)[r].p.tasks| == |job.g| && Next(job, rs, m)[r].p.tasks[d].starts == 0
  {
    assert RankOk(job, r, rs[r]) && RankOk(job, r, Next(job, rs, m)[r]);
    if m.r == r && m.Work? {
      UnstartedStays(StageAt(job, r, rs[r].k), rs[r].p, m.w, ChoiceOf(job, rs, m), d);
    }
  }

  /** A rank that does not run a task never starts it. */
  lemma {:induction false} UnstartedForever<V>(job: Job<V>, rs: seq<Rank<V>>, ms: seq<Move>, r: nat, d: nat)
    requires ClusterInv(job, rs) && ClusterRun(job, rs, ms) && r < |rs| && d < |job.g| && !RunsOn(job, r, d)
    requires |rs[r].p.tasks| == |job.g| && rs[r].p.tasks[d].starts == 0
    ensures var q := ClusterAfter(job, rs, ms);
      r < |q| && |q[r].p.tasks| == |job.g| && q[r].p.tasks[d].starts == 0
    decreases |ms|
  {
    if ms != [] {
      MoveKeeps(job, rs, ms[0]);
      UnstartedMove(job, rs, ms[0], r, d);
      UnstartedForever(job, Next(job, rs, ms[0]), ms[1..], r, d);
    }
  }

  /** A rank past the stage of a task it runs has what that task needs of its dependencies. */
  lemma PastHasInputs<V>(job: Job<V>, r: nat, rk: Rank<V>, t: nat, i: nat)
    requires JobGraphOk(job) && RankOk(job, r, rk) && t < |job.g| && i < |job.g[t].deps| && RunsOn(job, r, t)
    ensures var d := job.g[t].deps[i];
      rk.k > job.g[t].stage ==> rk.p.tasks[d].status.Finished? && Usable(job.g, t, d, rk.p.tasks[d])
  {
    if rk.k > job.g[t].stage {
      if rk.phase.Completed? { assert Settled(job.g, job.body, rk.p.tasks, t); }
      else { assert TaskOk(StageAt(job, r, rk.k), rk.p, t); }
    }
  }

  /** If a rank runs a task but cannot get what it needs of one of its dependencies, no run ever gets that rank past the
    stage of the task. */
  lemma NeverCompletes<V>(job: Job<V>, ms: seq<Move>, r: nat, t: nat, i: nat)
    requires JobGraphOk(job) && job.maxWorkers > 0 && ClusterRun(job, Launch(job), ms) && r < job.size
    requires t < |job.g| && i < |job.g[t].deps| && RunsOn(job, r, t) && !Served(job, r, t, job.g[t].deps[i])
    ensures var rs := ClusterAfter(job, Launch(job), ms);
      |rs| == job.size && rs[r].k <= job.g[t].stage && !rs[r].phase.Completed?
  {
    var d := job.g[t].deps[i];
    LaunchOk(job);
    ClusterRunKeeps(job, Launch(job), ms);
    var rs := ClusterAfter(job, Launch(job), ms);
    assert RankOk(job, r, rs[r]);
    PastHasInputs(job, r, rs[r], t, i);
    if !RunsOn(job, r, d) {
      UnstartedForever(job, Launch(job), ms, r, d);
      if !IsStageRoot(job, d) {
        EnterAbsent(job.g, SingleGpu.Fresh<V>(|job.g|), TeamSize(job, 0), d);
        AbsentForever(job, Launch(job), ms, r, d);
      }
    }
  }

  // ---------- A run without exceptions ----------

  ghost predicate CalmRank<V>(rk: Rank<V>)
  {
    Calm(rk.p) && !rk.phase.Aborted? && forall i :: 0 <= i < |rk.calls| ==> rk.calls[i] != Reduce(true)
  }

  ghost predicate CalmCluster<V>(rs: seq<Rank<V>>)
  {
    forall r :: 0 <= r < |rs| ==> CalmRank(rs[r])
  }

  /** A worker that is about to compute finds what its task needs. */
  lemma ServedComputes<V>(job: Job<V>, r: nat, rk: Rank<V>, w: nat)
    requires JobGraphOk(job) && AllAvailable(job) && r < job.size && RankOk(job, r, rk) && rk.phase.Executing?
    requires w < |rk.p.workers| && AtCompute(StageAt(job, r, rk.k), rk.p, w)
    ensures Computable(StageAt(job, r, rk.k), rk.p, Top(rk.p.workers[w]).task)
  {
    var c, t := StageAt(job, r, rk.k), Top(rk.p.workers[w]).task;
    forall i | 0 <= i < |c.g[t].deps| ensures Usable(c.g, t, c.g[t].deps[i], rk.p.tasks[c.g[t].deps[i]]) {
      ComputesWith(c, rk.p, w, i);
      assert RunsOn(job, r, t);
      assert Available(job, t, job.g[t].deps[i]);
      assert Served(job, r, t, job.g[t].deps[i]);
    }
  }

  lemma CalmMoves<V>(job: Job<V>, rs: seq<Rank<V>>, m: Move)
    requires ClusterInv(job, rs) && AllAvailable(job) && CanMove(job, rs, m) && CalmCluster(rs)
    requires NoneLost(Next(job, rs, m))
    requires m.Work? ==> m.ok
    ensures CalmCluster(Next(job, rs, m))
  {
    var rk := rs[m.r];
    assert RankOk(job, m.r, rk) && CalmRank(rk);
    assert NothingLost(Next(job, rs, m)[m.r].p);
    if m.Work? {
      if AtCompute(StageAt(job, m.r, rk.k), rk.p, m.w) { ServedComputes(job, m.r, rk, m.w); }
      CalmStays(StageAt(job, m.r, rk.k), rk.p, m.w, ChoiceOf(job, rs, m));
    } else if m.LeaveReduce? {
      assert !AnyError(rs, |rk.calls| - 1) by {
        assert forall q :: 0 <= q < |rs| ==> CalmRank(rs[q]);
      }
    }
  }

  lemma {:induction false} CompletingRun<V>(job: Job<V>, rs: seq<Rank<V>>) returns (ms: seq<Move>)
    requires ClusterInv(job, rs) && RootsScheduled(job) && AllAvailable(job) && NoneLost(rs) && CalmCluster(rs)
    ensures ClusterRun(job, rs, ms)
    ensures forall r :: 0 <= r < |ClusterAfter(job, rs, ms)| ==> ClusterAfter(job, rs, ms)[r].phase.Completed?
    decreases WorkOf(job, rs)
  {
    ms := [];
    if r :| 0 <= r < |rs| && !Over(rs[r]) {
      var m := ClusterCanMove(job, rs, r);
      MoveKeeps(job, rs, m);
      MoveLosesNothing(job, rs, m);
      CalmMoves(job, rs, m);
      MoveDecreases(job, rs, m);
      WorkLeft(job, Next(job, rs, m));
      var rest := CompletingRun(job, Next(job, rs, m));
      ms := [m] + rest;
      assert ms[1..] == rest;
    } else {
      forall r | 0 <= r < |rs| ensures rs[r].phase.Completed? {
        assert CalmRank(rs[r]) && Over(rs[r]);
      }
    }
  }

  ghost function WorkOf<V>(job: Job<V>, rs: seq<Rank<V>>): int
    requires ClusterInv(job, rs)
  {
    InvSized(job, rs);
    ClusterWork(job, rs)
  }

  ghost predicate CanComplete<V>(job: Job<V>)
  {
    exists ms :: ClusterRun(job, Launch(job), ms) && AllCompleted(ClusterAfter(job, Launch(job), ms))
  }

  ghost predicate AllCompleted<V>(rs: seq<Rank<V>>)
  {
    forall r :: 0 <= r < |rs| ==> rs[r].phase.Completed?
  }

  /** Some run completes on all ranks if and only if every rank can get what the tasks it runs need. */
  lemma CompletesIffAvailable<V>(job: Job<V>)
    requires JobGraphOk(job) && job.maxWorkers > 0 && RootsScheduled(job)
    ensures CanComplete(job) <==> AllAvailable(job)
  {
    if AllAvailable(job) {
      LaunchOk(job);
      LaunchCalm(job);
      var ms := CompletingRun(job, Launch(job));
    } else {
      var t, i :| 0 <= t < |job.g| && 0 <= i < |job.g[t].deps| && !Available(job, t, job.g[t].deps[i]);
      var r :| 0 <= r < job.size && RunsOn(job, r, t) && !Served(job, r, t, job.g[t].deps[i]);
      forall ms | ClusterRun(job, Launch(job), ms) ensures !AllCompleted(ClusterAfter(job, Launch(job), ms)) {
        NeverCompletes(job, ms, r, t, i);
      }
    }
  }

  lemma LaunchCalm<V>(job: Job<V>)
    ensures CalmCluster(Launch(job))
  {
  }
}
