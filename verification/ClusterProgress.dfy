/** Cross-rank agreement over whole runs: no stage overlap, a common outcome, no rank left waiting. */
module ClusterProgress {
  import opened StageMachine
  import opened StageSafety
  import opened StageProgress
  import opened StageOutcome
  import opened Cluster
  import opened ClusterSafety
  import SingleGpu

  /** A rank that has started a task of a stage sees every rank done with the tasks of all earlier stages. */
  lemma NoStageOverlap<V>(job: Job<V>, rs: seq<Rank<V>>, r: nat, t: nat, q: nat, d: nat)
    requires ClusterInv(job, rs) && r < |rs| && q < |rs| && t < |job.g| && d < |job.g|
    requires |rs[r].p.tasks| == |job.g| && rs[r].p.tasks[t].starts > 0
    requires job.g[d].stage < job.g[t].stage && RunsOn(job, q, d)
    ensures Has(job, rs[q], d)
  {
    var rk := rs[r];
    assert RankOk(job, r, rk);
    if rk.phase.Completed? { assert Settled(job.g, job.body, rk.p.tasks, t); }
    else { assert TaskOk(StageAt(job, r, rk.k), rk.p, t); }
    FinishedThere(job, rs, r, q, d);
  }

  /** An error reported by any rank in stage `k` keeps every rank from getting past the reduce of that stage. */
  lemma ErrorStopsAll<V>(job: Job<V>, rs: seq<Rank<V>>, k: nat, q: nat)
    requires ClusterInv(job, rs) && q < |rs| && k < |job.stageRoots| && job.stageRoots[k] != []
    requires AnyError(rs, CallsBefore(job, k))
    ensures rs[q].k <= k && !rs[q].phase.Completed? && (rs[q].k == k ==> !rs[q].phase.AtBarrier?)
  {
    var i := CallsBefore(job, k);
    var e :| 0 <= e < |rs| && i < |rs[e].calls| && rs[e].calls[i] == Reduce(true);
    assert RankOk(job, q, rs[q]) && Agree(rs[q], rs[e]);
    CallsBeforeMonotone(job, k, k);
    if rs[q].k > k { CallsBeforeMonotone(job, k, rs[q].k); }
  }

  /** If one rank aborted in stage `k`, every other rank has aborted there too or is about to leave the same reduce:
    none is in the barrier, in a later stage, or done. */
  lemma AbortAgreement<V>(job: Job<V>, rs: seq<Rank<V>>, r: nat, q: nat)
    requires ClusterInv(job, rs) && r < |rs| && q < |rs| && rs[r].phase.Aborted?
    ensures rs[q].k == rs[r].k && (rs[q].phase.Reducing? || rs[q].phase.Aborted?)
    ensures |rs[q].calls| == |rs[r].calls|
  {
    assert RankOk(job, r, rs[r]);
    assert AnyError(rs, CallsBefore(job, rs[r].k));
    ErrorStopsAll(job, rs, rs[r].k, q);
    assert RankOk(job, q, rs[q]) && Agree(rs[r], rs[q]);
    SameReduce(job, rs[r], rs[q]);
  }

  lemma SameReduce<V>(job: Job<V>, a: Rank<V>, b: Rank<V>)
    requires a.phase.Aborted? && a.k < |job.stageRoots| && job.stageRoots[a.k] != [] && Left(a) <= |b.calls|
    requires b.k <= a.k && !b.phase.Completed? && (b.k == a.k ==> !b.phase.AtBarrier?)
    requires b.phase.Executing? || job.stageRoots[b.k] != []
    requires |a.calls| == CallsBefore(job, a.k) + 1 && |b.calls| == CallsBefore(job, b.k) + Entered(b.phase)
    ensures b.k == a.k && (b.phase.Reducing? || b.phase.Aborted?) && |b.calls| == |a.calls|
  {
    CallsBeforeMonotone(job, b.k, a.k);
  }

  ghost predicate Over<V>(rk: Rank<V>)
  {
    rk.phase.Completed? || rk.phase.Aborted?
  }

  lemma {:induction false} Enumeration(s: set<nat>) returns (order: seq<nat>)
    ensures forall q :: q in order <==> q in s
  {
    if s == {} {
      order := [];
    } else {
      var x :| x in s;
      var rest := Enumeration(s - {x});
      order := [x] + rest;
    }
  }

  lemma RankCanMove<V>(job: Job<V>, rs: seq<Rank<V>>, r: nat) returns (m: Move)
    requires ClusterInv(job, rs) && NoneLost(rs) && r < |rs| && rs[r].phase.Executing?
    ensures CanMove(job, rs, m) && (m.Work? ==> m.ok)
  {
    var rk := rs[r];
    assert RankOk(job, r, rk);
    if job.stageRoots[rk.k] == [] {
      m := Skip(r);
    } else if AllEnded(rk.p) {
      m := EnterReduce(r);
    } else {
      var c := StageAt(job, r, rk.k);
      Progress(c, rk.p);
      assert NothingLost(rk.p);
      var v: nat :| CanStep(c, rk.p, v) || WaitsForLost(c, rk.p, v);
      var order := [];
      if Fetching(job, rk, v) { order := Enumeration(job.execRanks(Dep(job.g, Top(rk.p.workers[v])))); }
      m := Work(r, v, true, order);
    }
  }

  /** Until every rank has completed or aborted, some rank can move. */
  lemma ClusterCanMove<V>(job: Job<V>, rs: seq<Rank<V>>, r: nat) returns (m: Move)
    requires ClusterInv(job, rs) && NoneLost(rs) && r < |rs| && !Over(rs[r])
    ensures CanMove(job, rs, m) && (m.Work? ==> m.ok)
  {
    if q :| 0 <= q < |rs| && rs[q].phase.Executing? {
      m := RankCanMove(job, rs, q);
    } else if AllArrived(rs, r) {
      m := PendingCanLeave(job, rs, r);
    } else {
      var q :| 0 <= q < |rs| && |rs[q].calls| < |rs[r].calls|;
      BehindIsPending(job, rs, r, q);
      forall a | 0 <= a < |rs| ensures |rs[q].calls| <= |rs[a].calls| { assert Agree(rs[r], rs[a]); }
      m := PendingCanLeave(job, rs, q);
    }
  }

  lemma PendingCanLeave<V>(job: Job<V>, rs: seq<Rank<V>>, r: nat) returns (m: Move)
    requires ClusterInv(job, rs) && r < |rs| && (rs[r].phase.Reducing? || rs[r].phase.AtBarrier?) && AllArrived(rs, r)
    ensures CanMove(job, rs, m) && !m.Work?
  {
    assert RankOk(job, r, rs[r]);
    m := if rs[r].phase.Reducing? then LeaveReduce(r) else LeaveBarrier(r);
  }

  lemma BehindIsPending<V>(job: Job<V>, rs: seq<Rank<V>>, r: nat, q: nat)
    requires ClusterInv(job, rs) && r < |rs| && q < |rs| && |rs[q].calls| < |rs[r].calls|
    requires !Over(rs[r]) && !rs[r].phase.Executing? && !rs[q].phase.Executing?
    ensures rs[q].phase.Reducing? || rs[q].phase.AtBarrier?
  {
    assert RankOk(job, r, rs[r]) && RankOk(job, q, rs[q]);
    if rs[q].phase.Aborted? {
      AbortAgreement(job, rs, q, r);
    } else if rs[q].phase.Completed? {
      CallsBeforeMonotone(job, rs[r].k, |job.stageRoots|);
    }
  }

  /** When nothing can move any more, all ranks completed, or all threw in the same stage. */
  lemma CommonOutcome<V>(job: Job<V>, rs: seq<Rank<V>>)
    requires ClusterInv(job, rs) && NoneLost(rs) && !exists m :: CanMove(job, rs, m)
    ensures (forall r :: 0 <= r < |rs| ==> rs[r].phase.Completed?) ||
            (forall r :: 0 <= r < |rs| ==> rs[r].phase.Aborted? && rs[r].k == rs[0].k)
  {
    forall r | 0 <= r < |rs| ensures Over(rs[r]) {
      if !Over(rs[r]) { var m := ClusterCanMove(job, rs, r); }
    }
    if a :| 0 <= a < |rs| && rs[a].phase.Aborted? {
      AbortAgreement(job, rs, a, 0);
      forall r | 0 <= r < |rs| ensures rs[r].phase.Aborted? && rs[r].k == rs[0].k {
        AbortAgreement(job, rs, a, r);
      }
    }
  }

  function RestFrom<V>(job: Job<V>, k: nat): int
    decreases |job.stageRoots| - k
  {
    if k >= |job.stageRoots| then 0 else 5 + 3 * TeamSize(job, k) + RestFrom(job, k + 1)
  }

  lemma {:induction false} RestFromNonNegative<V>(job: Job<V>, k: nat)
    ensures RestFrom(job, k) >= 0
    decreases |job.stageRoots| - k
  {
    if k < |job.stageRoots| { RestFromNonNegative(job, k + 1); }
  }

  function RankWork<V>(job: Job<V>, rk: Rank<V>): int
    requires |rk.p.tasks| == |job.g|
  {
    Measure(job.g, rk.p) + RestFrom(job, rk.k + 1) +
    match rk.phase
    case Executing => 4
    case Reducing => 3
    case AtBarrier => 2
    case _ => 0
  }

  ghost predicate Sized<V>(job: Job<V>, rs: seq<Rank<V>>)
  {
    forall r :: 0 <= r < |rs| ==> |rs[r].p.tasks| == |job.g|
  }

  /** A bound on the moves of all ranks still to come. */
  function ClusterWork<V>(job: Job<V>, rs: seq<Rank<V>>): int
    requires Sized(job, rs)
  {
    if rs == [] then 0 else ClusterWork(job, rs[..|rs| - 1]) + RankWork(job, rs[|rs| - 1])
  }

  lemma {:induction false} ClusterWorkUpdate<V>(job: Job<V>, rs: seq<Rank<V>>, r: nat, rk: Rank<V>)
    requires Sized(job, rs) && r < |rs| && |rk.p.tasks| == |job.g|
    ensures ClusterWork(job, rs[r := rk]) == ClusterWork(job, rs) - RankWork(job, rs[r]) + RankWork(job, rk)
  {
    var n := |rs| - 1;
    assert rs[r := rk][..n] == if r < n then rs[..n][r := rk] else rs[..n];
    if r < n { ClusterWorkUpdate(job, rs[..n], r, rk); }
  }

  lemma BeginDecreases<V>(job: Job<V>, rk: Rank<V>)
    requires rk.k < |job.stageRoots| && |rk.p.tasks| == |job.g| && (rk.phase.Executing? || rk.phase.AtBarrier?)
    requires forall w :: 0 <= w < |rk.p.workers| ==> WorkerShape(job.g, rk.p.workers[w])
    ensures RankWork(job, Begin(job, rk, rk.k + 1)) < RankWork(job, rk)
  {
    var k := rk.k + 1;
    TeamWorkNonNegative(job.g, rk.p.workers);
    RestFromNonNegative(job, k);
    if k < |job.stageRoots| { SingleGpu.TeamCost(job.g, TeamSize(job, k)); }
  }

  lemma InvSized<V>(job: Job<V>, rs: seq<Rank<V>>)
    requires ClusterInv(job, rs)
    ensures Sized(job, rs)
  {
  }

  lemma RankMoveDecreases<V>(job: Job<V>, rs: seq<Rank<V>>, m: Move)
    requires JobGraphOk(job) && CanMove(job, rs, m) && RankOk(job, m.r, rs[m.r])
    requires |NextRank(job, rs, m).p.tasks| == |job.g|
    ensures RankWork(job, NextRank(job, rs, m)) < RankWork(job, rs[m.r])
  {
    if m.Work? {
      StepDecreases(StageAt(job, m.r, rs[m.r].k), rs[m.r].p, m.w, ChoiceOf(job, rs, m));
    } else if m.Skip? || m.LeaveBarrier? {
      BeginDecreases(job, rs[m.r]);
    }
  }

  lemma MoveDecreases<V>(job: Job<V>, rs: seq<Rank<V>>, m: Move)
    requires ClusterInv(job, rs) && CanMove(job, rs, m) && ClusterInv(job, Next(job, rs, m))
    ensures Sized(job, rs) && Sized(job, Next(job, rs, m))
    ensures ClusterWork(job, Next(job, rs, m)) < ClusterWork(job, rs)
  {
    InvSized(job, rs);
    InvSized(job, Next(job, rs, m));
    assert RankOk(job, m.r, rs[m.r]);
    assert NextRank(job, rs, m) == Next(job, rs, m)[m.r];
    RankMoveDecreases(job, rs, m);
    ClusterWorkUpdate(job, rs, m.r, NextRank(job, rs, m));
  }

  ghost predicate ClusterRun<V>(job: Job<V>, rs: seq<Rank<V>>, ms: seq<Move>)
    decreases |ms|
  {
    ms == [] || (CanMove(job, rs, ms[0]) && ClusterRun(job, Next(job, rs, ms[0]), ms[1..]))
  }

  ghost function ClusterAfter<V>(job: Job<V>, rs: seq<Rank<V>>, ms: seq<Move>): seq<Rank<V>>
    requires ClusterRun(job, rs, ms)
    decreases |ms|
  {
    if ms == [] then rs else ClusterAfter(job, Next(job, rs, ms[0]), ms[1..])
  }

  ghost function Launch<V>(job: Job<V>): seq<Rank<V>>
  {
    seq(job.size, _ => Begin(job, Rank(0, Executing, Proc(SingleGpu.Fresh(|job.g|), []), []), 0))
  }

  lemma LaunchOk<V>(job: Job<V>)
    requires JobGraphOk(job) && job.maxWorkers > 0
    ensures ClusterInv(job, Launch(job)) && NoneLost(Launch(job))
  {
    var ts: seq<TaskState<V>> := SingleGpu.Fresh(|job.g|);
    forall r | 0 <= r < job.size ensures RankOk(job, r, Launch(job)[r]) {
      BeginOk(job, r, Rank(0, Executing, Proc(ts, []), []), 0);
    }
  }

  lemma {:induction false} ClusterRunKeeps<V>(job: Job<V>, rs: seq<Rank<V>>, ms: seq<Move>)
    requires ClusterInv(job, rs) && ClusterRun(job, rs, ms)
    ensures ClusterInv(job, ClusterAfter(job, rs, ms)) && Sized(job, rs) && Sized(job, ClusterAfter(job, rs, ms))
    ensures |ms| + ClusterWork(job, ClusterAfter(job, rs, ms)) <= ClusterWork(job, rs)
    decreases |ms|
  {
    InvSized(job, rs);
    if ms != [] {
      MoveKeeps(job, rs, ms[0]);
      MoveDecreases(job, rs, ms[0]);
      ClusterRunKeeps(job, Next(job, rs, ms[0]), ms[1..]);
    }
  }

  lemma {:induction false} ClusterWorkNonNegative<V>(job: Job<V>, rs: seq<Rank<V>>)
    requires Sized(job, rs)
    requires forall r, w :: 0 <= r < |rs| && 0 <= w < |rs[r].p.workers| ==> WorkerShape(job.g, rs[r].p.workers[w])
    ensures ClusterWork(job, rs) >= 0
  {
    if rs != [] {
      var n := |rs| - 1;
      ClusterWorkNonNegative(job, rs[..n]);
      TeamWorkNonNegative(job.g, rs[n].p.workers);
      PoolNonNegative(job.g, rs[n].p.tasks);
      RestFromNonNegative(job, rs[n].k + 1);
    }
  }

  lemma {:induction false} RunLosesNothing<V>(job: Job<V>, rs: seq<Rank<V>>, ms: seq<Move>)
    requires ClusterInv(job, rs) && RootsScheduled(job) && AllAvailable(job) && NoneLost(rs) && ClusterRun(job, rs, ms)
    ensures NoneLost(ClusterAfter(job, rs, ms))
    decreases |ms|
  {
    if ms != [] {
      MoveKeeps(job, rs, ms[0]);
      MoveLosesNothing(job, rs, ms[0]);
      RunLosesNothing(job, Next(job, rs, ms[0]), ms[1..]);
    }
  }

  lemma WorkLeft<V>(job: Job<V>, rs: seq<Rank<V>>)
    requires ClusterInv(job, rs)
    ensures Sized(job, rs) && ClusterWork(job, rs) >= 0
  {
    InvSized(job, rs);
    forall r, w | 0 <= r < |rs| && 0 <= w < |rs[r].p.workers| ensures WorkerShape(job.g, rs[r].p.workers[w]) {
      assert RankOk(job, r, rs[r]);
    }
    ClusterWorkNonNegative(job, rs);
  }

  /** Every run of the cluster is bounded and keeps the invariant. If every dependency on an earlier stage can be had,
    it can go on until all ranks completed or all threw in one stage. */
  lemma ClusterOutcome<V>(job: Job<V>, ms: seq<Move>)
    requires JobGraphOk(job) && job.maxWorkers > 0 && ClusterRun(job, Launch(job), ms)
    ensures Sized(job, Launch(job))
    ensures var rs := ClusterAfter(job, Launch(job), ms);
      ClusterInv(job, rs) && |ms| <= ClusterWork(job, Launch(job)) &&
      (RootsScheduled(job) && AllAvailable(job) ==>
       (exists m :: CanMove(job, rs, m)) ||
       (forall r :: 0 <= r < |rs| ==> rs[r].phase.Completed?) ||
       (forall r :: 0 <= r < |rs| ==> rs[r].phase.Aborted? && rs[r].k == rs[0].k))
  {
    LaunchOk(job);
    ClusterRunKeeps(job, Launch(job), ms);
    var rs := ClusterAfter(job, Launch(job), ms);
    WorkLeft(job, rs);
    if RootsScheduled(job) && AllAvailable(job) && !exists m :: CanMove(job, rs, m) {
      RunLosesNothing(job, Launch(job), ms);
      CommonOutcome(job, rs);
    }
  }
}
