/** Several processes (ranks) executing the same stage list: each runs the roots assigned to it, then all agree on
  errors by an OR-reduce, meet at a barrier, and fetch results of earlier stages from each other. */
module Cluster {
  import opened Wrappers
  import opened TaskGraph
  import opened StageMachine
  import opened StageProgress
  import opened StageOutcome

  /** `execRanks` is the scheduler's `get_execution_ranks`; `onAll` is the execute-on-all-ranks mark. */
  datatype Job<!V> = Job(g: Graph, body: Body<V>, stageRoots: seq<seq<nat>>, maxWorkers: nat, size: nat,
                         execRanks: nat -> set<nat>, onAll: nat -> bool)

  /** `execute_locally`. */
  predicate Local<V>(job: Job<V>, r: nat, t: nat)
  {
    job.onAll(t) || r in job.execRanks(t)
  }

  function LocalRoots<V>(job: Job<V>, r: nat, k: nat): seq<nat>
    requires k < |job.stageRoots|
  {
    LocalOf(job, r, job.stageRoots[k])
  }

  function LocalOf<V>(job: Job<V>, r: nat, s: seq<nat>): seq<nat>
  {
    if s == [] then []
    else
      var t := s[|s| - 1];
      LocalOf(job, r, s[..|s| - 1]) + if Local(job, r, t) then [t] else []
  }

  function StageAt<V>(job: Job<V>, r: nat, k: nat): Config<V>
    requires k < |job.stageRoots|
  {
    Config(job.g, job.body, k, LocalRoots(job, r, k), true)
  }

  /** The team size depends on all roots of the stage, not on the local ones. */
  function TeamSize<V>(job: Job<V>, k: nat): nat
    requires k < |job.stageRoots|
  {
    if job.maxWorkers < |job.stageRoots[k]| then job.maxWorkers else |job.stageRoots[k]|
  }

  /** A collective call a rank has entered; calls match up across ranks by their position. */
  datatype Call = Reduce(err: bool) | Barrier

  datatype RankPhase = Executing | Reducing | AtBarrier | Completed | Aborted

  datatype Rank<V> = Rank(k: nat, phase: RankPhase, p: Proc<V>, calls: seq<Call>)

  function Begin<V>(job: Job<V>, rk: Rank<V>, k: nat): Rank<V>
    requires k <= |job.stageRoots|
  {
    if k == |job.stageRoots| then rk.(k := k, phase := Completed, p := Proc(rk.p.tasks, []))
    else rk.(k := k, phase := Executing, p := Proc(rk.p.tasks, Team(TeamSize(job, k))))
  }

  /** Roots are registered with the migration service when their rank enters the stage. */
  predicate Registered<V>(job: Job<V>, rs: seq<Rank<V>>, q: nat, d: nat)
  {
    q < |rs| && d < |job.g| && job.g[d].stage < |job.stageRoots| && job.g[d].stage <= rs[q].k &&
    d in job.stageRoots[job.g[d].stage] && Local(job, q, d)
  }

  /** `migrate_result`: ask the candidate ranks in turn; unknown or failed tasks are skipped, unexecuted ones throw. */
  function MigrateResult<V>(job: Job<V>, rs: seq<Rank<V>>, d: nat, order: seq<nat>): Option<V>
  {
    if order == [] then None
    else
      var q := order[0];
      if !Registered(job, rs, q, d) || d >= |rs[q].p.tasks| then MigrateResult(job, rs, d, order[1..])
      else match rs[q].p.tasks[d].status
        case Finished => rs[q].p.tasks[d].result
        case Failed => MigrateResult(job, rs, d, order[1..])
        case _ => None
  }

  /** `order` is the iteration order of the candidate set in case the worker is fetching. */
  datatype Move =
    | Work(r: nat, w: nat, ok: bool, order: seq<nat>)
    | Skip(r: nat)
    | EnterReduce(r: nat)
    | LeaveReduce(r: nat)
    | LeaveBarrier(r: nat)

  ghost predicate AllArrived<V>(rs: seq<Rank<V>>, r: nat)
    requires r < |rs|
  {
    forall q :: 0 <= q < |rs| ==> |rs[r].calls| <= |rs[q].calls|
  }

  ghost predicate Fetching<V>(job: Job<V>, rk: Rank<V>, w: nat)
  {
    w < |rk.p.workers| && rk.p.workers[w].stack != [] && rk.p.workers[w].mode.Running? &&
    FrameShape(job.g, Top(rk.p.workers[w])) && Top(rk.p.workers[w]).phase.Migrating?
  }

  ghost predicate CanMove<V>(job: Job<V>, rs: seq<Rank<V>>, m: Move)
  {
    m.r < |rs| &&
    var rk := rs[m.r];
    rk.k < |job.stageRoots| && Shape(StageAt(job, m.r, rk.k), rk.p) &&
    match m
    case Work(r, w, _, order) =>
      rk.phase.Executing? && CanStep(StageAt(job, r, rk.k), rk.p, w) &&
      (Fetching(job, rk, w) ==> forall q :: q in order <==> q in job.execRanks(Dep(job.g, Top(rk.p.workers[w]))))
    case Skip(_) => rk.phase.Executing? && job.stageRoots[rk.k] == []
    case EnterReduce(_) => rk.phase.Executing? && job.stageRoots[rk.k] != [] && AllEnded(rk.p)
    case LeaveReduce(r) => rk.phase.Reducing? && rk.calls != [] && AllArrived(rs, r)
    case LeaveBarrier(r) => rk.phase.AtBarrier? && AllArrived(rs, r)
  }

  ghost function ChoiceOf<V>(job: Job<V>, rs: seq<Rank<V>>, m: Move): Choice<V>
    requires m.Work? && m.r < |rs|
  {
    var rk := rs[m.r];
    Choice(m.ok,
           if Fetching(job, rk, m.w) then MigrateResult(job, rs, Dep(job.g, Top(rk.p.workers[m.w])), m.order) else None)
  }

  /** The result of the OR-reduce that rank `r` has entered last. */
  ghost predicate AnyError<V>(rs: seq<Rank<V>>, i: nat)
  {
    exists q :: 0 <= q < |rs| && i < |rs[q].calls| && rs[q].calls[i] == Reduce(true)
  }

  ghost function NextRank<V>(job: Job<V>, rs: seq<Rank<V>>, m: Move): Rank<V>
    requires CanMove(job, rs, m)
  {
    var rk := rs[m.r];
    match m
    case Work(r, w, _, _) => rk.(p := Step(StageAt(job, r, rk.k), rk.p, w, ChoiceOf(job, rs, m)))
    case Skip(_) => Begin(job, rk, rk.k + 1)
    case EnterReduce(_) => rk.(phase := Reducing, calls := rk.calls + [Reduce(!Succeeded(rk.p))])
    case LeaveReduce(_) =>
      if AnyError(rs, |rk.calls| - 1) then rk.(phase := Aborted)
      else rk.(phase := AtBarrier, calls := rk.calls + [Barrier])
    case LeaveBarrier(_) => Begin(job, rk, rk.k + 1)
  }

  ghost function Next<V>(job: Job<V>, rs: seq<Rank<V>>, m: Move): seq<Rank<V>>
    requires CanMove(job, rs, m)
  {
    rs[m.r := NextRank(job, rs, m)]
  }
}
