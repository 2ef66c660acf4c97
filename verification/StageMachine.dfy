/** One process executing one stage: an interleaving of worker threads over shared task statuses.

  Atomics are sequentially consistent, so a run is a sequence of single steps of single workers. A worker's
  C++ call stack is a sequence of frames, one for each `execute` it is inside; the bottom frame is a root task. */
module StageMachine {
  import opened Wrappers
  import opened TaskGraph

  datatype Status = NotStarted | InProgress | Finished | Failed

  datatype Phase =
    | Preparing  // about to compare-and-swap dependency `next`, or to compute once none is left
    | Waiting    // the compare-and-swap failed: spinning on the status of dependency `next`
    | Calling    // dependency `next` was claimed and executes in the frame above
    | Migrating  // dependency `next`, of an earlier stage, was claimed and is to be fetched
    | Fetched    // the fetched result of dependency `next` is stored, its status not yet published
    | Written    // the task's own result is stored, its status not yet published

  datatype Frame = Frame(task: nat, next: nat, phase: Phase)

  datatype Mode = Running | Throwing | Ended(ok: bool)

  /** `idx` is the position in the root list the worker takes next. */
  datatype Worker = Worker(stack: seq<Frame>, idx: nat, mode: Mode)

  /** `starts`, `owner` and `lost` record history: how often the task's body was entered, which worker claimed it, and
    whether its claimer threw and left it in progress. A step reads from it only whether a finished partition task was
    executed by this process, because then it has its offsets. */
  datatype TaskState<V> = TaskState(status: Status, result: Option<V>, starts: nat, owner: Option<nat>, lost: bool)

  datatype Proc<V> = Proc(tasks: seq<TaskState<V>>, workers: seq<Worker>)

  /** `migrates` tells a multi-process task manager, which can fetch results, from a single-process one. */
  datatype Config<!V> = Config(g: Graph, body: Body<V>, stage: nat, roots: seq<nat>, migrates: bool)

  /** What the environment decides in one step: whether a body throws, and what a fetch brings back. */
  datatype Choice<V> = Choice(ok: bool, fetched: Option<V>)

  ghost predicate FrameShape(g: Graph, f: Frame)
  {
    f.task < |g| && f.next <= |g[f.task].deps| &&
    (f.phase.Preparing? || f.phase.Written? || f.next < |g[f.task].deps|)
  }

  ghost predicate WorkerShape(g: Graph, k: Worker)
  {
    (forall i :: 0 <= i < |k.stack| ==> FrameShape(g, k.stack[i])) &&
    (k.mode.Throwing? ==> k.stack != []) &&
    (k.mode.Running? && k.stack != [] ==> !Top(k).phase.Calling?)
  }

  ghost predicate Shape<V>(c: Config<V>, p: Proc<V>)
  {
    WellFormed(c.g) &&
    |c.g| == |p.tasks| &&
    (forall j :: 0 <= j < |c.roots| ==> c.roots[j] < |c.g|) &&
    (forall w :: 0 <= w < |p.workers| ==> WorkerShape(c.g, p.workers[w]))
  }

  function Top(k: Worker): Frame
    requires k.stack != []
  {
    k.stack[|k.stack| - 1]
  }

  function WithTop(k: Worker, f: Frame): Worker
    requires k.stack != []
  {
    k.(stack := k.stack[|k.stack| - 1 := f])
  }

  function Dep(g: Graph, f: Frame): nat
    requires f.task < |g| && f.next < |g[f.task].deps|
  {
    g[f.task].deps[f.next]
  }

  /** `task::result()`: present only once the task is published as finished. */
  function Result<V>(p: Proc<V>, d: nat): Option<V>
    requires d < |p.tasks|
  {
    if p.tasks[d].status.Finished? then p.tasks[d].result else None
  }

  ghost predicate Blocked<V>(c: Config<V>, p: Proc<V>, w: nat)
    requires Shape(c, p) && w < |p.workers|
  {
    var k := p.workers[w];
    k.mode.Running? && k.stack != [] && Top(k).phase.Waiting? &&
    !p.tasks[Dep(c.g, Top(k))].status.Finished? && !p.tasks[Dep(c.g, Top(k))].status.Failed?
  }

  ghost predicate CanStep<V>(c: Config<V>, p: Proc<V>, w: nat)
    requires Shape(c, p)
  {
    w < |p.workers| && !p.workers[w].mode.Ended? && !Blocked(c, p, w)
  }

  /** Every step writes one worker and at most one task. */
  function Write<V>(p: Proc<V>, w: nat, k: Worker, t: nat, x: TaskState<V>): Proc<V>
    requires w < |p.workers| && t < |p.tasks|
  {
    Proc(p.tasks[t := x], p.workers[w := k])
  }

  function SetWorker<V>(p: Proc<V>, w: nat, k: Worker): Proc<V>
    requires w < |p.workers|
  {
    p.(workers := p.workers[w := k])
  }

  /** Take the next root of the worker's stride, or end. Roots run without a compare-and-swap. */
  ghost function Pick<V>(c: Config<V>, p: Proc<V>, w: nat): Proc<V>
    requires Shape(c, p) && w < |p.workers|
  {
    var k := p.workers[w];
    if k.idx < |c.roots| then
      var r := c.roots[k.idx];
      Write(p, w, Worker([Frame(r, 0, Preparing)], k.idx + |p.workers|, Running),
            r, p.tasks[r].(starts := p.tasks[r].starts + 1, owner := Some(w)))
    else
      SetWorker(p, w, k.(mode := Ended(true)))
  }

  /** The compare-and-swap on dependency `next` and the branch on its stage. */
  ghost function Claim<V>(c: Config<V>, p: Proc<V>, w: nat): Proc<V>
    requires Shape(c, p) && w < |p.workers| && p.workers[w].stack != []
    requires Top(p.workers[w]).next < |c.g[Top(p.workers[w]).task].deps|
  {
    var k := p.workers[w];
    var f := Top(k);
    var d := Dep(c.g, f);
    if !p.tasks[d].status.NotStarted? then
      SetWorker(p, w, WithTop(k, f.(phase := Waiting)))
    else
      var x := p.tasks[d].(status := InProgress, owner := Some(w));
      if c.g[d].stage == c.g[f.task].stage then
        Write(p, w, Pushed(WithTop(k, f.(phase := Calling)), d), d, x.(starts := x.starts + 1))
      else if c.g[d].stage < c.g[f.task].stage && c.migrates then
        Write(p, w, WithTop(k, f.(phase := Migrating)), d, x)
      else
        Write(p, w, k.(mode := Throwing), d, x.(lost := true))
  }

  function Pushed(k: Worker, t: nat): Worker
  {
    k.(stack := k.stack + [Frame(t, 0, Preparing)])
  }

  /** Leave the spin loop on a finished or failed dependency. */
  ghost function Observe<V>(c: Config<V>, p: Proc<V>, w: nat): Proc<V>
    requires Shape(c, p) && w < |p.workers| && p.workers[w].stack != []
    requires Top(p.workers[w]).phase.Waiting?
  {
    var k := p.workers[w];
    var f := Top(k);
    if p.tasks[Dep(c.g, f)].status.Failed? then
      SetWorker(p, w, k.(mode := Throwing))
    else
      SetWorker(p, w, WithTop(k, Frame(f.task, f.next + 1, Preparing)))
  }

  /** `migrate_result`: store what another process sent, or throw and leave the dependency in progress. */
  ghost function Fetch<V>(c: Config<V>, p: Proc<V>, w: nat, v: Option<V>): Proc<V>
    requires Shape(c, p) && w < |p.workers| && p.workers[w].stack != []
    requires Top(p.workers[w]).phase.Migrating?
  {
    var k := p.workers[w];
    var f := Top(k);
    var d := Dep(c.g, f);
    if v.Some? then
      Write(p, w, WithTop(k, f.(phase := Fetched)), d, p.tasks[d].(result := v))
    else
      Write(p, w, WithTop(k, f.(phase := Preparing)).(mode := Throwing), d, p.tasks[d].(lost := true))
  }

  /** The status write of `emit_result` after a fetch. */
  ghost function Accept<V>(c: Config<V>, p: Proc<V>, w: nat): Proc<V>
    requires Shape(c, p) && w < |p.workers| && p.workers[w].stack != []
    requires Top(p.workers[w]).phase.Fetched?
  {
    var k := p.workers[w];
    var f := Top(k);
    var d := Dep(c.g, f);
    Write(p, w, WithTop(k, Frame(f.task, f.next + 1, Preparing)), d, p.tasks[d].(status := Finished))
  }

  ghost function Inputs<V>(c: Config<V>, p: Proc<V>, t: nat): seq<Option<V>>
    requires WellFormed(c.g) && t < |c.g| == |p.tasks|
  {
    seq(|c.g[t].deps|, i requires 0 <= i < |c.g[t].deps| => Result(p, c.g[t].deps[i]))
  }

  /** Task `t` can work with dependency `d`, which is in state `x`. A merge task throws for a dependency that is no
    partition task, and finds no offsets in one whose result was fetched from another process. */
  predicate Usable<V>(g: Graph, t: nat, d: nat, x: TaskState<V>)
    requires t < |g| && d < |g|
  {
    g[t].kind.Merge? ==> g[d].kind.Partition? && x.starts > 0
  }

  ghost predicate Computable<V>(c: Config<V>, p: Proc<V>, t: nat)
    requires WellFormed(c.g) && t < |c.g| == |p.tasks|
  {
    forall i :: 0 <= i < |c.g[t].deps| ==> Usable(c.g, t, c.g[t].deps[i], p.tasks[c.g[t].deps[i]])
  }

  /** The task's own work: the result write of `emit_result`, or an exception. */
  ghost function Compute<V>(c: Config<V>, p: Proc<V>, w: nat, ok: bool): Proc<V>
    requires Shape(c, p) && w < |p.workers| && p.workers[w].stack != []
  {
    var k := p.workers[w];
    var f := Top(k);
    if ok && Computable(c, p, f.task) then
      Write(p, w, WithTop(k, f.(phase := Written)),
            f.task, p.tasks[f.task].(result := Some(c.body(f.task, Inputs(c, p, f.task)))))
    else
      SetWorker(p, w, k.(mode := Throwing))
  }

  /** The status write of `emit_result`, and the return from `execute` to the caller's loop. */
  ghost function Publish<V>(c: Config<V>, p: Proc<V>, w: nat): Proc<V>
    requires Shape(c, p) && w < |p.workers| && p.workers[w].stack != []
  {
    var k := p.workers[w];
    var f := Top(k);
    Write(p, w, k.(stack := Returned(k.stack[..|k.stack| - 1])), f.task, p.tasks[f.task].(status := Finished))
  }

  function Returned(rest: seq<Frame>): seq<Frame>
  {
    if rest == [] then []
    else
      var f := rest[|rest| - 1];
      rest[|rest| - 1 := Frame(f.task, f.next + 1, Preparing)]
  }

  /** One level of stack unwinding: a claimed task is marked failed; a root's worker records the exception. */
  ghost function Unwind<V>(c: Config<V>, p: Proc<V>, w: nat): Proc<V>
    requires Shape(c, p) && w < |p.workers| && p.workers[w].stack != []
  {
    var k := p.workers[w];
    if |k.stack| == 1 then
      SetWorker(p, w, Worker([], k.idx, Ended(false)))
    else
      var t := Top(k).task;
      Write(p, w, k.(stack := k.stack[..|k.stack| - 1]), t, p.tasks[t].(status := Failed))
  }

  /** The one step worker `w` takes; everything but the environment's choice is determined by the state. */
  ghost function Step<V>(c: Config<V>, p: Proc<V>, w: nat, ch: Choice<V>): Proc<V>
    requires Shape(c, p) && CanStep(c, p, w)
  {
    var k := p.workers[w];
    if k.mode.Throwing? then Unwind(c, p, w)
    else if k.stack == [] then Pick(c, p, w)
    else match Top(k).phase
      case Preparing =>
        if Top(k).next < |c.g[Top(k).task].deps| then Claim(c, p, w) else Compute(c, p, w, ch.ok)
      case Waiting => Observe(c, p, w)
      case Migrating => Fetch(c, p, w, ch.fetched)
      case Fetched => Accept(c, p, w)
      case Written => Publish(c, p, w)
      case Calling => p
  }
}
