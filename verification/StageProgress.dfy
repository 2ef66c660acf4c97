/** Progress and termination of a stage: no deadlock on claimed tasks, and a measure that every step lowers. */
module StageProgress {
  import opened TaskGraph
  import opened StageMachine
  import opened StageSafety

  ghost predicate AllEnded<V>(p: Proc<V>)
  {
    forall w :: 0 <= w < |p.workers| ==> p.workers[w].mode.Ended?
  }

  /** The worker spins on a task that its claimer abandoned. */
  ghost predicate WaitsForLost<V>(c: Config<V>, p: Proc<V>, w: nat)
    requires Shape(c, p)
  {
    w < |p.workers| && Blocked(c, p, w) && p.tasks[Dep(c.g, Top(p.workers[w]))].lost
  }

  /** Follow the waiting-for chain from a blocked worker: the tasks waited for strictly descend, so it ends at a
    worker that can move, unless it ends at an abandoned task. */
  lemma {:induction false} Unblock<V>(c: Config<V>, p: Proc<V>, w: nat) returns (v: nat)
    requires Inv(c, p) && w < |p.workers| && Blocked(c, p, w)
    ensures CanStep(c, p, v) || WaitsForLost(c, p, v)
    decreases Dep(c.g, Top(p.workers[w]))
  {
    var d := Dep(c.g, Top(p.workers[w]));
    assert WorkerOk(c, p, w) && FrameOk(c, p, w, |p.workers[w].stack| - 1) && TaskOk(c, p, d);
    if p.tasks[d].lost {
      v := w;
    } else {
      v := p.tasks[d].owner.value;
      assert WorkerOk(c, p, v);
      if !CanStep(c, p, v) {
        var k := p.workers[v];
        var i :| 1 <= i < |k.stack| && k.stack[i].task == d;
        StackDescends(c, p, v, i, |k.stack| - 1);
        v := Unblock(c, p, v);
      }
    }
  }

  /** In every reachable state some worker can step, unless all have ended or one waits for an abandoned task. */
  lemma Progress<V>(c: Config<V>, p: Proc<V>)
    requires Inv(c, p) && !AllEnded(p)
    ensures exists v :: CanStep(c, p, v) || WaitsForLost(c, p, v)
  {
    var w :| 0 <= w < |p.workers| && !p.workers[w].mode.Ended?;
    if !CanStep(c, p, w) {
      var v := Unblock(c, p, w);
    }
  }

  /** No step of any worker frees one that waits for an abandoned task. */
  lemma LostWaitStays<V>(c: Config<V>, p: Proc<V>, w: nat, v: nat, ch: Choice<V>)
    requires Inv(c, p) && WaitsForLost(c, p, w) && CanStep(c, p, v) && FetchOk(c, p, v, ch)
    ensures Shape(c, Step(c, p, v, ch)) && WaitsForLost(c, Step(c, p, v, ch), w)
  {
    StepKeeps(c, p, v, ch);
    var d := Dep(c.g, Top(p.workers[w]));
    var k := p.workers[v];
    assert TaskOk(c, p, d) && WorkerOk(c, p, v);
    if k.stack != [] { assert FrameOk(c, p, v, |k.stack| - 1); }
  }

  /** Steps a task's own call can take, and one for entering it. */
  function Work(g: Graph, t: nat): int
    requires t < |g|
  {
    3 * |g[t].deps| + 4
  }

  /** Steps the call of a frame can still take itself. */
  function Rem(g: Graph, f: Frame): int
  {
    (if f.task < |g| then 3 * (|g[f.task].deps| - f.next) else 0) +
    match f.phase
    case Preparing => 3
    case Fetched => 1
    case _ => 2
  }

  function StackWork(g: Graph, s: seq<Frame>): int
  {
    if s == [] then 0 else StackWork(g, s[..|s| - 1]) + Rem(g, s[|s| - 1])
  }

  function WorkerWork(g: Graph, k: Worker): int
  {
    StackWork(g, k.stack) + match k.mode case Running => 3 case Throwing => 1 case Ended(_) => 0
  }

  function TeamWork(g: Graph, ks: seq<Worker>): int
  {
    if ks == [] then 0 else TeamWork(g, ks[..|ks| - 1]) + WorkerWork(g, ks[|ks| - 1])
  }

  function Unstarted<V>(g: Graph, t: nat, x: TaskState<V>): int
    requires t < |g|
  {
    if x.starts == 0 then Work(g, t) else 0
  }

  function Pool<V>(g: Graph, ts: seq<TaskState<V>>): int
    requires |ts| <= |g|
  {
    if ts == [] then 0 else Pool(g, ts[..|ts| - 1]) + Unstarted(g, |ts| - 1, ts[|ts| - 1])
  }

  /** A bound on the steps all workers together can still take. */
  function Measure<V>(g: Graph, p: Proc<V>): int
    requires |p.tasks| <= |g|
  {
    Pool(g, p.tasks) + TeamWork(g, p.workers)
  }

  lemma {:induction false} PoolUpdate<V>(g: Graph, ts: seq<TaskState<V>>, d: nat, x: TaskState<V>)
    requires d < |ts| <= |g|
    ensures Pool(g, ts[d := x]) == Pool(g, ts) - Unstarted(g, d, ts[d]) + Unstarted(g, d, x)
  {
    var n := |ts| - 1;
    assert ts[d := x][..n] == if d < n then ts[..n][d := x] else ts[..n];
    if d < n { PoolUpdate(g, ts[..n], d, x); }
  }

  lemma {:induction false} TeamUpdate(g: Graph, ks: seq<Worker>, w: nat, k: Worker)
    requires w < |ks|
    ensures TeamWork(g, ks[w := k]) == TeamWork(g, ks) - WorkerWork(g, ks[w]) + WorkerWork(g, k)
  {
    var n := |ks| - 1;
    assert ks[w := k][..n] == if w < n then ks[..n][w := k] else ks[..n];
    if w < n { TeamUpdate(g, ks[..n], w, k); }
  }

  lemma {:induction false} StackWorkNonNegative(g: Graph, s: seq<Frame>)
    requires forall i :: 0 <= i < |s| ==> FrameShape(g, s[i])
    ensures StackWork(g, s) >= 0
  {
    if s != [] { StackWorkNonNegative(g, s[..|s| - 1]); }
  }

  lemma {:induction false} TeamWorkNonNegative(g: Graph, ks: seq<Worker>)
    requires forall w :: 0 <= w < |ks| ==> WorkerShape(g, ks[w])
    ensures TeamWork(g, ks) >= 0
  {
    if ks != [] {
      TeamWorkNonNegative(g, ks[..|ks| - 1]);
      assert WorkerShape(g, ks[|ks| - 1]);
      StackWorkNonNegative(g, ks[|ks| - 1].stack);
    }
  }

  lemma {:induction false} PoolNonNegative<V>(g: Graph, ts: seq<TaskState<V>>)
    requires |ts| <= |g|
    ensures Pool(g, ts) >= 0
  {
    if ts != [] { PoolNonNegative(g, ts[..|ts| - 1]); }
  }

  lemma MeasureNonNegative<V>(c: Config<V>, p: Proc<V>)
    requires Shape(c, p)
    ensures Measure(c.g, p) >= 0
  {
    TeamWorkNonNegative(c.g, p.workers);
    PoolNonNegative(c.g, p.tasks);
  }

  lemma PushWork(g: Graph, s: seq<Frame>, f: Frame)
    ensures StackWork(g, s + [f]) == StackWork(g, s) + Rem(g, f)
  {
  }

  lemma WithTopWork(g: Graph, k: Worker, f: Frame)
    requires k.stack != []
    ensures StackWork(g, WithTop(k, f).stack) == StackWork(g, k.stack) - Rem(g, Top(k)) + Rem(g, f)
  {
  }

  /** A step that leaves less work to worker `w`, counting the task it starts, lowers the measure. */
  lemma WriteDecreases<V>(g: Graph, p: Proc<V>, w: nat, k: Worker, d: nat, x: TaskState<V>)
    requires |p.tasks| == |g| && d < |g| && w < |p.workers|
    requires WorkerWork(g, k) + Unstarted(g, d, x) < WorkerWork(g, p.workers[w]) + Unstarted(g, d, p.tasks[d])
    ensures Measure(g, Write(p, w, k, d, x)) < Measure(g, p)
  {
    TeamUpdate(g, p.workers, w, k);
    PoolUpdate(g, p.tasks, d, x);
  }

  lemma SetWorkerDecreases<V>(g: Graph, p: Proc<V>, w: nat, k: Worker)
    requires |p.tasks| == |g| && w < |p.workers| && WorkerWork(g, k) < WorkerWork(g, p.workers[w])
    ensures Measure(g, SetWorker(p, w, k)) < Measure(g, p)
  {
    TeamUpdate(g, p.workers, w, k);
  }

  ghost predicate Claims<V>(c: Config<V>, p: Proc<V>, w: nat)
    requires Shape(c, p)
  {
    w < |p.workers| && p.workers[w].mode.Running? && p.workers[w].stack != [] && Top(p.workers[w]).phase.Preparing? &&
    Top(p.workers[w]).next < |c.g[Top(p.workers[w]).task].deps|
  }

  lemma ClaimDecreases<V>(c: Config<V>, p: Proc<V>, w: nat)
    requires Inv(c, p) && Claims(c, p, w)
    ensures Measure(c.g, Claim(c, p, w)) < Measure(c.g, p)
  {
    var f := Top(p.workers[w]);
    if p.tasks[Dep(c.g, f)].status.NotStarted? {
      TakeDecreases(c, p, w);
    } else {
      WithTopWork(c.g, p.workers[w], f.(phase := Waiting));
      SetWorkerDecreases(c.g, p, w, Claim(c, p, w).workers[w]);
    }
  }

  lemma TakeDecreases<V>(c: Config<V>, p: Proc<V>, w: nat)
    requires Inv(c, p) && Claims(c, p, w) && p.tasks[Dep(c.g, Top(p.workers[w]))].status.NotStarted?
    ensures Measure(c.g, Claim(c, p, w)) < Measure(c.g, p)
  {
    var k, g, q := p.workers[w], c.g, Claim(c, p, w);
    var f := Top(k);
    var d := Dep(g, f);
    assert TaskOk(c, p, d) && WorkerOk(c, p, w) && FrameOk(c, p, w, |k.stack| - 1);
    WithTopWork(g, k, f.(phase := Calling));
    PushWork(g, WithTop(k, f.(phase := Calling)).stack, Frame(d, 0, Preparing));
    WithTopWork(g, k, f.(phase := Migrating));
    WriteDecreases(g, p, w, q.workers[w], d, q.tasks[d]);
  }

  lemma InCallDecreases<V>(c: Config<V>, p: Proc<V>, w: nat, ch: Choice<V>)
    requires Inv(c, p) && CanStep(c, p, w) && p.workers[w].mode.Running? && p.workers[w].stack != []
    requires !Top(p.workers[w]).phase.Written?
    ensures Measure(c.g, Step(c, p, w, ch)) < Measure(c.g, p)
  {
    var k, g := p.workers[w], c.g;
    var f := Top(k);
    match f.phase
    case Preparing =>
      if f.next < |g[f.task].deps| {
        ClaimDecreases(c, p, w);
      } else {
        var q := Compute(c, p, w, ch.ok);
        WithTopWork(g, k, f.(phase := Written));
        if ch.ok && Computable(c, p, f.task) { WriteDecreases(g, p, w, q.workers[w], f.task, q.tasks[f.task]); }
        else { SetWorkerDecreases(g, p, w, q.workers[w]); }
      }
    case Waiting =>
      WithTopWork(g, k, Frame(f.task, f.next + 1, Preparing));
      SetWorkerDecreases(g, p, w, Observe(c, p, w).workers[w]);
    case Migrating =>
      var q, d := Fetch(c, p, w, ch.fetched), Dep(g, f);
      WithTopWork(g, k, f.(phase := Fetched));
      WithTopWork(g, k, f.(phase := Preparing));
      WriteDecreases(g, p, w, q.workers[w], d, q.tasks[d]);
    case Fetched =>
      var q, d := Accept(c, p, w), Dep(g, f);
      WithTopWork(g, k, Frame(f.task, f.next + 1, Preparing));
      WriteDecreases(g, p, w, q.workers[w], d, q.tasks[d]);
    case Calling =>
  }

  /** Every step of every worker lowers the measure, so a run from `p` has at most `Measure(c.g, p)` steps that
    are not iterations of a spin loop. */
  lemma StepDecreases<V>(c: Config<V>, p: Proc<V>, w: nat, ch: Choice<V>)
    requires Inv(c, p) && CanStep(c, p, w)
    ensures Measure(c.g, Step(c, p, w, ch)) < Measure(c.g, p)
  {
    var k, g := p.workers[w], c.g;
    assert WorkerOk(c, p, w);
    if k.mode.Throwing? {
      var q, t := Unwind(c, p, w), Top(k).task;
      assert FrameOk(c, p, w, |k.stack| - 1);
      if |k.stack| == 1 { SetWorkerDecreases(g, p, w, q.workers[w]); }
      else { WriteDecreases(g, p, w, q.workers[w], t, q.tasks[t]); }
    } else if k.stack == [] {
      var q := Pick(c, p, w);
      if k.idx < |c.roots| {
        var r := c.roots[k.idx];
        assert RootOk(c, p, k.idx) && TaskOk(c, p, r);
        PushWork(g, [], Frame(r, 0, Preparing));
        assert q.workers[w].stack == [] + [Frame(r, 0, Preparing)];
        WriteDecreases(g, p, w, q.workers[w], r, q.tasks[r]);
      } else {
        SetWorkerDecreases(g, p, w, q.workers[w]);
      }
    } else if Top(k).phase.Written? {
      PublishDecreases(c, p, w);
    } else {
      InCallDecreases(c, p, w, ch);
    }
  }

  lemma PublishDecreases<V>(c: Config<V>, p: Proc<V>, w: nat)
    requires Inv(c, p) && Publishes(c, p, w)
    ensures Measure(c.g, Publish(c, p, w)) < Measure(c.g, p)
  {
    var k, g := p.workers[w], c.g;
    var n, t, q := |k.stack|, Top(k).task, Publish(c, p, w);
    assert WorkerOk(c, p, w) && FrameOk(c, p, w, n - 1);
    if n > 1 {
      StackDescends(c, p, w, n - 2, n - 1);
      WithTopWork(g, Worker(k.stack[..n-1], 0, Running), Returned(k.stack[..n-1])[n-2]);
    }
    WriteDecreases(g, p, w, q.workers[w], t, q.tasks[t]);
  }
}
