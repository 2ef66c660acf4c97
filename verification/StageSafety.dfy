/** What every interleaving of a stage keeps: exclusive ownership of running tasks, single execution, and
  results equal to sequential evaluation. */
module StageSafety {
  import opened Wrappers
  import opened TaskGraph
  import opened StageMachine
  import opened Arith

  /** What the graph builder delivers for one stage: distinct roots of that stage, none of them a dependency of
    another task of the stage, because a root's status is not claimed before it runs. */
  ghost predicate ConfigOk<V>(c: Config<V>)
  {
    WellFormed(c.g) &&
    (forall j :: 0 <= j < |c.roots| ==> c.roots[j] < |c.g| && c.g[c.roots[j]].stage == c.stage) &&
    (forall i, j :: 0 <= i < j < |c.roots| ==> c.roots[i] != c.roots[j]) &&
    (forall t, i :: 0 <= t < |c.g| && 0 <= i < |c.g[t].deps| && c.g[t].stage == c.stage ==>
       c.g[t].deps[i] !in c.roots)
  }

  ghost predicate FromRoots<V>(c: Config<V>, t: nat)
    requires ConfigOk(c)
  {
    exists j :: 0 <= j < |c.roots| && Reaches(c.g, c.roots[j], t)
  }

  /** Frame `i` of worker `w`: it owns its task, all dependencies before `next` are finished, and it was called
    by the frame below for exactly the dependency that frame is at. */
  ghost predicate FrameOk<V>(c: Config<V>, p: Proc<V>, w: nat, i: nat)
    requires Shape(c, p) && w < |p.workers| && i < |p.workers[w].stack|
  {
    var k := p.workers[w];
    var f := k.stack[i];
    var x := p.tasks[f.task];
    c.g[f.task].stage == c.stage && x.owner == Some(w) && x.starts == 1 &&
    Prepared(c, p, f) &&
    (if i == 0 then
       x.status.NotStarted? &&
       |p.workers| <= k.idx < |c.roots| + |p.workers| && f.task == c.roots[k.idx - |p.workers|]
     else
       x.status.InProgress? && k.stack[i-1].phase.Calling? && Dep(c.g, k.stack[i-1]) == f.task) &&
    PhaseOk(c, p, w, f)
  }

  ghost predicate Prepared<V>(c: Config<V>, p: Proc<V>, f: Frame)
    requires Shape(c, p) && FrameShape(c.g, f)
  {
    forall j :: 0 <= j < f.next ==> p.tasks[c.g[f.task].deps[j]].status.Finished?
  }

  ghost predicate PhaseOk<V>(c: Config<V>, p: Proc<V>, w: nat, f: Frame)
    requires Shape(c, p) && FrameShape(c.g, f)
  {
    match f.phase
    case Preparing => true
    case Calling => true
    case Waiting => !p.tasks[Dep(c.g, f)].status.NotStarted?
    case Migrating => Migrates(c, p, w, Dep(c.g, f))
    case Fetched =>
      Migrates(c, p, w, Dep(c.g, f)) && p.tasks[Dep(c.g, f)].result == Some(Val(c.g, c.body, Dep(c.g, f)))
    case Written =>
      f.next == |c.g[f.task].deps| && Computable(c, p, f.task) &&
      p.tasks[f.task].result == Some(Val(c.g, c.body, f.task))
  }

  ghost predicate Migrates<V>(c: Config<V>, p: Proc<V>, w: nat, d: nat)
    requires Shape(c, p) && d < |c.g|
  {
    c.g[d].stage < c.stage && p.tasks[d].status.InProgress? && p.tasks[d].owner == Some(w) && p.tasks[d].starts == 0 &&
    !p.tasks[d].lost
  }

  ghost predicate WorkerOk<V>(c: Config<V>, p: Proc<V>, w: nat)
    requires Shape(c, p) && w < |p.workers|
  {
    var k := p.workers[w];
    k.idx % |p.workers| == w &&
    (k.mode.Ended? ==> k.stack == []) &&
    (k.mode == Ended(true) ==> |c.roots| <= k.idx) &&
    (forall i :: 0 <= i < |k.stack| ==> FrameOk(c, p, w, i))
  }

  /** Root `j` belongs to worker `j % W` alone, which has run it, is running it, threw in it, or has not come to it. */
  ghost predicate RootOk<V>(c: Config<V>, p: Proc<V>, j: nat)
    requires Shape(c, p) && j < |c.roots|
  {
    var x := p.tasks[c.roots[j]];
    if p.workers != [] && j < p.workers[j % |p.workers|].idx then
      var w := j % |p.workers|;
      var k := p.workers[w];
      x.owner == Some(w) && x.starts == 1 &&
      (x.status.Finished? ||
       (x.status.NotStarted? && j + |p.workers| == k.idx && (k.stack != [] || k.mode == Ended(false))))
    else
      x.owner.None? && x.status.NotStarted?
  }

  /** Worker `k` is inside `execute` of the claimed task `t`, or is fetching it. */
  ghost predicate Held(g: Graph, k: Worker, t: nat)
    requires WorkerShape(g, k)
  {
    (exists i :: 1 <= i < |k.stack| && k.stack[i].task == t) ||
    (k.mode.Running? && k.stack != [] && (Top(k).phase.Migrating? || Top(k).phase.Fetched?) && Dep(g, Top(k)) == t)
  }

  ghost predicate Threw(k: Worker)
  {
    k.mode.Throwing? || k.mode == Ended(false)
  }

  ghost predicate TaskOk<V>(c: Config<V>, p: Proc<V>, t: nat)
    requires Shape(c, p) && ConfigOk(c) && t < |c.g|
  {
    var x := p.tasks[t];
    x.starts <= 1 && (x.owner.None? ==> x.starts == 0) &&
    (x.status.NotStarted? && t !in c.roots ==> x.owner.None?) &&
    (c.g[t].stage > c.stage ==> x.owner.None?) &&
    (c.g[t].stage == c.stage && x.owner.Some? ==> x.starts == 1 && FromRoots(c, t)) &&
    (x.owner.None? ==> x.status.NotStarted?) &&
    (x.status.Finished? ==> x.result == Some(Val(c.g, c.body, t))) &&
    (x.status.Finished? && x.starts == 1 ==> DepsFinished(c, p, t) && Computable(c, p, t)) &&
    (x.lost ==> x.status.InProgress? && c.g[t].stage < c.stage) &&
    (x.lost || x.status.Failed? ==> x.owner.value < |p.workers| && Threw(p.workers[x.owner.value])) &&
    (x.status.InProgress? && !x.lost ==> x.owner.value < |p.workers| && Held(c.g, p.workers[x.owner.value], t))
  }

  ghost predicate DepsFinished<V>(c: Config<V>, p: Proc<V>, t: nat)
    requires Shape(c, p) && t < |c.g|
  {
    forall i :: 0 <= i < |c.g[t].deps| ==> p.tasks[c.g[t].deps[i]].status.Finished?
  }

  ghost predicate Inv<V>(c: Config<V>, p: Proc<V>)
  {
    Shape(c, p) && ConfigOk(c) &&
    (forall w :: 0 <= w < |p.workers| ==> WorkerOk(c, p, w)) &&
    (forall t :: 0 <= t < |c.g| ==> TaskOk(c, p, t)) &&
    (forall j :: 0 <= j < |c.roots| ==> RootOk(c, p, j))
  }

  /** The result of a task that this process has executed is its body applied to the results of its dependencies, in
    their order. */
  lemma ResultComposes<V>(c: Config<V>, p: Proc<V>, t: nat, inputs: seq<Option<V>>)
    requires Inv(c, p) && t < |c.g| && p.tasks[t].status.Finished? && p.tasks[t].starts == 1
    requires |inputs| == |c.g[t].deps| && forall i :: 0 <= i < |inputs| ==> inputs[i] == p.tasks[c.g[t].deps[i]].result
    ensures p.tasks[t].result == Some(c.body(t, inputs))
    ensures forall i :: 0 <= i < |inputs| ==> inputs[i].Some? && p.tasks[c.g[t].deps[i]].status.Finished?
  {
    assert TaskOk(c, p, t);
    forall i | 0 <= i < |inputs|
      ensures inputs[i] == Some(Val(c.g, c.body, c.g[t].deps[i])) && p.tasks[c.g[t].deps[i]].status.Finished?
    {
      assert TaskOk(c, p, c.g[t].deps[i]);
    }
    ValMeans(c.g, c.body, t, inputs);
  }

  /** What one step of `w` may do to a task. */
  ghost predicate TaskEvolves<V>(x: TaskState<V>, y: TaskState<V>, w: nat)
  {
    y == x ||
    (y.owner == Some(w) && (x.owner.None? || x.owner == Some(w)) && !x.status.Finished? && x.starts <= y.starts &&
     (x.status.NotStarted? || !y.status.NotStarted?))
  }

  /** `q` differs from `p` in worker `w` and at most task `d`. */
  ghost predicate Changes<V>(c: Config<V>, p: Proc<V>, q: Proc<V>, w: nat, d: nat)
    requires Shape(c, p)
  {
    w < |p.workers| == |q.workers| && |q.tasks| == |p.tasks| && WorkerShape(c.g, q.workers[w]) &&
    (Threw(p.workers[w]) ==> Threw(q.workers[w])) &&
    (forall v :: 0 <= v < |p.workers| && v != w ==> q.workers[v] == p.workers[v]) &&
    (forall t :: 0 <= t < |p.tasks| && t != d ==> q.tasks[t] == p.tasks[t]) &&
    (d < |p.tasks| ==> TaskEvolves(p.tasks[d], q.tasks[d], w))
  }

  lemma OthersKeep<V>(c: Config<V>, p: Proc<V>, q: Proc<V>, w: nat, d: nat, v: nat)
    requires Inv(c, p) && Changes(c, p, q, w, d) && v < |p.workers| && v != w
    ensures WorkerOk(c, q, v)
  {
    assert WorkerOk(c, p, v);
    forall i | 0 <= i < |p.workers[v].stack| ensures FrameOk(c, q, v, i) {
      assert FrameOk(c, p, v, i);
    }
  }

  /** It is enough to look at the stepping worker, the written task, the tasks `w` holds and the roots of its stride. */
  lemma ChangeKeeps<V>(c: Config<V>, p: Proc<V>, q: Proc<V>, w: nat, d: nat)
    requires Inv(c, p) && Changes(c, p, q, w, d) && WorkerOk(c, q, w) && (d < |c.g| ==> TaskOk(c, q, d))
    requires forall t :: Held(c.g, p.workers[w], t) && t != d ==> Held(c.g, q.workers[w], t)
    requires forall j :: 0 <= j < |c.roots| && (c.roots[j] == d || j % |p.workers| == w) ==> RootOk(c, q, j)
    ensures Inv(c, q)
  {
    forall v | 0 <= v < |q.workers| ensures WorkerOk(c, q, v) {
      if v != w { OthersKeep(c, p, q, w, d, v); }
    }
    forall t | 0 <= t < |c.g| ensures TaskOk(c, q, t) {
      if t != d { assert TaskOk(c, p, t); }
    }
    forall j | 0 <= j < |c.roots| ensures RootOk(c, q, j) {
      assert RootOk(c, p, j);
    }
  }

  lemma PickKeeps<V>(c: Config<V>, p: Proc<V>, w: nat)
    requires Inv(c, p) && w < |p.workers| && p.workers[w].mode.Running? && p.workers[w].stack == []
    ensures Inv(c, Pick(c, p, w))
  {
    var q := Pick(c, p, w);
    var k, n := p.workers[w], |p.workers|;
    assert WorkerOk(c, p, w);
    var d := if k.idx < |c.roots| then c.roots[k.idx] else |c.g|;
    if k.idx < |c.roots| {
      StrideStep(k.idx, n);
      assert RootOk(c, p, k.idx) && TaskOk(c, p, d);
      assert Reaches(c.g, d, d);
      assert FrameOk(c, q, w, 0);
    }
    forall j | 0 <= j < |c.roots| && (c.roots[j] == d || j % n == w) ensures RootOk(c, q, j) {
      assert RootOk(c, p, j);
      if k.idx < j < k.idx + n { StrideGap(k.idx, j, n); }
      if j < k.idx < j + n { StrideGap(j, k.idx, n); }
    }
    ChangeKeeps(c, p, q, w, d);
  }

  /** Frames below the top are untouched when only the top frame or its callee changes. */
  lemma LowerFramesKeep<V>(c: Config<V>, p: Proc<V>, q: Proc<V>, w: nat, d: nat, n: nat)
    requires Inv(c, p) && Changes(c, p, q, w, d) && n <= |p.workers[w].stack| && n <= |q.workers[w].stack|
    requires q.workers[w].stack[..n] == p.workers[w].stack[..n] && q.workers[w].idx == p.workers[w].idx
    requires forall i :: 0 <= i < n ==> p.workers[w].stack[i].task != d
    requires forall i :: 0 <= i < n ==> p.workers[w].stack[i].phase.Calling?
    ensures forall i :: 0 <= i < n ==> FrameOk(c, q, w, i)
  {
    assert WorkerOk(c, p, w);
    var s, s' := p.workers[w].stack, q.workers[w].stack;
    forall i | 0 <= i < n ensures FrameOk(c, q, w, i) {
      assert FrameOk(c, p, w, i);
      assert s'[i] == s'[..n][i] == s[..n][i];
      assert i > 0 ==> s'[i-1] == s'[..n][i-1] == s[..n][i-1];
    }
  }

  /** A stack descends the graph: each frame's task is a dependency of the task below it. */
  lemma {:induction false} StackDescends<V>(c: Config<V>, p: Proc<V>, w: nat, i: nat, j: nat)
    requires Inv(c, p) && w < |p.workers| && i <= j < |p.workers[w].stack|
    ensures p.workers[w].stack[j].task <= p.workers[w].stack[i].task
    ensures i < j ==> p.workers[w].stack[j].task < p.workers[w].stack[i].task && p.workers[w].stack[i].phase.Calling?
    decreases j - i
  {
    assert WorkerOk(c, p, w);
    if i < j {
      assert FrameOk(c, p, w, i + 1);
      StackDescends(c, p, w, i + 1, j);
    }
  }

  /** A step that stays in the top frame's call: its frame, the worker's mode and one task may change. */
  lemma TopKeeps<V>(c: Config<V>, p: Proc<V>, q: Proc<V>, w: nat, d: nat)
    requires Inv(c, p) && Changes(c, p, q, w, d)
    requires var k, k' := p.workers[w], q.workers[w];
      k.stack != [] && |k'.stack| == |k.stack| && k'.idx == k.idx && !k'.mode.Ended? &&
      k'.stack[..|k.stack| - 1] == k.stack[..|k.stack| - 1] &&
      FrameOk(c, q, w, |k.stack| - 1) && Top(k').task == Top(k).task &&
      (d < |c.g| ==> d <= Top(k).task && TaskOk(c, q, d)) &&
      (d < |c.g| && d in c.roots ==>
        q.tasks[d].status == p.tasks[d].status && q.tasks[d].owner == p.tasks[d].owner &&
        q.tasks[d].starts == p.tasks[d].starts) &&
      (k.mode.Running? && (Top(k).phase.Migrating? || Top(k).phase.Fetched?) ==>
        d == Dep(c.g, Top(k)))
    ensures Inv(c, q)
  {
    var k, k' := p.workers[w], q.workers[w];
    var n := |k.stack|;
    assert WorkerOk(c, p, w);
    forall i | 0 <= i < n - 1 ensures k.stack[i].task != d && k.stack[i].phase.Calling? {
      StackDescends(c, p, w, i, n - 1);
      assert FrameOk(c, p, w, i);
    }
    LowerFramesKeep(c, p, q, w, d, n - 1);
    forall t | Held(c.g, k, t) && t != d ensures Held(c.g, k', t) {
      var i :| 1 <= i < n && k.stack[i].task == t;
      assert i < n - 1 ==> k'.stack[i] == k'.stack[..n-1][i] == k.stack[..n-1][i];
    }
    forall j | 0 <= j < |c.roots| && (c.roots[j] == d || j % |p.workers| == w) ensures RootOk(c, q, j) {
      assert RootOk(c, p, j);
    }
    ChangeKeeps(c, p, q, w, d);
  }

  lemma ClaimWithoutCallKeeps<V>(c: Config<V>, p: Proc<V>, w: nat)
    requires Inv(c, p) && w < |p.workers| && p.workers[w].mode.Running? && p.workers[w].stack != []
    requires Top(p.workers[w]).phase.Preparing? && Top(p.workers[w]).next < |c.g[Top(p.workers[w]).task].deps|
    requires var d := Dep(c.g, Top(p.workers[w])); p.tasks[d].status.NotStarted? ==> c.g[d].stage != c.stage
    ensures Inv(c, Claim(c, p, w))
  {
    var q := Claim(c, p, w);
    var f := Top(p.workers[w]);
    var d := Dep(c.g, f);
    assert WorkerOk(c, p, w) && FrameOk(c, p, w, |p.workers[w].stack| - 1) && TaskOk(c, p, d);
    TopKeeps(c, p, q, w, if p.tasks[d].status.NotStarted? then d else |c.g|);
  }

  lemma ObserveKeeps<V>(c: Config<V>, p: Proc<V>, w: nat)
    requires Inv(c, p) && CanStep(c, p, w) && p.workers[w].mode.Running? && p.workers[w].stack != []
    requires Top(p.workers[w]).phase.Waiting?
    ensures Inv(c, Observe(c, p, w))
  {
    var f := Top(p.workers[w]);
    assert WorkerOk(c, p, w) && FrameOk(c, p, w, |p.workers[w].stack| - 1) && TaskOk(c, p, Dep(c.g, f));
    TopKeeps(c, p, Observe(c, p, w), w, |c.g|);
  }

  lemma FetchKeeps<V>(c: Config<V>, p: Proc<V>, w: nat, v: Option<V>)
    requires Inv(c, p) && w < |p.workers| && p.workers[w].mode.Running? && p.workers[w].stack != []
    requires Top(p.workers[w]).phase.Migrating?
    requires v.Some? ==> v.value == Val(c.g, c.body, Dep(c.g, Top(p.workers[w])))
    ensures Inv(c, Fetch(c, p, w, v))
  {
    var f := Top(p.workers[w]);
    var d := Dep(c.g, f);
    assert WorkerOk(c, p, w) && FrameOk(c, p, w, |p.workers[w].stack| - 1) && TaskOk(c, p, d);
    TopKeeps(c, p, Fetch(c, p, w, v), w, d);
  }

  lemma AcceptKeeps<V>(c: Config<V>, p: Proc<V>, w: nat)
    requires Inv(c, p) && w < |p.workers| && p.workers[w].mode.Running? && p.workers[w].stack != []
    requires Top(p.workers[w]).phase.Fetched?
    ensures Inv(c, Accept(c, p, w))
  {
    var f := Top(p.workers[w]);
    var d := Dep(c.g, f);
    assert WorkerOk(c, p, w) && FrameOk(c, p, w, |p.workers[w].stack| - 1) && TaskOk(c, p, d);
    TopKeeps(c, p, Accept(c, p, w), w, d);
  }

  /** The inputs a body reads are the sequential values, whatever the interleaving was. */
  lemma InputsAreValues<V>(c: Config<V>, p: Proc<V>, t: nat)
    requires Inv(c, p) && t < |c.g| && DepsFinished(c, p, t)
    ensures c.body(t, Inputs(c, p, t)) == Val(c.g, c.body, t)
  {
    var ds := c.g[t].deps;
    forall i | 0 <= i < |ds| ensures Result(p, ds[i]) == Some(Val(c.g, c.body, ds[i])) {
      assert TaskOk(c, p, ds[i]);
    }
    assert Inputs(c, p, t) == DepVals(c.g, c.body, t);
  }

  lemma ComputeKeeps<V>(c: Config<V>, p: Proc<V>, w: nat, ok: bool)
    requires Inv(c, p) && w < |p.workers| && p.workers[w].mode.Running? && p.workers[w].stack != []
    requires Top(p.workers[w]).phase.Preparing? && Top(p.workers[w]).next == |c.g[Top(p.workers[w]).task].deps|
    ensures Inv(c, Compute(c, p, w, ok))
  {
    var t := Top(p.workers[w]).task;
    assert WorkerOk(c, p, w) && FrameOk(c, p, w, |p.workers[w].stack| - 1) && TaskOk(c, p, t);
    InputsAreValues(c, p, t);
    TopKeeps(c, p, Compute(c, p, w, ok), w, if ok && Computable(c, p, t) then t else |c.g|);
  }

  ghost predicate Calls<V>(c: Config<V>, p: Proc<V>, w: nat)
    requires Shape(c, p)
  {
    w < |p.workers| && p.workers[w].mode.Running? && p.workers[w].stack != [] &&
    var f := Top(p.workers[w]);
    f.phase.Preparing? && f.next < |c.g[f.task].deps| &&
    p.tasks[Dep(c.g, f)].status.NotStarted? && c.g[Dep(c.g, f)].stage == c.stage
  }

  lemma ClaimCallChanges<V>(c: Config<V>, p: Proc<V>, w: nat)
    requires Inv(c, p) && Calls(c, p, w)
    ensures var q, d := Claim(c, p, w), Dep(c.g, Top(p.workers[w]));
      Shape(c, q) && Changes(c, p, q, w, d) && d !in c.roots
  {
    var k := p.workers[w];
    assert WorkerOk(c, p, w) && FrameOk(c, p, w, |k.stack| - 1) && TaskOk(c, p, Dep(c.g, Top(k)));
  }

  lemma ClaimCallTask<V>(c: Config<V>, p: Proc<V>, w: nat)
    requires Inv(c, p) && Calls(c, p, w) && Shape(c, Claim(c, p, w))
    ensures TaskOk(c, Claim(c, p, w), Dep(c.g, Top(p.workers[w])))
  {
    var q := Claim(c, p, w);
    var k := p.workers[w];
    var n, f := |k.stack|, Top(k);
    assert WorkerOk(c, p, w) && FrameOk(c, p, w, n - 1) && TaskOk(c, p, Dep(c.g, f)) && TaskOk(c, p, f.task);
    var j :| 0 <= j < |c.roots| && Reaches(c.g, c.roots[j], f.task);
    ReachesStep(c.g, c.roots[j], f.task, f.next);
    assert q.workers[w].stack[n].task == Dep(c.g, f);
  }

  lemma ClaimCallLower<V>(c: Config<V>, p: Proc<V>, w: nat)
    requires Inv(c, p) && Calls(c, p, w) && Shape(c, Claim(c, p, w))
    requires Changes(c, p, Claim(c, p, w), w, Dep(c.g, Top(p.workers[w])))
    ensures |Claim(c, p, w).workers[w].stack| == |p.workers[w].stack| + 1
    ensures forall i :: 0 <= i < |p.workers[w].stack| - 1 ==> FrameOk(c, Claim(c, p, w), w, i)
  {
    var q := Claim(c, p, w);
    var k, k' := p.workers[w], q.workers[w];
    var n, d := |k.stack|, Dep(c.g, Top(k));
    assert WorkerOk(c, p, w) && FrameOk(c, p, w, n - 1);
    assert k'.stack[..n-1] == k.stack[..n-1];
    forall i | 0 <= i < n - 1 ensures k.stack[i].task != d && k.stack[i].phase.Calling? {
      StackDescends(c, p, w, i, n - 1);
    }
    LowerFramesKeep(c, p, q, w, d, n - 1);
  }

  lemma ClaimCallFrames<V>(c: Config<V>, p: Proc<V>, w: nat)
    requires Inv(c, p) && Calls(c, p, w) && Shape(c, Claim(c, p, w))
    requires Changes(c, p, Claim(c, p, w), w, Dep(c.g, Top(p.workers[w])))
    ensures WorkerOk(c, Claim(c, p, w), w)
  {
    var q, n := Claim(c, p, w), |p.workers[w].stack|;
    ClaimCallLower(c, p, w);
    assert WorkerOk(c, p, w) && FrameOk(c, p, w, n - 1) && TaskOk(c, p, Dep(c.g, Top(p.workers[w])));
    assert FrameOk(c, q, w, n - 1) && FrameOk(c, q, w, n);
  }

  lemma ClaimCallKeeps<V>(c: Config<V>, p: Proc<V>, w: nat)
    requires Inv(c, p) && Calls(c, p, w)
    ensures Inv(c, Claim(c, p, w))
  {
    var q := Claim(c, p, w);
    var k, k', d := p.workers[w], q.workers[w], Dep(c.g, Top(p.workers[w]));
    ClaimCallChanges(c, p, w);
    ClaimCallTask(c, p, w);
    ClaimCallFrames(c, p, w);
    forall t | Held(c.g, k, t) && t != d ensures Held(c.g, k', t) {
      var i :| 1 <= i < |k.stack| && k.stack[i].task == t;
      assert k'.stack[i].task == t;
    }
    StrideRootsKeep(c, p, q, w, d);
    ChangeKeeps(c, p, q, w, d);
  }

  lemma StrideRootsKeep<V>(c: Config<V>, p: Proc<V>, q: Proc<V>, w: nat, d: nat)
    requires Inv(c, p) && Changes(c, p, q, w, d) && d !in c.roots
    requires p.workers[w].stack != [] && q.workers[w].stack != [] && q.workers[w].idx == p.workers[w].idx
    ensures forall j :: 0 <= j < |c.roots| && (c.roots[j] == d || j % |p.workers| == w) ==> RootOk(c, q, j)
  {
    forall j | 0 <= j < |c.roots| && (c.roots[j] == d || j % |p.workers| == w) ensures RootOk(c, q, j) {
      assert RootOk(c, p, j);
    }
  }

  /** Leaving the call of a claimed task, by returning or by unwinding. */
  lemma PopKeeps<V>(c: Config<V>, p: Proc<V>, q: Proc<V>, w: nat)
    requires Inv(c, p) && w < |p.workers| && |p.workers[w].stack| > 1
    requires p.workers[w].mode.Throwing? || Top(p.workers[w]).phase.Written?
    requires var k, t := p.workers[w], Top(p.workers[w]).task;
      Changes(c, p, q, w, t) && TaskOk(c, q, t) && q.workers[w].idx == k.idx && !q.workers[w].mode.Ended?
    requires var k, k', n := p.workers[w], q.workers[w], |p.workers[w].stack|;
      |k'.stack| == n - 1 && k'.stack[..n-2] == k.stack[..n-2] && k'.stack[n-2].task == k.stack[n-2].task &&
      (k'.stack[n-2].phase == Preparing || k'.stack[n-2].phase == Calling) &&
      Prepared(c, q, k'.stack[n-2])
    ensures Inv(c, q)
  {
    var k, k' := p.workers[w], q.workers[w];
    var n, t := |k.stack|, Top(k).task;
    assert WorkerOk(c, p, w) && FrameOk(c, p, w, n - 1) && FrameOk(c, p, w, n - 2);
    forall i | 0 <= i < n - 1 ensures k.stack[i].task > t && k.stack[i].phase.Calling? {
      StackDescends(c, p, w, i, n - 1);
    }
    LowerFramesKeep(c, p, q, w, t, n - 2);
    assert n > 2 ==> k'.stack[n-3] == k'.stack[..n-2][n-3] == k.stack[..n-2][n-3];
    assert FrameOk(c, q, w, n - 2);
    forall u | Held(c.g, k, u) && u != t ensures Held(c.g, k', u) {
      var i :| 1 <= i < n && k.stack[i].task == u;
      assert i < n - 2 ==> k'.stack[i] == k'.stack[..n-2][i] == k.stack[..n-2][i];
    }
    StrideRootsKeep(c, p, q, w, t);
    ChangeKeeps(c, p, q, w, t);
  }

  /** Leaving the call of a root task ends its turn or the worker. */
  lemma PopRootKeeps<V>(c: Config<V>, p: Proc<V>, q: Proc<V>, w: nat)
    requires Inv(c, p) && w < |p.workers| && |p.workers[w].stack| == 1
    requires p.workers[w].mode.Throwing? || Top(p.workers[w]).phase.Written?
    requires var k, t := p.workers[w], Top(p.workers[w]).task;
      Changes(c, p, q, w, t) && TaskOk(c, q, t) && q.workers[w].idx == k.idx && q.workers[w].stack == [] &&
      ((q.workers[w].mode == Running && q.tasks[t] == p.tasks[t].(status := Finished)) ||
       (q.workers[w].mode == Ended(false) && q.tasks[t] == p.tasks[t]))
    ensures Inv(c, q)
  {
    var t := Top(p.workers[w]).task;
    assert WorkerOk(c, p, w) && FrameOk(c, p, w, 0);
    forall j | 0 <= j < |c.roots| && (c.roots[j] == t || j % |p.workers| == w) ensures RootOk(c, q, j) {
      assert RootOk(c, p, j);
    }
    ChangeKeeps(c, p, q, w, t);
  }

  ghost predicate Publishes<V>(c: Config<V>, p: Proc<V>, w: nat)
    requires Shape(c, p)
  {
    w < |p.workers| && p.workers[w].mode.Running? && p.workers[w].stack != [] && Top(p.workers[w]).phase.Written?
  }

  lemma PublishTask<V>(c: Config<V>, p: Proc<V>, w: nat)
    requires Inv(c, p) && Publishes(c, p, w)
    ensures var q, t := Publish(c, p, w), Top(p.workers[w]).task;
      Shape(c, q) && Changes(c, p, q, w, t) && TaskOk(c, q, t)
  {
    var k := p.workers[w];
    var n, t := |k.stack|, Top(k).task;
    assert WorkerOk(c, p, w) && FrameOk(c, p, w, n - 1) && TaskOk(c, p, t);
    if n > 1 { assert FrameOk(c, p, w, n - 2); }
  }

  lemma PublishKeeps<V>(c: Config<V>, p: Proc<V>, w: nat)
    requires Inv(c, p) && Publishes(c, p, w)
    ensures Inv(c, Publish(c, p, w))
  {
    var q := Publish(c, p, w);
    PublishTask(c, p, w);
    if |p.workers[w].stack| == 1 {
      PopRootKeeps(c, p, q, w);
    } else {
      PublishCallee(c, p, w);
      PopKeeps(c, p, q, w);
    }
  }

  lemma PublishCallee<V>(c: Config<V>, p: Proc<V>, w: nat)
    requires Inv(c, p) && Publishes(c, p, w) && |p.workers[w].stack| > 1 && Shape(c, Publish(c, p, w))
    ensures var k, k', n := p.workers[w], Publish(c, p, w).workers[w], |p.workers[w].stack|;
      |k'.stack| == n - 1 && k'.stack[..n-2] == k.stack[..n-2] && k'.stack[n-2].task == k.stack[n-2].task &&
      k'.stack[n-2].phase == Preparing && Prepared(c, Publish(c, p, w), k'.stack[n-2])
  {
    var k, n := p.workers[w], |p.workers[w].stack|;
    assert WorkerOk(c, p, w) && FrameOk(c, p, w, n - 1) && FrameOk(c, p, w, n - 2);
    var k' := Publish(c, p, w).workers[w];
    assert k'.stack == k.stack[..n-2] + [Frame(k.stack[n-2].task, k.stack[n-2].next + 1, Preparing)];
  }

  lemma UnwindKeeps<V>(c: Config<V>, p: Proc<V>, w: nat)
    requires Inv(c, p) && w < |p.workers| && p.workers[w].mode.Throwing?
    ensures Inv(c, Unwind(c, p, w))
  {
    var k := p.workers[w];
    var n := |k.stack|;
    assert WorkerOk(c, p, w) && FrameOk(c, p, w, n - 1) && TaskOk(c, p, Top(k).task);
    if n == 1 {
      PopRootKeeps(c, p, Unwind(c, p, w), w);
    } else {
      assert FrameOk(c, p, w, n - 2);
      PopKeeps(c, p, Unwind(c, p, w), w);
    }
  }

  /** Every step of every worker keeps the invariant, provided a fetch brings back the sequential value. */
  lemma StepKeeps<V>(c: Config<V>, p: Proc<V>, w: nat, ch: Choice<V>)
    requires Inv(c, p) && CanStep(c, p, w) && FetchOk(c, p, w, ch)
    ensures Inv(c, Step(c, p, w, ch))
  {
    var k := p.workers[w];
    if k.mode.Throwing? {
      UnwindKeeps(c, p, w);
    } else if k.stack == [] {
      PickKeeps(c, p, w);
    } else {
      match Top(k).phase
      case Preparing =>
        assert WorkerOk(c, p, w) && FrameOk(c, p, w, |k.stack| - 1);
        if Top(k).next == |c.g[Top(k).task].deps| {
          ComputeKeeps(c, p, w, ch.ok);
        } else if p.tasks[Dep(c.g, Top(k))].status.NotStarted? && c.g[Dep(c.g, Top(k))].stage == c.stage {
          ClaimCallKeeps(c, p, w);
        } else {
          ClaimWithoutCallKeeps(c, p, w);
        }
      case Waiting => ObserveKeeps(c, p, w);
      case Migrating => FetchKeeps(c, p, w, ch.fetched);
      case Fetched => AcceptKeeps(c, p, w);
      case Written => PublishKeeps(c, p, w);
      case Calling =>
    }
  }

  ghost predicate FetchOk<V>(c: Config<V>, p: Proc<V>, w: nat, ch: Choice<V>)
    requires Shape(c, p) && w < |p.workers|
  {
    var k := p.workers[w];
    k.stack != [] && Top(k).phase.Migrating? && ch.fetched.Some? ==>
      ch.fetched.value == Val(c.g, c.body, Dep(c.g, Top(k)))
  }

  /** A finished task is never written again. */
  lemma FinishedStays<V>(c: Config<V>, p: Proc<V>, w: nat, ch: Choice<V>, t: nat)
    requires Inv(c, p) && CanStep(c, p, w) && t < |c.g| && p.tasks[t].status.Finished?
    ensures |Step(c, p, w, ch).tasks| == |c.g| && Step(c, p, w, ch).tasks[t] == p.tasks[t]
  {
    var k := p.workers[w];
    assert WorkerOk(c, p, w);
    if k.stack != [] {
      assert FrameOk(c, p, w, |k.stack| - 1);
    } else if k.idx < |c.roots| {
      assert RootOk(c, p, k.idx);
    }
  }
}
