/** What the graph builder has built so far, and how adding tasks, closing a stage and visiting a child change it. */
module BuilderState {
  import opened TaskGraph
  import opened Pipelines

  /** The tasks, the current stage, the roots of the closed stages, and the pipeline ids of each task. */
  datatype State = State(g: Graph, stage: nat, roots: seq<seq<nat>>, ids: seq<set<nat>>)

  ghost predicate RootsOk(g: Graph, k: nat, rs: seq<nat>)
  {
    (forall j :: 0 <= j < |rs| ==> rs[j] < |g| && g[rs[j]].stage == k) &&
    (forall i, j :: 0 <= i < j < |rs| ==> rs[i] != rs[j]) &&
    (forall t, i :: 0 <= t < |g| && 0 <= i < |g[t].deps| && g[t].stage == k ==> g[t].deps[i] !in rs)
  }

  ghost predicate Well(s: State)
  {
    WellFormed(s.g) && |s.roots| == s.stage &&
    (forall t :: 0 <= t < |s.g| ==> s.g[t].stage <= s.stage) &&
    (forall k :: 0 <= k < s.stage ==> RootsOk(s.g, k, s.roots[k]))
  }

  /** `s` comes from `s0`; everything new refers to new tasks only. */
  ghost predicate Extends(s0: State, s: State)
  {
    s0.g <= s.g && s0.stage <= s.stage && s0.roots <= s.roots && |s.roots| == s.stage &&
    (forall t :: |s0.g| <= t < |s.g| ==> s0.stage <= s.g[t].stage) &&
    (forall t, i :: |s0.g| <= t < |s.g| && 0 <= i < |s.g[t].deps| ==> |s0.g| <= s.g[t].deps[i]) &&
    (forall k, j :: s0.stage <= k < s.stage && 0 <= j < |s.roots[k]| ==> |s0.g| <= s.roots[k][j])
  }

  ghost predicate UsedNow(s: State, t: nat, i: nat)
    requires WellFormed(s.g) && t < |s.g| && i < |s.g[t].deps|
  {
    s.g[t].stage == s.stage && s.g[s.g[t].deps[i]].stage == s.stage
  }

  /** Tasks handed to a parent: all different, and not used in the current stage yet. */
  ghost predicate HeldOk(s: State, n0: nat, held: seq<nat>)
    requires WellFormed(s.g)
  {
    (forall k :: 0 <= k < |held| ==> n0 <= held[k] < |s.g|) &&
    (forall i, j :: 0 <= i < j < |held| ==> held[i] != held[j]) &&
    (forall t, i :: 0 <= t < |s.g| && 0 <= i < |s.g[t].deps| && UsedNow(s, t, i) ==> s.g[t].deps[i] !in held)
  }

  /** The ids of a task are the positions of the roots of its stage that reach it. */
  ghost predicate Numbered(s: State)
    requires WellFormed(s.g)
  {
    |s.ids| == |s.g| && forall u, i :: 0 <= u < |s.g| ==> (i in s.ids[u] <==> ReachedByRoot(s.g, s.roots, u, i))
  }

  /** Task `u` will be executed: a root of its closed stage reaches it, or a task still held does. */
  ghost predicate Attached(s: State, held: seq<nat>, u: nat)
    requires Well(s) && u < |s.g|
  {
    if s.g[u].stage < s.stage then ReachedFrom(s.g, s.roots[s.g[u].stage], u) else ReachedFrom(s.g, held, u)
  }

  /** Task `u` belongs to a closed stage and no root of the stage reaches it. */
  ghost predicate Lost(s: State, u: nat)
    requires Well(s) && u < |s.g|
  {
    s.g[u].stage < s.stage && !ReachedFrom(s.g, s.roots[s.g[u].stage], u)
  }

  ghost predicate IsRoot(s: State, x: nat)
    requires Well(s) && x < |s.g|
  {
    s.g[x].stage < s.stage && x in s.roots[s.g[x].stage]
  }

  /** What is held from closed stages are roots of these. */
  ghost predicate HeldRooted(s: State, held: seq<nat>)
    requires Well(s)
  {
    forall k :: 0 <= k < |held| && held[k] < |s.g| && s.g[held[k]].stage < s.stage ==> IsRoot(s, held[k])
  }

  /** Dependencies of the new tasks on earlier stages are roots of these. */
  ghost predicate CrossRooted(s: State, n0: nat)
    requires Well(s)
  {
    forall t, i :: n0 <= t < |s.g| && 0 <= i < |s.g[t].deps| && Crosses(s.g, t, i) ==> IsRoot(s, s.g[t].deps[i])
  }

  ghost predicate Crosses(g: Graph, t: nat, i: nat)
    requires WellFormed(g) && t < |g| && i < |g[t].deps|
  {
    g[g[t].deps[i]].stage < g[t].stage
  }

  ghost predicate Rooted(s: State, n0: nat, held: seq<nat>)
    requires Well(s)
  {
    HeldRooted(s, held) && CrossRooted(s, n0)
  }

  /** Task `t` will be executed but its dependency will not have been. */
  ghost predicate Starves(s: State, held: seq<nat>, t: nat, i: nat)
    requires Well(s) && t < |s.g| && i < |s.g[t].deps|
  {
    Attached(s, held, t) && Lost(s, s.g[t].deps[i])
  }

  /** A lost task is still held, or a task that will be executed needs one. */
  ghost predicate Starved(s: State, n0: nat, held: seq<nat>)
    requires Well(s)
  {
    (exists k :: 0 <= k < |held| && held[k] < |s.g| && Lost(s, held[k])) ||
    (exists t, i :: n0 <= t < |s.g| && 0 <= i < |s.g[t].deps| && Starves(s, held, t, i))
  }

  /** What is known about a visit: whether it has lost no task, and whether it depends on roots of earlier stages
    only. */
  datatype Claims = Claims(safe: bool, rooted: bool)

  /** The state of a visit that began at `s0` and holds `held`. */
  ghost predicate Visiting(s0: State, s: State, held: seq<nat>, c: Claims)
  {
    Well(s) && Numbered(s) && Extends(s0, s) && HeldOk(s, |s0.g|, held) && (c.rooted <==> Rooted(s, |s0.g|, held)) &&
    if c.safe then forall u :: |s0.g| <= u < |s.g| ==> Attached(s, held, u) else Starved(s, |s0.g|, held)
  }

  // ---------- Reachability is not affected by later tasks ----------

  lemma {:induction false} ReachesGrow(g: Graph, g': Graph, a: nat, b: nat)
    requires WellFormed(g) && WellFormed(g') && g <= g' && a < |g|
    ensures Reaches(g', a, b) <==> Reaches(g, a, b)
    decreases a
  {
    assert g'[a] == g[a];
    forall i | 0 <= i < |g[a].deps| ensures Reaches(g', g[a].deps[i], b) <==> Reaches(g, g[a].deps[i], b) {
      ReachesGrow(g, g', g[a].deps[i], b);
    }
  }

  lemma ReachedFromGrow(g: Graph, g': Graph, xs: seq<nat>, u: nat)
    requires WellFormed(g) && WellFormed(g') && g <= g' && forall k :: 0 <= k < |xs| ==> xs[k] < |g|
    ensures ReachedFrom(g', xs, u) <==> ReachedFrom(g, xs, u)
  {
    forall k | 0 <= k < |xs| ensures Reaches(g', xs[k], u) <==> Reaches(g, xs[k], u) {
      ReachesGrow(g, g', xs[k], u);
    }
  }

  lemma ReachedFromMore(g: Graph, xs: seq<nat>, ys: seq<nat>, u: nat)
    requires WellFormed(g) && ReachedFrom(g, xs, u) && forall k :: 0 <= k < |xs| ==> xs[k] in ys
    ensures ReachedFrom(g, ys, u)
  {
  }

  /** Nothing that was there before is reached from something new. */
  lemma {:induction false} NewReachesNew(s0: State, s: State, a: nat, b: nat)
    requires Well(s) && Extends(s0, s) && |s0.g| <= a < |s.g| && Reaches(s.g, a, b)
    ensures |s0.g| <= b
    decreases a
  {
    if a != b {
      var i :| 0 <= i < |s.g[a].deps| && s.g[s.g[a].deps[i]].stage == s.g[a].stage && Reaches(s.g, s.g[a].deps[i], b);
      NewReachesNew(s0, s, s.g[a].deps[i], b);
    }
  }

  /** A lost task stays lost, and one of a closed stage that is attached stays attached. */
  lemma ClosedStays(s: State, s': State, u: nat)
    requires Well(s) && Well(s') && Extends(s, s') && u < |s.g| && s.g[u].stage < s.stage
    ensures Lost(s', u) <==> Lost(s, u)
  {
    var k := s.g[u].stage;
    assert s'.g[u] == s.g[u] && s'.roots[k] == s.roots[k];
    assert RootsOk(s.g, k, s.roots[k]);
    ReachedFromGrow(s.g, s'.g, s.roots[k], u);
  }

  // ---------- Adding tasks ----------

  function WithTasks(s: State, deps: seq<seq<nat>>, kind: TaskKind := Ordinary): State
  {
    s.(g := s.g + seq(|deps|, i requires 0 <= i < |deps| => Task(s.stage, deps[i], kind)),
       ids := s.ids + seq(|deps|, _ => {}))
  }

  function NewIds(s: State, deps: seq<seq<nat>>): seq<nat>
  {
    seq(|deps|, i requires 0 <= i < |deps| => |s.g| + i)
  }

  ghost predicate DepsIn(deps: seq<seq<nat>>, lo: nat, hi: nat)
  {
    forall i, j :: 0 <= i < |deps| && 0 <= j < |deps[i]| ==> lo <= deps[i][j] < hi
  }

  ghost predicate Consumed(deps: seq<seq<nat>>, x: nat)
  {
    exists i :: 0 <= i < |deps| && x in deps[i]
  }

  /** New tasks with these dependencies use held tasks, and perhaps `extra` ones that are not held; every held task is
    used or kept. */
  ghost predicate Takes(held: seq<nat>, keep: seq<nat>, extra: seq<nat>, deps: seq<seq<nat>>)
  {
    (forall k :: 0 <= k < |keep| ==> keep[k] in held && !Consumed(deps, keep[k])) &&
    (forall i, j :: 0 <= i < j < |keep| ==> keep[i] != keep[j]) &&
    (forall k :: 0 <= k < |held| ==> held[k] in keep || Consumed(deps, held[k])) &&
    (forall k :: 0 <= k < |extra| ==> Consumed(deps, extra[k])) &&
    (forall i, j :: 0 <= i < |deps| && 0 <= j < |deps[i]| ==> deps[i][j] in held || deps[i][j] in extra)
  }

  lemma AddedWell(s: State, deps: seq<seq<nat>>, kind: TaskKind := Ordinary)
    requires Well(s) && DepsIn(deps, 0, |s.g|)
    ensures Well(WithTasks(s, deps, kind))
  {
  }

  lemma AddedExtends(s0: State, s: State, deps: seq<seq<nat>>, kind: TaskKind)
    requires Well(s) && Extends(s0, s) && DepsIn(deps, |s0.g|, |s.g|)
    ensures Extends(s0, WithTasks(s, deps, kind))
  {
  }

  lemma AddedHeld(s0: State, s: State, held: seq<nat>, keep: seq<nat>, deps: seq<seq<nat>>, kind: TaskKind)
    requires Well(s) && HeldOk(s, |s0.g|, held) && DepsIn(deps, 0, |s.g|) && |s0.g| <= |s.g|
    requires (forall k :: 0 <= k < |keep| ==> keep[k] in held && !Consumed(deps, keep[k])) &&
             forall i, j :: 0 <= i < j < |keep| ==> keep[i] != keep[j]
    ensures HeldOk(WithTasks(s, deps, kind), |s0.g|, keep + NewIds(s, deps))
  {
  }

  lemma AddedAttached(s: State, held: seq<nat>, keep: seq<nat>, deps: seq<seq<nat>>, u: nat, kind: TaskKind)
    requires Well(s) && DepsIn(deps, 0, |s.g|) && u < |s.g| && Attached(s, held, u)
    requires forall k :: 0 <= k < |held| ==> held[k] in keep || Consumed(deps, held[k])
    ensures Well(WithTasks(s, deps, kind)) && Attached(WithTasks(s, deps, kind), keep + NewIds(s, deps), u)
  {
    AddedWell(s, deps, kind);
    var s', held' := WithTasks(s, deps, kind), keep + NewIds(s, deps);
    assert s'.g[u] == s.g[u];
    if s.g[u].stage < s.stage {
      assert RootsOk(s.g, s.g[u].stage, s.roots[s.g[u].stage]);
      ReachedFromGrow(s.g, s'.g, s.roots[s.g[u].stage], u);
    } else {
      var k :| 0 <= k < |held| && held[k] < |s.g| && Reaches(s.g, held[k], u);
      var x := held[k];
      ReachesGrow(s.g, s'.g, x, u);
      ReachesStays(s.g, x, u);
      if x in keep {
        var j :| 0 <= j < |keep| && keep[j] == x;
        assert held'[j] == x;
      } else {
        var i :| 0 <= i < |deps| && x in deps[i];
        var j :| 0 <= j < |deps[i]| && deps[i][j] == x;
        var t := |s.g| + i;
        assert s'.g[t] == Task(s.stage, deps[i], kind) && s'.g[x] == s.g[x];
        assert Reaches(s'.g, t, u);
        assert held'[|keep| + i] == t;
      }
    }
  }

  /** Nothing that was or was not a root changes that while its stage stays as it is. */
  lemma RootsStay(s: State, s': State, x: nat)
    requires Well(s) && Well(s') && s.g <= s'.g && s.roots <= s'.roots && x < |s.g| && s.g[x].stage < s.stage
    ensures IsRoot(s', x) <==> IsRoot(s, x)
  {
    assert s'.g[x] == s.g[x];
  }

  lemma TakenInside(s0: State, s: State, held: seq<nat>, keep: seq<nat>, extra: seq<nat>,
                    deps: seq<seq<nat>>)
    requires Well(s) && HeldOk(s, |s0.g|, held) && Takes(held, keep, extra, deps)
    requires forall k :: 0 <= k < |extra| ==> |s0.g| <= extra[k] < |s.g|
    ensures DepsIn(deps, |s0.g|, |s.g|)
  {
  }

  /** A dependency on an unrooted task of a closed stage. */
  lemma ConsumedCrosses(s: State, n0: nat, deps: seq<seq<nat>>, x: nat, kind: TaskKind)
    requires Well(s) && DepsIn(deps, 0, |s.g|) && n0 <= |s.g|
    requires Consumed(deps, x) && x < |s.g| && s.g[x].stage < s.stage
    requires Well(WithTasks(s, deps, kind)) && CrossRooted(WithTasks(s, deps, kind), n0)
    ensures IsRoot(s, x)
  {
    var s' := WithTasks(s, deps, kind);
    var i :| 0 <= i < |deps| && x in deps[i];
    var j :| 0 <= j < |deps[i]| && deps[i][j] == x;
    var t := |s.g| + i;
    assert s'.g[t] == Task(s.stage, deps[i], kind) && s'.g[x] == s.g[x];
    assert Crosses(s'.g, t, j);
    RootsStay(s, s', x);
  }

  lemma AddedHeldRooted(s: State, held: seq<nat>, keep: seq<nat>, deps: seq<seq<nat>>, kind: TaskKind)
    requires Well(s) && Well(WithTasks(s, deps, kind)) && HeldRooted(s, held)
    requires forall k :: 0 <= k < |keep| ==> keep[k] in held && keep[k] < |s.g|
    ensures HeldRooted(WithTasks(s, deps, kind), keep + NewIds(s, deps))
  {
    var s', held' := WithTasks(s, deps, kind), keep + NewIds(s, deps);
    forall k | 0 <= k < |held'| && held'[k] < |s'.g| && s'.g[held'[k]].stage < s'.stage ensures IsRoot(s', held'[k]) {
      assert k < |keep| && s'.g[keep[k]] == s.g[keep[k]];
      var j :| 0 <= j < |held| && held[j] == keep[k];
      RootsStay(s, s', held[j]);
    }
  }

  lemma AddedCrossRooted(s: State, n0: nat, held: seq<nat>, extra: seq<nat>, deps: seq<seq<nat>>, kind: TaskKind)
    requires Well(s) && Well(WithTasks(s, deps, kind)) && DepsIn(deps, 0, |s.g|)
    requires HeldRooted(s, held) && HeldRooted(s, extra) && CrossRooted(s, n0)
    requires forall i, j :: 0 <= i < |deps| && 0 <= j < |deps[i]| ==> deps[i][j] in held || deps[i][j] in extra
    ensures CrossRooted(WithTasks(s, deps, kind), n0)
  {
    var s' := WithTasks(s, deps, kind);
    forall t, i | n0 <= t < |s'.g| && 0 <= i < |s'.g[t].deps| && Crosses(s'.g, t, i)
      ensures IsRoot(s', s'.g[t].deps[i])
    {
      var d := s'.g[t].deps[i];
      if t < |s.g| {
        assert s'.g[t] == s.g[t] && s'.g[d] == s.g[d];
        assert Crosses(s.g, t, i);
      } else {
        assert d == deps[t - |s.g|][i] && s'.g[d] == s.g[d];
      }
      RootsStay(s, s', d);
    }
  }

  /** New tasks keep rootedness exactly if what they use beside the held tasks is rooted. */
  lemma AddedRooted(s0: State, s: State, held: seq<nat>, keep: seq<nat>, extra: seq<nat>, deps: seq<seq<nat>>,
                    kind: TaskKind)
    requires Well(s) && Well(WithTasks(s, deps, kind)) && HeldOk(s, |s0.g|, held) && |s0.g| <= |s.g|
    requires Takes(held, keep, extra, deps) && DepsIn(deps, |s0.g|, |s.g|)
    requires forall k :: 0 <= k < |extra| ==> extra[k] < |s.g|
    ensures Rooted(WithTasks(s, deps, kind), |s0.g|, keep + NewIds(s, deps)) <==>
              Rooted(s, |s0.g|, held) && HeldRooted(s, extra)
  {
    var s', held' := WithTasks(s, deps, kind), keep + NewIds(s, deps);
    if Rooted(s, |s0.g|, held) && HeldRooted(s, extra) {
      AddedHeldRooted(s, held, keep, deps, kind);
      AddedCrossRooted(s, |s0.g|, held, extra, deps, kind);
    }
    if Rooted(s', |s0.g|, held') {
      forall k | 0 <= k < |extra| && s.g[extra[k]].stage < s.stage ensures IsRoot(s, extra[k]) {
        ConsumedCrosses(s, |s0.g|, deps, extra[k], kind);
      }
      forall k | 0 <= k < |held| && s.g[held[k]].stage < s.stage ensures IsRoot(s, held[k]) {
        KeptRooted(s0, s, held, keep, extra, deps, k, kind);
      }
      forall t, i | |s0.g| <= t < |s.g| && 0 <= i < |s.g[t].deps| && Crosses(s.g, t, i)
        ensures IsRoot(s, s.g[t].deps[i])
      {
        assert s'.g[t] == s.g[t] && s'.g[s.g[t].deps[i]] == s.g[s.g[t].deps[i]];
        assert Crosses(s'.g, t, i);
        RootsStay(s, s', s.g[t].deps[i]);
      }
    }
  }

  lemma KeptRooted(s0: State, s: State, held: seq<nat>, keep: seq<nat>, extra: seq<nat>, deps: seq<seq<nat>>, k: nat,
                   kind: TaskKind)
    requires Well(s) && Well(WithTasks(s, deps, kind)) && HeldOk(s, |s0.g|, held) && |s0.g| <= |s.g|
    requires Takes(held, keep, extra, deps) && DepsIn(deps, |s0.g|, |s.g|)
    requires Rooted(WithTasks(s, deps, kind), |s0.g|, keep + NewIds(s, deps))
    requires k < |held| && s.g[held[k]].stage < s.stage
    ensures IsRoot(s, held[k])
  {
    var s', held', x := WithTasks(s, deps, kind), keep + NewIds(s, deps), held[k];
    if x in keep {
      var j :| 0 <= j < |keep| && keep[j] == x;
      assert held'[j] == x && s'.g[x] == s.g[x];
      RootsStay(s, s', x);
    } else {
      ConsumedCrosses(s, |s0.g|, deps, x, kind);
    }
  }

  lemma AddedStarved(s: State, n0: nat, held: seq<nat>, keep: seq<nat>, deps: seq<seq<nat>>, kind: TaskKind)
    requires Well(s) && Well(WithTasks(s, deps, kind)) && DepsIn(deps, 0, |s.g|) && n0 <= |s.g| && Starved(s, n0, held)
    requires forall k :: 0 <= k < |held| ==> held[k] in keep || Consumed(deps, held[k])
    ensures Starved(WithTasks(s, deps, kind), n0, keep + NewIds(s, deps))
  {
    var s', held' := WithTasks(s, deps, kind), keep + NewIds(s, deps);
    if k :| 0 <= k < |held| && held[k] < |s.g| && Lost(s, held[k]) {
      var x := held[k];
      LostStays(s, s', x);
      if x in keep {
        var j :| 0 <= j < |keep| && keep[j] == x;
        assert held'[j] == x;
      } else {
        var i :| 0 <= i < |deps| && x in deps[i];
        var j :| 0 <= j < |deps[i]| && deps[i][j] == x;
        var t := |s.g| + i;
        assert s'.g[t] == Task(s.stage, deps[i], kind) && held'[|keep| + i] == t && Reaches(s'.g, t, t);
        assert Starves(s', held', t, j);
      }
    } else {
      var t, i :| n0 <= t < |s.g| && 0 <= i < |s.g[t].deps| && Starves(s, held, t, i);
      AddedAttached(s, held, keep, deps, t, kind);
      LostStays(s, s', s.g[t].deps[i]);
      assert s'.g[t] == s.g[t] && Starves(s', held', t, i);
    }
  }

  lemma AddedNumbered(s: State, deps: seq<seq<nat>>, kind: TaskKind)
    requires Well(s) && Well(WithTasks(s, deps, kind)) && Numbered(s)
    ensures Numbered(WithTasks(s, deps, kind))
  {
    var s' := WithTasks(s, deps, kind);
    forall u, i | 0 <= u < |s'.g| ensures i in s'.ids[u] <==> ReachedByRoot(s'.g, s'.roots, u, i) {
      if u < |s.g| {
        assert s'.g[u] == s.g[u] && s'.ids[u] == s.ids[u];
        if s.g[u].stage < s.stage && 0 <= i < |s.roots[s.g[u].stage]| {
          assert RootsOk(s.g, s.g[u].stage, s.roots[s.g[u].stage]);
          ReachesGrow(s.g, s'.g, s.roots[s.g[u].stage][i], u);
        }
      }
    }
  }

  /** New tasks take over from the held tasks they use; the others in `held` must be kept. */
  lemma AddedVisiting(s0: State, s: State, held: seq<nat>, c: Claims, keep: seq<nat>, extra: seq<nat>,
                      deps: seq<seq<nat>>, kind: TaskKind := Ordinary)
    requires Visiting(s0, s, held, c) && Takes(held, keep, extra, deps)
    requires forall k :: 0 <= k < |extra| ==> |s0.g| <= extra[k] < |s.g|
    ensures Visiting(s0, WithTasks(s, deps, kind), keep + NewIds(s, deps),
                     c.(rooted := c.rooted && HeldRooted(s, extra)))
  {
    var s', held' := WithTasks(s, deps, kind), keep + NewIds(s, deps);
    TakenInside(s0, s, held, keep, extra, deps);
    AddedWell(s, deps, kind);
    AddedNumbered(s, deps, kind);
    AddedExtends(s0, s, deps, kind);
    AddedHeld(s0, s, held, keep, deps, kind);
    AddedRooted(s0, s, held, keep, extra, deps, kind);
    if c.safe {
      forall u | |s0.g| <= u < |s'.g| ensures Attached(s', held', u) {
        if u < |s.g| {
          AddedAttached(s, held, keep, deps, u, kind);
        } else {
          assert s'.g[u].stage == s.stage && held'[|keep| + (u - |s.g|)] == u && Reaches(s'.g, u, u);
        }
      }
    } else {
      AddedStarved(s, |s0.g|, held, keep, deps, kind);
    }
  }

  lemma LostStays(s: State, s': State, u: nat)
    requires Well(s) && Well(s') && s.g <= s'.g && s.roots <= s'.roots && u < |s.g| && Lost(s, u)
    ensures Lost(s', u)
  {
    var k := s.g[u].stage;
    assert s'.g[u] == s.g[u] && s'.roots[k] == s.roots[k];
    assert RootsOk(s.g, k, s.roots[k]);
    ReachedFromGrow(s.g, s'.g, s.roots[k], u);
  }

  // ---------- Closing a stage ----------

  function OfStage(g: Graph, ts: seq<nat>, stage: nat): seq<nat>
  {
    if ts == [] then []
    else
      OfStage(g, ts[..|ts| - 1], stage) +
      if ts[|ts| - 1] < |g| && g[ts[|ts| - 1]].stage == stage then [ts[|ts| - 1]] else []
  }

  /** The pipelines of these roots are marked, numbered by position. */
  ghost function Marked(g: Graph, ids: seq<set<nat>>, roots: seq<nat>): seq<set<nat>>
  {
    if WellFormed(g) && |ids| == |g| then
      seq(|g|, u requires 0 <= u < |g| => ids[u] + set i: nat | i < |roots| && ReachedIn(g, roots, u, i))
    else
      ids
  }

  ghost function Broken(s: State, held: seq<nat>): State
  {
    var rs := OfStage(s.g, held, s.stage);
    State(s.g, s.stage + 1, s.roots + [rs], Marked(s.g, s.ids, rs))
  }

  lemma {:induction false} OfStageMember(g: Graph, ts: seq<nat>, stage: nat, t: nat)
    ensures t in OfStage(g, ts, stage) <==> t in ts && t < |g| && g[t].stage == stage
  {
    if ts != [] {
      OfStageMember(g, ts[..|ts| - 1], stage, t);
      assert ts == ts[..|ts| - 1] + [ts[|ts| - 1]];
    }
  }

  lemma {:induction false} OfStageDistinct(g: Graph, ts: seq<nat>, stage: nat)
    requires forall i, j :: 0 <= i < j < |ts| ==> ts[i] != ts[j]
    ensures forall i, j :: 0 <= i < j < |OfStage(g, ts, stage)| ==> OfStage(g, ts, stage)[i] != OfStage(g, ts, stage)[j]
  {
    if ts != [] {
      var front, last := ts[..|ts| - 1], ts[|ts| - 1];
      OfStageDistinct(g, front, stage);
      OfStageMember(g, front, stage, last);
      var u := OfStage(g, front, stage);
      assert last !in front;
      forall i | 0 <= i < |u| ensures u[i] != last {
        assert u[i] in u;
      }
    }
  }

  lemma BrokenWell(s: State, n0: nat, held: seq<nat>)
    requires Well(s) && Numbered(s) && HeldOk(s, n0, held)
    ensures Well(Broken(s, held))
  {
    var s', rs := Broken(s, held), OfStage(s.g, held, s.stage);
    forall k | 0 <= k < s'.stage ensures RootsOk(s'.g, k, s'.roots[k]) {
      if k < s.stage {
        assert RootsOk(s.g, k, s.roots[k]);
      } else {
        OfStageDistinct(s.g, held, s.stage);
        forall j | 0 <= j < |rs| ensures rs[j] < |s.g| && s.g[rs[j]].stage == s.stage {
          assert rs[j] in rs;
          OfStageMember(s.g, held, s.stage, rs[j]);
        }
        forall t, i | 0 <= t < |s.g| && 0 <= i < |s.g[t].deps| && s.g[t].stage == s.stage
          ensures s.g[t].deps[i] !in rs
        {
          OfStageMember(s.g, held, s.stage, s.g[t].deps[i]);
        }
      }
    }
  }

  lemma BrokenNumbered(s: State, held: seq<nat>)
    requires Well(s) && Numbered(s) && Well(Broken(s, held))
    ensures Numbered(Broken(s, held))
  {
    var s', rs := Broken(s, held), OfStage(s.g, held, s.stage);
    assert RootsOk(s'.g, s.stage, s'.roots[s.stage]);
    forall u, i | 0 <= u < |s.g| ensures i in s'.ids[u] <==> ReachedByRoot(s'.g, s'.roots, u, i) {
      assert i in s'.ids[u] <==> i in s.ids[u] || ReachedIn(s.g, rs, u, i);
      if ReachedIn(s.g, rs, u, i) { ReachesStays(s.g, rs[i], u); }
    }
  }

  lemma BrokenHeldRooted(s: State, held: seq<nat>)
    requires Well(s) && Numbered(s) && Well(Broken(s, held)) && HeldRooted(s, held)
    ensures HeldRooted(Broken(s, held), held)
  {
    var s' := Broken(s, held);
    forall k | 0 <= k < |held| && held[k] < |s.g| ensures IsRoot(s', held[k]) {
      OfStageMember(s.g, held, s.stage, held[k]);
      if s.g[held[k]].stage < s.stage { RootsStay(s, s', held[k]); }
    }
  }

  lemma BrokenRooted(s: State, n0: nat, held: seq<nat>)
    requires Well(s) && Numbered(s) && Well(Broken(s, held))
    ensures Rooted(Broken(s, held), n0, held) <==> Rooted(s, n0, held)
  {
    var s' := Broken(s, held);
    forall x | 0 <= x < |s.g| && s.g[x].stage < s.stage ensures IsRoot(s', x) <==> IsRoot(s, x) {
      RootsStay(s, s', x);
    }
    if HeldRooted(s, held) { BrokenHeldRooted(s, held); }
    if CrossRooted(s', n0) {
      forall t, i | n0 <= t < |s.g| && 0 <= i < |s.g[t].deps| && Crosses(s.g, t, i) ensures IsRoot(s, s.g[t].deps[i]) {
        assert Crosses(s'.g, t, i);
      }
    }
    if CrossRooted(s, n0) {
      forall t, i | n0 <= t < |s.g| && 0 <= i < |s.g[t].deps| && Crosses(s'.g, t, i)
        ensures IsRoot(s', s.g[t].deps[i])
      {
        assert Crosses(s.g, t, i);
      }
    }
  }

  lemma BrokenExtends(s0: State, s: State, held: seq<nat>)
    requires Well(s) && Numbered(s) && Extends(s0, s) && HeldOk(s, |s0.g|, held)
    ensures Extends(s0, Broken(s, held))
  {
    var rs := OfStage(s.g, held, s.stage);
    forall j | 0 <= j < |rs| ensures |s0.g| <= rs[j] {
      assert rs[j] in rs;
      OfStageMember(s.g, held, s.stage, rs[j]);
      var k :| 0 <= k < |held| && held[k] == rs[j];
    }
  }

  lemma BrokenStarved(s: State, n0: nat, held: seq<nat>)
    requires Well(s) && Numbered(s) && Well(Broken(s, held)) && Starved(s, n0, held)
    ensures Starved(Broken(s, held), n0, held)
  {
    var s' := Broken(s, held);
    if k :| 0 <= k < |held| && held[k] < |s.g| && Lost(s, held[k]) {
      LostStays(s, s', held[k]);
    } else {
      var t, i :| n0 <= t < |s.g| && 0 <= i < |s.g[t].deps| && Starves(s, held, t, i);
      BrokenAttached(s, held, t);
      LostStays(s, s', s.g[t].deps[i]);
      assert Starves(s', held, t, i);
    }
  }

  /** Closing the stage with everything that is held: held tasks of this stage become its roots, nothing is lost. */
  lemma BrokenVisiting(s0: State, s: State, held: seq<nat>, c: Claims)
    requires Visiting(s0, s, held, c)
    ensures Visiting(s0, Broken(s, held), held, c)
  {
    var s' := Broken(s, held);
    BrokenWell(s, |s0.g|, held);
    BrokenNumbered(s, held);
    BrokenExtends(s0, s, held);
    BrokenRooted(s, |s0.g|, held);
    if c.safe {
      forall u | |s0.g| <= u < |s.g| ensures Attached(s', held, u) {
        BrokenAttached(s, held, u);
      }
    } else {
      BrokenStarved(s, |s0.g|, held);
    }
  }

  lemma BrokenAttached(s: State, held: seq<nat>, u: nat)
    requires Well(s) && Numbered(s) && Well(Broken(s, held)) && u < |s.g| && Attached(s, held, u)
    ensures Attached(Broken(s, held), held, u)
  {
    var rs := OfStage(s.g, held, s.stage);
    if s.g[u].stage == s.stage {
      var k :| 0 <= k < |held| && held[k] < |s.g| && Reaches(s.g, held[k], u);
      ReachesStays(s.g, held[k], u);
      OfStageMember(s.g, held, s.stage, held[k]);
      var j :| 0 <= j < |rs| && rs[j] == held[k];
    }
  }

  // ---------- Visiting a child ----------

  /** No task of this visit is in the current stage. */
  ghost predicate NoneOpen(s0: State, s: State)
  {
    forall u :: |s0.g| <= u < |s.g| ==> s.g[u].stage < s.stage
  }

  lemma ExtendsTrans(s0: State, s: State, s2: State)
    requires Extends(s0, s) && Extends(s, s2)
    ensures Extends(s0, s2)
  {
  }

  lemma ChildHeld(s0: State, s: State, held: seq<nat>, s2: State, list: seq<nat>)
    requires Well(s) && Well(s2) && Extends(s, s2) && |s0.g| <= |s.g|
    requires HeldOk(s, |s0.g|, held) && HeldOk(s2, |s.g|, list)
    ensures HeldOk(s2, |s0.g|, held + list)
  {
  }

  function Both(c: Claims, c2: Claims): Claims
  {
    Claims(c.safe && c2.safe, c.rooted && c2.rooted)
  }

  /** What is not rooted before a child is visited is not rooted after it. */
  lemma RootedBefore(s0: State, s: State, held: seq<nat>, s2: State, list: seq<nat>)
    requires Well(s) && Well(s2) && Extends(s, s2) && HeldOk(s, |s0.g|, held) && |s0.g| <= |s.g|
    requires Rooted(s2, |s0.g|, held + list)
    ensures Rooted(s, |s0.g|, held) && Rooted(s2, |s.g|, list)
  {
    var both := held + list;
    forall k | 0 <= k < |held| && s.g[held[k]].stage < s.stage ensures IsRoot(s, held[k]) {
      assert both[k] == held[k] && s2.g[held[k]] == s.g[held[k]];
      RootsStay(s, s2, held[k]);
    }
    forall t, i | |s0.g| <= t < |s.g| && 0 <= i < |s.g[t].deps| && Crosses(s.g, t, i)
      ensures IsRoot(s, s.g[t].deps[i])
    {
      assert s2.g[t] == s.g[t] && s2.g[s.g[t].deps[i]] == s.g[s.g[t].deps[i]];
      assert Crosses(s2.g, t, i);
      RootsStay(s, s2, s.g[t].deps[i]);
    }
    forall k | 0 <= k < |list| && list[k] < |s2.g| && s2.g[list[k]].stage < s2.stage ensures IsRoot(s2, list[k]) {
      assert both[|held| + k] == list[k];
    }
  }

  lemma NextHeldRooted(s0: State, s: State, held: seq<nat>, s2: State, list: seq<nat>)
    requires Well(s) && Well(s2) && Extends(s, s2) && HeldOk(s, |s0.g|, held)
    requires HeldRooted(s, held) && HeldRooted(s2, list) && (s2.stage == s.stage || NoneOpen(s0, s))
    ensures HeldRooted(s2, held + list)
  {
    var both := held + list;
    forall k | 0 <= k < |both| && both[k] < |s2.g| && s2.g[both[k]].stage < s2.stage ensures IsRoot(s2, both[k]) {
      if k < |held| {
        assert s2.g[held[k]] == s.g[held[k]];
        RootsStay(s, s2, held[k]);
      } else {
        assert IsRoot(s2, list[k - |held|]);
      }
    }
  }

  lemma ChildRooted(s0: State, s: State, held: seq<nat>, s2: State, list: seq<nat>)
    requires Well(s) && Well(s2) && Extends(s, s2) && HeldOk(s, |s0.g|, held) && |s0.g| <= |s.g|
    requires s2.stage == s.stage || NoneOpen(s0, s)
    ensures Rooted(s2, |s0.g|, held + list) <==> Rooted(s, |s0.g|, held) && Rooted(s2, |s.g|, list)
  {
    if Rooted(s, |s0.g|, held) && Rooted(s2, |s.g|, list) {
      NextHeldRooted(s0, s, held, s2, list);
      forall t, i | |s0.g| <= t < |s2.g| && 0 <= i < |s2.g[t].deps| && Crosses(s2.g, t, i)
        ensures IsRoot(s2, s2.g[t].deps[i])
      {
        if t < |s.g| {
          assert s2.g[t] == s.g[t] && s2.g[s.g[t].deps[i]] == s.g[s.g[t].deps[i]];
          assert Crosses(s.g, t, i);
          RootsStay(s, s2, s.g[t].deps[i]);
        }
      }
    }
    if Rooted(s2, |s0.g|, held + list) { RootedBefore(s0, s, held, s2, list); }
  }

  lemma ListStarves(s0: State, s: State, held: seq<nat>, s2: State, list: seq<nat>)
    requires Well(s) && Well(s2) && Extends(s, s2) && |s0.g| <= |s.g| && Starved(s2, |s.g|, list)
    ensures Starved(s2, |s0.g|, held + list)
  {
    if k :| 0 <= k < |list| && list[k] < |s2.g| && Lost(s2, list[k]) {
      assert (held + list)[|held| + k] == list[k];
    } else {
      var t, i :| |s.g| <= t < |s2.g| && 0 <= i < |s2.g[t].deps| && Starves(s2, list, t, i);
      if s2.g[t].stage == s2.stage { ReachedFromMore(s2.g, list, held + list, t); }
      assert Starves(s2, held + list, t, i);
    }
  }

  lemma HeldStarves(s0: State, s: State, held: seq<nat>, s2: State, list: seq<nat>)
    requires Well(s) && Well(s2) && Extends(s, s2) && HeldOk(s, |s0.g|, held) && Starved(s, |s0.g|, held)
    requires s2.stage == s.stage || NoneOpen(s0, s)
    ensures Starved(s2, |s0.g|, held + list)
  {
    if k :| 0 <= k < |held| && held[k] < |s.g| && Lost(s, held[k]) {
      LostStays(s, s2, held[k]);
      assert (held + list)[k] == held[k];
    } else {
      var t, i :| |s0.g| <= t < |s.g| && 0 <= i < |s.g[t].deps| && Starves(s, held, t, i);
      ChildAttached(s, held, s2, list, t);
      LostStays(s, s2, s.g[t].deps[i]);
      assert s2.g[t] == s.g[t] && Starves(s2, held + list, t, i);
    }
  }

  /** The child's tasks are held beside those held already. Nothing held gets lost unless the child closed the stage. */
  lemma ChildVisiting(s0: State, s: State, held: seq<nat>, c: Claims, s2: State, list: seq<nat>, c2: Claims)
    requires Visiting(s0, s, held, c) && Visiting(s, s2, list, c2)
    requires s2.stage == s.stage || NoneOpen(s0, s)
    ensures Visiting(s0, s2, held + list, Both(c, c2))
  {
    ExtendsTrans(s0, s, s2);
    ChildHeld(s0, s, held, s2, list);
    ChildRooted(s0, s, held, s2, list);
    if !c.safe {
      HeldStarves(s0, s, held, s2, list);
    } else if !c2.safe {
      ListStarves(s0, s, held, s2, list);
    } else {
      forall u | |s0.g| <= u < |s2.g| ensures Attached(s2, held + list, u) {
        assert u >= |s.g| ==> Attached(s2, list, u);
        if u < |s.g| {
          ChildAttached(s, held, s2, list, u);
        } else if s2.g[u].stage == s2.stage {
          ReachedFromMore(s2.g, list, held + list, u);
        }
      }
    }
  }

  lemma ChildAttached(s: State, held: seq<nat>, s2: State, list: seq<nat>, u: nat)
    requires Well(s) && Well(s2) && Extends(s, s2) && u < |s.g| && Attached(s, held, u)
    requires forall k :: 0 <= k < |held| ==> held[k] < |s.g|
    requires s2.stage == s.stage || s.g[u].stage < s.stage
    ensures Attached(s2, held + list, u)
  {
    assert s2.g[u] == s.g[u];
    if s.g[u].stage < s.stage {
      ClosedStays(s, s2, u);
    } else {
      ReachedFromGrow(s.g, s2.g, held, u);
      ReachedFromMore(s2.g, held, held + list, u);
    }
  }

  /** A task of the current stage is lost when a child closes that stage. */
  lemma OpenIsLost(s: State, s2: State, u: nat)
    requires Well(s) && Well(s2) && Extends(s, s2) && s2.stage > s.stage && u < |s.g| && s.g[u].stage == s.stage
    ensures Lost(s2, u)
  {
    assert s2.g[u] == s.g[u];
    if ReachedFrom(s2.g, s2.roots[s.stage], u) {
      var k :| 0 <= k < |s2.roots[s.stage]| && s2.roots[s.stage][k] < |s2.g| && Reaches(s2.g, s2.roots[s.stage][k], u);
      NewReachesNew(s, s2, s2.roots[s.stage][k], u);
      assert false;
    }
  }

  /** Whatever of the current stage will be executed is reached from a held task of that stage. */
  lemma OpenHeld(s: State, held: seq<nat>, u: nat) returns (k: nat)
    requires Well(s) && u < |s.g| && s.g[u].stage == s.stage && Attached(s, held, u)
    ensures k < |held| && held[k] < |s.g| && s.g[held[k]].stage == s.stage
  {
    k :| 0 <= k < |held| && held[k] < |s.g| && Reaches(s.g, held[k], u);
    ReachesStays(s.g, held[k], u);
  }

  lemma RootIsNotLost(s: State, u: nat)
    requires Well(s) && u < |s.g|
    ensures IsRoot(s, u) ==> !Lost(s, u)
  {
    if IsRoot(s, u) {
      var k :| 0 <= k < |s.roots[s.g[u].stage]| && s.roots[s.g[u].stage][k] == u;
      assert Reaches(s.g, u, u);
    }
  }

  lemma OrphanHeld(s0: State, s: State, held: seq<nat>, s2: State, list: seq<nat>, k: nat)
    requires Well(s) && Well(s2) && Extends(s, s2) && s2.stage > s.stage
    requires k < |held| && held[k] < |s.g| && s.g[held[k]].stage == s.stage
    ensures Starved(s2, |s0.g|, held + list) && !Rooted(s2, |s0.g|, held + list)
  {
    OpenIsLost(s, s2, held[k]);
    RootIsNotLost(s2, held[k]);
    assert (held + list)[k] == held[k] && s2.g[held[k]] == s.g[held[k]];
  }

  lemma OrphansStarve(s0: State, s: State, held: seq<nat>, s2: State, list: seq<nat>)
    requires Well(s) && Well(s2) && Extends(s, s2) && s2.stage > s.stage
    requires HeldOk(s, |s0.g|, held) && Starved(s, |s0.g|, held)
    ensures Starved(s2, |s0.g|, held + list)
  {
    if k :| 0 <= k < |held| && held[k] < |s.g| && Lost(s, held[k]) {
      LostStays(s, s2, held[k]);
      assert (held + list)[k] == held[k];
    } else {
      var t, i :| |s0.g| <= t < |s.g| && 0 <= i < |s.g[t].deps| && Starves(s, held, t, i);
      if s.g[t].stage == s.stage {
        var k := OpenHeld(s, held, t);
        OrphanHeld(s0, s, held, s2, list, k);
      } else {
        ChildAttached(s, held, s2, list, t);
        LostStays(s, s2, s.g[t].deps[i]);
        assert s2.g[t] == s.g[t] && Starves(s2, held + list, t, i);
      }
    }
  }

  /** If the child closed the stage while tasks of it were held, they are lost. */
  lemma ChildOrphans(s0: State, s: State, held: seq<nat>, c: Claims, s2: State, list: seq<nat>, c2: Claims)
    requires Visiting(s0, s, held, c) && Visiting(s, s2, list, c2) && (c.rooted ==> c.safe)
    requires s2.stage > s.stage && !NoneOpen(s0, s)
    ensures Visiting(s0, s2, held + list, Claims(false, false))
  {
    ExtendsTrans(s0, s, s2);
    ChildHeld(s0, s, held, s2, list);
    if c.safe {
      var u :| |s0.g| <= u < |s.g| && s.g[u].stage >= s.stage;
      var k := OpenHeld(s, held, u);
      OrphanHeld(s0, s, held, s2, list, k);
    } else {
      OrphansStarve(s0, s, held, s2, list);
      if Rooted(s2, |s0.g|, held + list) { RootedBefore(s0, s, held, s2, list); }
    }
  }

  lemma DroppedStarved(s0: State, s: State, held: seq<nat>)
    requires Well(s) && HeldOk(s, |s0.g|, held) && NoneOpen(s0, s) && HeldRooted(s, held) && Starved(s, |s0.g|, held)
    ensures Starved(s, |s0.g|, [])
  {
    if k :| 0 <= k < |held| && held[k] < |s.g| && Lost(s, held[k]) {
      RootIsNotLost(s, held[k]);
      assert false;
    }
    var t, i :| |s0.g| <= t < |s.g| && 0 <= i < |s.g[t].deps| && Starves(s, held, t, i);
    assert Starves(s, [], t, i);
  }

  /** Roots of closed stages need not be held any longer. */
  lemma DropClosed(s0: State, s: State, held: seq<nat>, c: Claims)
    requires Visiting(s0, s, held, c) && NoneOpen(s0, s) && HeldRooted(s, held)
    ensures Visiting(s0, s, [], c)
  {
    if c.safe {
      forall u | |s0.g| <= u < |s.g| ensures Attached(s, [], u) {
        assert Attached(s, held, u);
      }
    } else {
      DroppedStarved(s0, s, held);
    }
  }

  lemma VisitBegins(s: State)
    requires Well(s) && Numbered(s)
    ensures Visiting(s, s, [], Claims(true, true)) && NoneOpen(s, s)
  {
  }
}
