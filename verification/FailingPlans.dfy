/** Plans that the builder accepts and the executor cannot run. */
module FailingPlans {
  import opened Wrappers
  import opened TaskGraph
  import opened Pipelines
  import opened BuilderState
  import opened Relations
  import opened PlanGraphs
  import S = SingleGpu
  import C = Cluster
  import opened ClusterSafety
  import opened ClusterCompletion
  import opened Schedulers
  import opened BuiltPlans

  // ---------- A task that is lost ----------

  function ShuffledTwice(): Rel
  {
    ShuffleJoin(ShuffleJoin(Shuffle(Read(1)), Shuffle(Read(1))), Shuffle(Read(1)))
  }

  /** The joins of the inner shuffle join are still in the current stage when the shuffle on the right closes it:
    whatever the tasks compute, no run of the plan ends normally. */
  lemma ShuffledTwiceFails<V>(p: nat, body: Body<V>, maxWorkers: nat)
    requires p > 0 && maxWorkers > 0
    ensures Valid(p, ShuffledTwice()) && !Safe(p, ShuffledTwice())
    ensures !S.CanFinish(PlanOf(GraphOf(p, ShuffledTwice()), body, maxWorkers))
  {
    var shuffled := Shuffle(Read(1));
    assert Valid(p, shuffled) && Valid(p, ShuffleJoin(shuffled, shuffled));
    SafePlansFinish(p, ShuffledTwice(), body, maxWorkers);
  }

  // ---------- A side that is not uniform ----------

  /** The first task of the union is a partition task, the second is not. */
  function MixedUnion(p: nat): Rel
  {
    ShuffleJoin(UnionAll(Shuffle(Read(1)), Read(1)), Read(p))
  }

  lemma NotUniform(l: Rel, r: Rel)
    requires Partitions(l) && r.Read?
    ensures !Uniform(UnionAll(l, r))
  {
    assert AllPartitions(UnionAll(l, r)) ==> AllPartitions(r);
  }

  /** Every task of the plan is executed, and still no run of it ends normally: the merge tasks find a task that is not
    a partition task. */
  lemma MixedUnionFails<V>(p: nat, body: Body<V>, maxWorkers: nat)
    requires p > 0 && maxWorkers > 0
    ensures Valid(p, MixedUnion(p)) && Safe(p, MixedUnion(p)) && !Matched(MixedUnion(p))
    ensures !S.CanFinish(PlanOf(GraphOf(p, MixedUnion(p)), body, maxWorkers))
  {
    var shuffled, one := Shuffle(Read(1)), Read(1);
    assert Valid(p, shuffled) && Safe(p, shuffled) && Partitions(shuffled);
    assert Valid(p, UnionAll(shuffled, one)) && Safe(p, UnionAll(shuffled, one)) && Num(p, Read(p)) == p;
    NotUniform(shuffled, one);
    SafePlansFinish(p, MixedUnion(p), body, maxWorkers);
  }

  // ---------- Offsets that are not fetched ----------

  function ShuffledSides(): Rel
  {
    ShuffleJoin(Shuffle(Read(1)), Shuffle(Read(1)))
  }

  /** The simplest shuffle join of two shuffled inputs ends normally on one rank, and never on more. */
  lemma ShuffledSidesFail<V>(p: nat, job: C.Job<V>)
    requires p > 1 && Deals(job, GraphOf(p, ShuffledSides())) && job.maxWorkers > 0 && forall t :: !job.onAll(t)
    ensures Valid(p, ShuffledSides()) && Safe(p, ShuffledSides()) && Plain(p, ShuffledSides())
    ensures Matched(ShuffledSides()) && Merges(ShuffledSides())
    ensures CanComplete(job) <==> job.size == 1
  {
    var shuffled := Shuffle(Read(1));
    assert Valid(p, shuffled) && Safe(p, shuffled) && Plain(p, shuffled) && Matched(shuffled) && Partitions(shuffled);
    PlainPlansComplete(p, ShuffledSides(), job);
  }

  // ---------- Small graphs, step by step ----------

  ghost predicate Looks(s: State, g: Graph, roots: seq<seq<nat>>)
  {
    s.g == g && s.roots == roots && s.stage == |roots|
  }

  lemma AddsOne(s: State, ds: seq<nat>)
    ensures Plus(s, [ds]).s.g == s.g + [Task(s.stage, ds)] && Plus(s, [ds]).list == [|s.g|]
    ensures Plus(s, [ds]).s.roots == s.roots && Plus(s, [ds]).s.stage == s.stage
  {
  }

  lemma AddsTwo(s: State, ds: seq<nat>, es: seq<nat>)
    ensures Plus(s, [ds, es]).s.g == s.g + [Task(s.stage, ds), Task(s.stage, es)]
    ensures Plus(s, [ds, es]).list == [|s.g|, |s.g| + 1]
    ensures Plus(s, [ds, es]).s.roots == s.roots && Plus(s, [ds, es]).s.stage == s.stage
  {
  }

  lemma ClosesOne(s: State, t: nat)
    requires t < |s.g| && s.g[t].stage == s.stage
    ensures Closed(Visit(s, [t])).s.roots == s.roots + [[t]]
  {
    assert [t][..0] == [] && OfStage(s.g, [t], s.stage) == [t];
  }

  lemma ClosesTwo(s: State, t: nat, u: nat)
    requires t < |s.g| && s.g[t].stage == s.stage && u < |s.g| && s.g[u].stage == s.stage
    ensures Closed(Visit(s, [t, u])).s.roots == s.roots + [[t, u]]
  {
    assert [t][..0] == [] && OfStage(s.g, [t], s.stage) == [t];
    assert [t, u][..1] == [t] && OfStage(s.g, [t, u], s.stage) == [t, u];
  }

  // ---------- A dependency that cannot be fetched ----------

  /** A semi join whose broadcast left side has two tasks, in a union. */
  function ConcatenatedLeft(): Rel
  {
    Each(UnionAll(Read(1), BroadcastLeft(Read(2), Read(1), Lists)))
  }

  function FirstTasks(): Graph
  {
    [Task(0, []), Task(1, []), Task(1, []), Task(2, []), Task(2, [1, 2]), Task(2, [4, 3])]
  }

  /** The semi join of the plan, built after the left side of the union. */
  lemma SemiJoinLooks(p: nat, s: State)
    requires Looks(s, [Task(0, [])], [[0]])
    ensures var v := Built(p, BroadcastLeft(Read(2), Read(1), Lists), s);
      Looks(v.s, FirstTasks() + [Task(3, [4, 5])], [[0], [1, 2], [5]]) && v.list == [6]
  {
    assert Copies(2, []) == [[], []] && Copies(1, []) == [[]];
    AddsTwo(s, [], []);
    var a := Built(p, Read(2), s);
    ClosesTwo(a.s, 1, 2);
    var b := Closed(a);
    AddsOne(b.s, []);
    var v := Built(p, Read(1), b.s);
    AddsOne(v.s, [1, 2]);
    var c := Concatenated(v.s, b.list);
    assert JoinsOf(v.list, c.list[0], true) == [[4, 3]];
    AddsOne(c.s, [4, 3]);
    var joins := Joined(b, v, true).joins;
    ClosesOne(joins.s, 5);
    AddsOne(Closed(joins).s, [4, 5]);
    assert [4] + joins.list == [4, 5];
  }

  lemma FirstLooks(p: nat)
    ensures var a := Closed(Built(p, Read(1), Empty())); Looks(a.s, [Task(0, [])], [[0]]) && a.list == [0]
  {
    assert Copies(1, []) == [[]];
    AddsOne(Empty(), []);
    ClosesOne(Built(p, Read(1), Empty()).s, 0);
  }

  function MergedTasks(): Graph
  {
    FirstTasks() + [Task(3, [4, 5]), Task(3, [0]), Task(3, [6])]
  }

  function MergedRoots(): seq<seq<nat>>
  {
    [[0], [1, 2], [5], [7, 8]]
  }

  lemma UnionLooks(p: nat)
    ensures var v := Built(p, UnionAll(Read(1), BroadcastLeft(Read(2), Read(1), Lists)), Empty());
      Looks(v.s, FirstTasks() + [Task(3, [4, 5])], [[0], [1, 2], [5]]) && v.list == [0, 6]
  {
    FirstLooks(p);
    SemiJoinLooks(p, Closed(Built(p, Read(1), Empty())).s);
  }

  lemma LastLooks(v: Visit)
    requires Looks(v.s, FirstTasks() + [Task(3, [4, 5])], [[0], [1, 2], [5]]) && v.list == [0, 6]
    ensures Looks(Closed(Mapped(v)).s, MergedTasks(), MergedRoots())
  {
    assert Singles([0, 6]) == [[0], [6]];
    AddsTwo(v.s, [0], [6]);
    ClosesTwo(Mapped(v).s, 7, 8);
  }

  lemma ConcatenatedLeftIsSafe(p: nat)
    ensures Valid(p, ConcatenatedLeft()) && Safe(p, ConcatenatedLeft()) && !Plain(p, ConcatenatedLeft())
  {
    var one, two := Read(1), Read(2);
    assert Valid(p, one) && Valid(p, two) && Safe(p, one) && Safe(p, two) && Num(p, two) == 2;
    var semi := BroadcastLeft(two, one, Lists);
    assert Valid(p, semi) && Safe(p, semi) && !Plain(p, semi);
    assert Valid(p, UnionAll(one, semi)) && Safe(p, UnionAll(one, semi)) && !Plain(p, UnionAll(one, semi));
  }

  lemma ConcatenatedLeftLooks(p: nat)
    ensures Looks(GraphOf(p, ConcatenatedLeft()), MergedTasks(), MergedRoots())
  {
    UnionLooks(p);
    LastLooks(Built(p, UnionAll(Read(1), BroadcastLeft(Read(2), Read(1), Lists)), Empty()));
  }

  /** The second root of the last stage reaches task 6, and only the first root of its stage reaches task 4. */
  lemma MergedPipelines(i: int)
    ensures WellFormed(MergedTasks()) && |MergedTasks()| == 9 && MergedTasks()[6].deps == [4, 5]
    ensures ReachedByRoot(MergedTasks(), MergedRoots(), 6, 1)
    ensures ReachedByRoot(MergedTasks(), MergedRoots(), 4, i) ==> i == 0
  {
    var g := MergedTasks();
    assert g[8] == Task(3, [6]) && g[6] == Task(3, [4, 5]) && g[8].deps[0] == 6;
    assert Reaches(g, 6, 6);
    assert Reaches(g, 8, 6);
  }

  /** Task 6 merges the position lists; it runs on rank 1. It reads the concatenated left side, task 4, which runs on
    rank 0 only and is no root. */
  lemma Task4IsNotCovered<V>(job: C.Job<V>)
    requires job.g == MergedTasks() && job.stageRoots == MergedRoots() && JobGraphOk(job) && job.size > 1
    requires RoundRobin(job) && forall t :: !job.onAll(t)
    ensures |job.g| == 9 && !IsStageRoot(job, 4) && Named(job, 1, 6) && !Named(job, 1, 4) && !RanksCover(job)
  {
    var g, roots := job.g, job.stageRoots;
    MergedPipelines(1);
    assert 1 in job.execRanks(6);
    if 1 in job.execRanks(4) {
      var i: nat :| ReachedByRoot(g, roots, 4, i) && 1 == i % job.size;
      MergedPipelines(i);
      assert false;
    }
    assert g[4] == Task(2, [1, 2]) && g[6] == Task(3, [4, 5]) && roots[2] == [5];
    assert Named(job, 1, 6) && !Named(job, 1, 4);
    assert !Obtainable(job, 6, g[6].deps[0]);
  }

  /** On two or more ranks under round robin the plan never completes, though it is safe: whatever rank 1 asks, the
    fetch of task 4 brings nothing. */
  lemma ConcatenatedLeftFails<V>(p: nat, job: C.Job<V>, rs: seq<C.Rank<V>>, order: seq<nat>)
    requires p > 0 && Deals(job, GraphOf(p, ConcatenatedLeft())) && job.maxWorkers > 0
    requires job.size > 1 && forall t :: !job.onAll(t)
    ensures Valid(p, ConcatenatedLeft()) && Safe(p, ConcatenatedLeft()) && !Plain(p, ConcatenatedLeft())
    ensures C.MigrateResult(job, rs, 4, order) == None && !CanComplete(job)
  {
    ConcatenatedLeftIsSafe(p);
    ConcatenatedLeftLooks(p);
    BuiltJobOk(job, GraphOf(p, ConcatenatedLeft()));
    Task4IsNotCovered(job);
    FetchFails(job, rs, 4, order);
    RoundRobinCompletes(job);
  }

  // ---------- A window whose input is not a root ----------

  /** A window without ORDER BY over a table of two partitions, in a union. */
  function WindowInUnion(): Rel
  {
    Each(UnionAll(Read(1), PartitionWindow(Read(2))))
  }

  function WindowTasks(): Graph
  {
    [Task(0, []), Task(1, []), Task(1, []), Task(1, [1]), Task(1, [2]), Task(2, [3, 4]), Task(2, [5]), Task(2, [6]),
     Task(3, [1, 7]), Task(3, [2, 7])]
  }

  function UnionTasks(): Graph
  {
    WindowTasks() + [Task(3, [0]), Task(3, [8]), Task(3, [9])]
  }

  function UnionRoots(): seq<seq<nat>>
  {
    [[0], [3, 4], [7], [10, 11, 12]]
  }

  lemma AddsThree(s: State, ds: seq<nat>, es: seq<nat>, fs: seq<nat>)
    ensures Plus(s, [ds, es, fs]).s.g == s.g + [Task(s.stage, ds), Task(s.stage, es), Task(s.stage, fs)]
    ensures Plus(s, [ds, es, fs]).list == [|s.g|, |s.g| + 1, |s.g| + 2]
    ensures Plus(s, [ds, es, fs]).s.roots == s.roots && Plus(s, [ds, es, fs]).s.stage == s.stage
  {
  }

  lemma ClosesThree(s: State, t: nat, u: nat, w: nat)
    requires t < |s.g| && s.g[t].stage == s.stage && u < |s.g| && s.g[u].stage == s.stage
    requires w < |s.g| && s.g[w].stage == s.stage
    ensures Closed(Visit(s, [t, u, w])).s.roots == s.roots + [[t, u, w]]
  {
    assert [t][..0] == [] && OfStage(s.g, [t], s.stage) == [t];
    assert [t, u][..1] == [t] && OfStage(s.g, [t, u], s.stage) == [t, u];
    assert [t, u, w][..2] == [t, u] && OfStage(s.g, [t, u, w], s.stage) == [t, u, w];
  }

  lemma InputLooks(p: nat, s: State)
    requires Looks(s, [Task(0, [])], [[0]])
    ensures var v := Built(p, Read(2), s); v.list == [1, 2] && Looks(v.s, WindowTasks()[..3], [[0]])
  {
    assert Copies(2, []) == [[], []];
    AddsTwo(s, [], []);
  }

  lemma PartialsLook(v: Visit)
    requires v.list == [1, 2] && Looks(v.s, WindowTasks()[..3], [[0]])
    ensures Looks(Gathered(Mapped(v)).s, WindowTasks()[..6], [[0], [3, 4]]) && Gathered(Mapped(v)).list == [5]
  {
    assert Singles([1, 2]) == [[1], [2]];
    AddsTwo(v.s, [1], [2]);
    ClosesTwo(Mapped(v).s, 3, 4);
    AddsOne(Closed(Mapped(v)).s, [3, 4]);
  }

  lemma TotalLooks(m: Visit)
    requires Looks(m.s, WindowTasks()[..6], [[0], [3, 4]]) && m.list == [5]
    ensures var total := Closed(Mapped(Mapped(m)));
      Looks(total.s, WindowTasks()[..8], [[0], [3, 4], [7]]) && total.list == [7]
  {
    assert Singles([5]) == [[5]] && Singles([6]) == [[6]];
    AddsOne(m.s, [5]);
    AddsOne(Mapped(m).s, [6]);
    ClosesOne(Mapped(Mapped(m)).s, 7);
  }

  lemma WindowLooks(v: Visit)
    requires v.list == [1, 2] && Looks(v.s, WindowTasks()[..3], [[0]])
    ensures Looks(Windowed(v).s, WindowTasks(), [[0], [3, 4], [7]]) && Windowed(v).list == [8, 9]
  {
    PartialsLook(v);
    TotalLooks(Gathered(Mapped(v)));
    assert JoinsOf([1, 2], 7, false) == [[1, 7], [2, 7]];
    AddsTwo(Closed(Aggregated(v)).s, [1, 7], [2, 7]);
  }

  lemma UnionIs(p: nat, l: Rel, r: Rel, s: State, a: Visit)
    requires a == Closed(Built(p, l, s))
    ensures Built(p, UnionAll(l, r), s) == Visit(Built(p, r, a.s).s, a.list + Built(p, r, a.s).list)
  {
  }

  lemma WindowAdds(p: nat, l: Rel, r: Rel)
    requires l == Read(1) && r == PartitionWindow(Read(2))
    ensures var v := Built(p, UnionAll(l, r), Empty());
      Looks(v.s, WindowTasks(), [[0], [3, 4], [7]]) && v.list == [0, 8, 9]
  {
    var s := Closed(Built(p, l, Empty())).s;
    FirstLooks(p);
    InputLooks(p, s);
    WindowLooks(Built(p, Read(2), s));
    UnionIs(p, l, r, Empty(), Closed(Built(p, l, Empty())));
  }

  lemma WindowInUnionLooks(p: nat)
    ensures Looks(GraphOf(p, WindowInUnion()), UnionTasks(), UnionRoots())
  {
    WindowAdds(p, Read(1), PartitionWindow(Read(2)));
    WindowUnionLooks(Built(p, UnionAll(Read(1), PartitionWindow(Read(2))), Empty()));
  }

  lemma WindowUnionLooks(v: Visit)
    requires Looks(v.s, WindowTasks(), [[0], [3, 4], [7]]) && v.list == [0, 8, 9]
    ensures Looks(Closed(Mapped(v)).s, UnionTasks(), UnionRoots())
  {
    assert Singles([0, 8, 9]) == [[0], [8], [9]];
    AddsThree(v.s, [0], [8], [9]);
    ClosesThree(Mapped(v).s, 10, 11, 12);
  }

  lemma WindowPipelines(g: Graph, roots: seq<seq<nat>>, i: int)
    requires g == UnionTasks() && roots == UnionRoots()
    ensures WellFormed(g) && |g| == 13 && g[8].deps == [1, 7] && g[1].stage == 1 && g[8].stage == 3
    ensures ReachedByRoot(g, roots, 8, 1)
    ensures ReachedByRoot(g, roots, 1, i) ==> i == 0
  {
    assert g[11] == Task(3, [8]) && g[8] == Task(3, [1, 7]) && g[11].deps[0] == 8;
    assert Reaches(g, 8, 8);
    assert Reaches(g, 11, 8);
    assert g[4] == Task(1, [2]) && g[2] == Task(1, []);
  }

  /** Task 8 joins the first partition with the aggregate; it runs on rank 1. Its left input, task 1, was aggregated on
    rank 0, and it is no root: on two or more ranks the plan never completes. */
  lemma WindowInUnionFails<V>(p: nat, job: C.Job<V>)
    requires p > 0 && Deals(job, GraphOf(p, WindowInUnion())) && job.maxWorkers > 0
    requires job.size > 1 && forall t :: !job.onAll(t)
    ensures !CanComplete(job)
  {
    WindowInUnionLooks(p);
    BuiltJobOk(job, GraphOf(p, WindowInUnion()));
    Task1IsNotCovered(job);
    RoundRobinCompletes(job);
  }

  lemma Task1IsNotCovered<V>(job: C.Job<V>)
    requires job.g == UnionTasks()
    requires job.stageRoots == UnionRoots() && JobGraphOk(job) && job.size > 1
    requires RoundRobin(job) && forall t :: !job.onAll(t)
    ensures !RanksCover(job)
  {
    var g, roots := job.g, job.stageRoots;
    WindowPipelines(g, roots, 1);
    assert 1 in job.execRanks(8);
    if 1 in job.execRanks(1) {
      var i: nat :| ReachedByRoot(g, roots, 1, i) && 1 == i % job.size;
      WindowPipelines(g, roots, i);
      assert false;
    }
    assert roots[1] == [3, 4];
    assert Named(job, 1, 8) && !Named(job, 1, 1);
    assert !Obtainable(job, 8, g[8].deps[0]);
  }
}
