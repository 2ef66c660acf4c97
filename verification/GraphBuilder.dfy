/** `task_graph_builder`: the imperative construction of a plan's task graph. */
module GraphBuilder {
  import opened TaskGraph
  import opened Pipelines
  import opened BuilderState
  import opened Relations
  import opened PlanGraphs
  import opened MergeTasks

  ghost predicate Ready(s: State, list: seq<nat>)
  {
    Well(s) && Numbered(s) && InGraph(s.g, list)
  }

  lemma BuiltReady(p: nat, rel: Rel, s: State)
    requires p > 0 && Well(s) && Numbered(s) && Valid(p, rel)
    ensures var v := Built(p, rel, s); Ready(v.s, v.list) && Ready(Closed(v).s, v.list)
  {
    BuiltOk(p, rel, s, ForecastOf(p, rel));
    ClosedOk(s, Built(p, rel, s), ForecastOf(p, rel).claims);
  }

  lemma MappedReady(p: nat, rel: Rel, s: State, kind: TaskKind)
    requires p > 0 && Well(s) && Numbered(s) && Valid(p, rel)
    ensures var v := Mapped(Built(p, rel, s), kind); Ready(v.s, v.list)
  {
    BuiltOk(p, rel, s, ForecastOf(p, rel));
    MappedOk(s, Built(p, rel, s), ForecastOf(p, rel).claims, kind);
  }

  lemma MarkedNone(g: Graph, ids: seq<set<nat>>)
    requires WellFormed(g) && |ids| == |g|
    ensures Marked(g, ids, []) == ids
  {
    forall u | 0 <= u < |g| ensures Marked(g, ids, [])[u] == ids[u] {
    }
  }

  lemma MarkedOneMore(g: Graph, ids: seq<set<nat>>, roots: seq<nat>, t: nat)
    requires WellFormed(g) && |ids| == |g| && t < |g|
    ensures forall u :: 0 <= u < |g| ==>
              Marked(g, ids, roots + [t])[u] == Marked(g, ids, roots)[u] + if Reaches(g, t, u) then {|roots|} else {}
  {
    forall u | 0 <= u < |g|
      ensures Marked(g, ids, roots + [t])[u] == Marked(g, ids, roots)[u] + if Reaches(g, t, u) then {|roots|} else {}
    {
      forall i: nat | i < |roots| + 1
        ensures ReachedIn(g, roots + [t], u, i) <==> ReachedIn(g, roots, u, i) || (i == |roots| && Reaches(g, t, u))
      {
      }
    }
  }

  class GraphBuilder {
    const shuffles: nat
    var g: Graph
    var stage: nat
    var roots: seq<seq<nat>>
    var ids: seq<set<nat>>

    ghost function Now(): State
      reads this
    {
      State(g, stage, roots, ids)
    }

    constructor (shuffles: nat)
      ensures this.shuffles == shuffles && Now() == Empty()
    {
      this.shuffles := shuffles;
      g, stage, roots, ids := [], 0, [], [];
    }

    /** Creates one task in the current stage for each list of dependencies. */
    method AddTasks(deps: seq<seq<nat>>, kind: TaskKind := Ordinary) returns (list: seq<nat>)
      modifies `g, `ids
      ensures Visit(Now(), list) == Plus(old(Now()), deps, kind)
    {
      list := [];
      for i := 0 to |deps|
        invariant g == WithTasks(old(Now()), deps[..i], kind).g && ids == WithTasks(old(Now()), deps[..i], kind).ids
        invariant list == NewIds(old(Now()), deps[..i])
      {
        list := list + [|g|];
        g := g + [Task(stage, deps[i], kind)];
        ids := ids + [{}];
      }
      assert deps[..|deps|] == deps;
    }

    /** `assign_pipeline`: a depth-first walk with no record of the tasks it has seen. It ends because the number of
      paths left to walk falls with every step, and it marks exactly the tasks of the stage that `root` reaches. */
    method AssignPipeline(root: nat, id: nat)
      requires WellFormed(g) && |ids| == |g| && root < |g|
      modifies `ids
      ensures |ids| == |g|
      ensures forall u :: 0 <= u < |g| ==> ids[u] == old(ids[u]) + if Reaches(g, root, u) then {id} else {}
    {
      ghost var before := ids;
      var stack := [root];
      FirstVisit(g, root);
      while stack != []
        invariant InGraph(g, stack) && Marking(g, before, ids, root, id, stack)
        decreases StackPaths(g, stack)
      {
        var current, rest := stack[|stack| - 1], stack[..|stack| - 1];
        assert stack == rest + [current];
        StackPush(g, rest, current);
        stack := PushDependencies(g, root, current, rest);
        NextVisit(g, before, ids, root, id, rest, current, stack);
        ids := ids[current := ids[current] + {id}];
      }
      AllVisited(g, before, ids, root, id);
    }

    /** `insert_pipeline_breaker`: closes the current stage. Tasks of earlier stages are not roots of this one. */
    method Break(rootTasks: seq<nat>)
      requires WellFormed(g) && |ids| == |g| && InGraph(g, rootTasks)
      modifies this
      ensures Now() == Broken(old(Now()), rootTasks)
    {
      ghost var before := ids;
      var current: seq<nat> := [];
      var pipelineId := 0;
      MarkedNone(g, ids);
      for k := 0 to |rootTasks|
        invariant g == old(g) && stage == old(stage) && roots == old(roots)
        invariant current == OfStage(g, rootTasks[..k], stage) && pipelineId == |current|
        invariant |ids| == |g| && ids == Marked(g, before, current)
      {
        assert rootTasks[..k + 1][..k] == rootTasks[..k];
        if g[rootTasks[k]].stage == stage {
          MarkedOneMore(g, before, current, rootTasks[k]);
          current := current + [rootTasks[k]];
          AssignPipeline(rootTasks[k], pipelineId);
          pipelineId := pipelineId + 1;
        }
      }
      assert rootTasks[..|rootTasks|] == rootTasks;
      roots := roots + [current];
      stage := stage + 1;
    }

    /** `concatenate`, with or without a pipeline breaker. One task is passed through. */
    method Concatenate(list: seq<nat>, breaker: bool) returns (c: nat)
      requires WellFormed(g) && |ids| == |g| && InGraph(g, list)
      modifies this
      ensures Visit(Now(), [c]) == if breaker then Gathered(Visit(old(Now()), list)) else Concatenated(old(Now()), list)
    {
      if |list| == 1 {
        assert list == [list[0]];
        return list[0];
      }
      if breaker { Break(list); }
      var ids := AddTasks([list]);
      c := ids[0];
      assert ids == [c];
    }

    /** `generate_tasks`. */
    method Build(rel: Rel) returns (list: seq<nat>)
      requires shuffles > 0 && Well(Now()) && Numbered(Now()) && Valid(shuffles, rel)
      modifies this
      ensures Visit(Now(), list) == Built(shuffles, rel, old(Now()))
      decreases rel, 2
    {
      ghost var s := Now();
      match rel
      case Read(n) =>
        list := AddTasks(Copies(n, []));
      case ReadIn(n, sub) =>
        list := Build(sub);
        BuiltReady(shuffles, sub, s);
        var c := Concatenate(list, true);
        list := AddTasks(Copies(n, [c]));
      case Each(c) =>
        list := Build(c);
        list := AddTasks(Singles(list));
      case Gather(c) =>
        list := Build(c);
        BuiltReady(shuffles, c, s);
        var input := Concatenate(list, true);
        list := AddTasks(Singles([input]));
      case Aggregate(c) =>
        var input := Build(c);
        BuiltReady(shuffles, Each(c), s);
        list := AddAggregation(input);
      case PartitionWindow(c) =>
        var input := Build(c);
        BuiltReady(shuffles, Each(c), s);
        var total := AddAggregation(input);
        BuiltReady(shuffles, Aggregate(c), s);
        Break(total);
        list := AddTasks(JoinsOf(input, total[0], false));
      case OrderedWindow(c) =>
        list := BuildOrderedWindow(rel);
      case BroadcastRight(l, r) =>
        var c;
        list, c := BuildJoins(rel, r, l, false);
      case BroadcastLeft(_, _, _) =>
        list := BuildBroadcastLeft(rel);
      case Shuffle(c) =>
        list := Build(c);
        list := AddTasks(Singles(list), Partition);
        MappedReady(shuffles, c, s, Partition);
        Break(list);
      case ShuffleJoin(_, _) =>
        list := BuildShuffleJoin(rel);
      case UnionAll(l, r) =>
        var left := Build(l);
        BuiltReady(shuffles, l, s);
        Break(left);
        var right := Build(r);
        list := left + right;
    }

    /** The row ids first, then the window over all of them; its stage is closed before they are used again. */
    method BuildOrderedWindow(rel: Rel) returns (list: seq<nat>)
      requires shuffles > 0 && Well(Now()) && Numbered(Now()) && Valid(shuffles, rel) && rel.OrderedWindow?
      modifies this
      ensures Visit(Now(), list) == Built(shuffles, rel, old(Now()))
      decreases rel, 0
    {
      var input := Build(rel.c);
      MappedReady(shuffles, rel.c, old(Now()), Ordinary);
      input := AddTasks(Singles(input));
      var c := Concatenate(input, true);
      var window := AddTasks(Singles([c]));
      BuiltReady(shuffles, Gather(Each(rel.c)), old(Now()));
      Break(window);
      list := AddTasks(JoinsOf(input, window[0], false));
    }

    /** Aggregate each partition, concatenate, aggregate again, project. */
    method AddAggregation(input: seq<nat>) returns (list: seq<nat>)
      requires var v := Mapped(Visit(Now(), input)); Ready(v.s, v.list)
      modifies this
      ensures Visit(Now(), list) == Aggregated(Visit(old(Now()), input))
    {
      list := AddTasks(Singles(input));
      var c := Concatenate(list, true);
      list := AddTasks(Singles([c]));
      list := AddTasks(Singles(list));
    }

    /** The broadcast side first, closing its stage; then the other side, then the joins with the concatenated one. */
    method BuildJoins(rel: Rel, first: Rel, second: Rel, left: bool) returns (list: seq<nat>, c: nat)
      requires shuffles > 0 && Well(Now()) && Numbered(Now()) && Valid(shuffles, first) && Valid(shuffles, second)
      requires first < rel && second < rel
      modifies this
      ensures var b := Closed(Built(shuffles, first, old(Now())));
        Broadcast(Visit(Now(), list), c) == Joined(b, Built(shuffles, second, b.s), left)
      decreases rel, 0
    {
      var broadcast := Build(first);
      BuiltReady(shuffles, first, old(Now()));
      Break(broadcast);
      ghost var s := Now();
      var other := Build(second);
      BuiltReady(shuffles, second, s);
      BuiltCounts(shuffles, second, s);
      c := Concatenate(broadcast, false);
      list := AddTasks(JoinsOf(other, c, left));
    }

    method BuildBroadcastLeft(rel: Rel) returns (list: seq<nat>)
      requires shuffles > 0 && Well(Now()) && Numbered(Now()) && Valid(shuffles, rel) && rel.BroadcastLeft?
      modifies this
      ensures Visit(Now(), list) == Built(shuffles, rel, old(Now()))
      decreases rel, 1
    {
      var joins, c := BuildJoins(rel, rel.l, rel.r, true);
      list := joins;
      if !rel.positions.Direct? {
        BuiltReady(shuffles, BroadcastLeft(rel.l, rel.r, Direct), old(Now()));
        list := AddListTasks(joins, rel.positions);
        list := AddTasks([[c] + list]);
      }
    }

    /** The tasks that yield the position lists: the joins, or one extraction task for each rank that has probed. */
    method AddListTasks(joins: seq<nat>, positions: Positions) returns (list: seq<nat>)
      requires Ready(Now(), joins) && !positions.Direct? && Ready(Closed(Visit(Now(), joins)).s, joins)
      modifies this
      ensures Visit(Now(), list) == ListTasks(Visit(old(Now()), joins), positions)
    {
      Break(joins);
      list := joins;
      if positions.Marks? {
        var n := if positions.ranks < |joins| then positions.ranks else |joins|;
        AddedWell(Now(), Copies(n, []));
        list := AddTasks(Copies(n, []));
        Break(list);
      }
    }

    method BuildShuffleJoin(rel: Rel) returns (list: seq<nat>)
      requires shuffles > 0 && Well(Now()) && Numbered(Now()) && Valid(shuffles, rel) && rel.ShuffleJoin?
      modifies this
      ensures Visit(Now(), list) == Built(shuffles, rel, old(Now()))
      decreases rel, 0
    {
      var left := Build(rel.l);
      BuiltReady(shuffles, rel.l, old(Now()));
      var right := Build(rel.r);
      var lefts := MergeSide(left, Partitions(rel.l));
      var rights := MergeSide(right, Partitions(rel.r));
      list := AddTasks(Pairs(lefts, rights));
    }

    /** A merge task for each partition of a side, or its tasks as they are if it is split already. */
    method MergeSide(list: seq<nat>, partitioned: bool) returns (out: seq<nat>)
      modifies `g, `ids
      ensures Visit(Now(), out) == Side(shuffles, old(Now()), list, partitioned)
    {
      out := list;
      if partitioned {
        out := AddTasks(Copies(shuffles, list), Merge);
      }
    }
  }

  /** `build`. */
  method BuildGraph(shuffles: nat, rel: Rel) returns (built: State)
    requires shuffles > 0 && Valid(shuffles, rel)
    ensures built == GraphOf(shuffles, rel) && Delivered(built)
    ensures |built.g| == Tasks(shuffles, rel) && |built.roots| == Stages(shuffles, rel) + 1
    ensures (AllExecuted(built) <==> Safe(shuffles, rel)) && (Fed(built) <==> Safe(shuffles, rel))
    ensures CrossRooted(built, 0) <==> Safe(shuffles, rel) && Plain(shuffles, rel)
    ensures (HasMerges(built.g, 0) <==> Merges(rel)) && (MergesParts(built.g, 0) <==> Matched(rel))
  {
    var builder := new GraphBuilder(shuffles);
    var tasks := builder.Build(rel);
    BuiltReady(shuffles, rel, Empty());
    builder.Break(tasks);
    built := State(builder.g, builder.stage, builder.roots, builder.ids);
    GraphIs(shuffles, rel);
    GraphMatches(shuffles, rel);
  }
}
