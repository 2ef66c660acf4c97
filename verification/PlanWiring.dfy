/** What depends on what in the graph of a plan: for every relation, the tasks it hands on and their inputs in order,
  down to the tasks of its children. */
module PlanWiring {
  import opened Relational
  import opened TaskGraph
  import opened BuilderState
  import opened Relations
  import opened PlanGraphs

  /** Task `t` has exactly these inputs, in this order. */
  ghost predicate IsTask(g: Graph, t: nat, stage: nat, deps: seq<nat>, kind: TaskKind := Ordinary)
  {
    t < |g| && g[t] == Task(stage, deps, kind)
  }

  /** Task `c` stands for the whole list: the only task of it, or a task that concatenates it. */
  ghost predicate StandsFor(g: Graph, c: nat, stage: nat, list: seq<nat>)
  {
    if |list| == 1 then c == list[0] else IsTask(g, c, stage, list)
  }

  /** Each task of `list` has the one input at its position in `inputs`. */
  ghost predicate OneEach(g: Graph, list: seq<nat>, stage: nat, inputs: seq<nat>, kind: TaskKind := Ordinary)
  {
    |list| == |inputs| && forall i :: 0 <= i < |list| ==> IsTask(g, list[i], stage, [inputs[i]], kind)
  }

  /** One task after the other, with inputs in the stage before if that had to be closed to concatenate them. */
  ghost predicate Follows(s: State, before: State, list: seq<nat>, c: nat)
  {
    before.g <= s.g && s.stage == (if |list| == 1 then before.stage else before.stage + 1) &&
    StandsFor(s.g, c, s.stage, list)
  }

  // ---------- What closing a stage records ----------

  /** The roots of the closed stage are its tasks among those held, in their order. */
  lemma {:induction false} StageRoots(g: Graph, held: seq<nat>, stage: nat, p: nat -> bool)
    requires forall k :: 0 <= k < |held| ==> held[k] < |g|
    requires forall t: nat :: p(t) <==> t < |g| && g[t].stage == stage
    ensures OfStage(g, held, stage) == Filter(p, held)
  {
    if held != [] { StageRoots(g, held[..|held| - 1], stage, p); }
  }

  /** Closing a stage adds no task and hands on what was held; it records the roots and goes on to the next stage. */
  lemma ClosedIs(v: Visit)
    requires forall k :: 0 <= k < |v.list| ==> v.list[k] < |v.s.g|
    ensures Closed(v).list == v.list && Closed(v).s.g == v.s.g && Closed(v).s.stage == v.s.stage + 1
    ensures Closed(v).s.roots == v.s.roots + [OfStage(v.s.g, v.list, v.s.stage)]
  {
  }

  // ---------- What each relation adds ----------

  lemma ReadWiring(p: nat, n: nat, s: State, v: Visit)
    requires v == Built(p, Read(n), s)
    ensures |v.list| == n && forall i :: 0 <= i < n ==> IsTask(v.s.g, v.list[i], s.stage, [])
  {
  }

  lemma GatheredFollows(v: Visit)
    ensures Gathered(v).list == [Gathered(v).list[0]] && Follows(Gathered(v).s, v.s, v.list, Gathered(v).list[0])
  {
  }

  lemma CopiesWiring(a: Visit, n: nat, v: Visit) returns (c: nat)
    requires v == Plus(Gathered(a).s, Copies(n, Gathered(a).list))
    ensures |v.list| == n && Follows(v.s, a.s, a.list, c)
    ensures forall i :: 0 <= i < n ==> IsTask(v.s.g, v.list[i], v.s.stage, [c])
  {
    GatheredFollows(a);
    c := Gathered(a).list[0];
  }

  /** Every read task of an IN predicate has the subquery as its only input. */
  lemma ReadInWiring(p: nat, rel: Rel, s: State, a: Visit, v: Visit) returns (c: nat)
    requires rel.ReadIn? && a == Built(p, rel.sub, s) && v == Built(p, rel, s)
    ensures |v.list| == rel.n && Follows(v.s, a.s, a.list, c)
    ensures forall i :: 0 <= i < rel.n ==> IsTask(v.s.g, v.list[i], v.s.stage, [c])
  {
    c := CopiesWiring(a, rel.n, v);
  }

  lemma MappedEach(a: Visit, v: Visit, kind: TaskKind)
    requires v == Mapped(a, kind)
    ensures OneEach(v.s.g, v.list, a.s.stage, a.list, kind) && v.s.stage == a.s.stage
  {
  }

  lemma EachWiring(p: nat, rel: Rel, s: State, a: Visit, v: Visit)
    requires rel.Each? && a == Built(p, rel.c, s) && v == Built(p, rel, s)
    ensures OneEach(v.s.g, v.list, a.s.stage, a.list)
  {
    MappedEach(a, v, Ordinary);
  }

  lemma GatheredWiring(a: Visit, v: Visit) returns (c: nat)
    requires v == Mapped(Gathered(a))
    ensures |v.list| == 1 && Follows(v.s, a.s, a.list, c) && IsTask(v.s.g, v.list[0], v.s.stage, [c])
  {
    GatheredFollows(a);
    c := Gathered(a).list[0];
  }

  lemma GatherWiring(p: nat, rel: Rel, s: State, a: Visit, v: Visit) returns (c: nat)
    requires rel.Gather? && a == Built(p, rel.c, s) && v == Built(p, rel, s)
    ensures |v.list| == 1 && Follows(v.s, a.s, a.list, c) && IsTask(v.s.g, v.list[0], v.s.stage, [c])
  {
    c := GatheredWiring(a, v);
  }

  /** A projection of an aggregation of the concatenated aggregations of the inputs. */
  ghost predicate IsAggregation(s: State, t: nat, before: State, inputs: seq<nat>, partials: seq<nat>, c: nat, f: nat)
  {
    OneEach(s.g, partials, before.stage, inputs) && Follows(s, before, partials, c) &&
    IsTask(s.g, f, s.stage, [c]) && IsTask(s.g, t, s.stage, [f])
  }

  lemma AggregatedWiring(a: Visit, v: Visit) returns (partials: seq<nat>, c: nat, f: nat)
    requires v == Aggregated(a)
    ensures |v.list| == 1 && IsAggregation(v.s, v.list[0], a.s, a.list, partials, c, f)
  {
    var m := Mapped(a);
    var g := Gathered(m);
    GatheredFollows(m);
    partials, c, f := m.list, g.list[0], Mapped(g).list[0];
    assert a.s.g <= m.s.g <= g.s.g <= Mapped(g).s.g <= v.s.g;
  }

  lemma AggregateWiring(p: nat, rel: Rel, s: State, a: Visit, v: Visit) returns (partials: seq<nat>, c: nat, f: nat)
    requires rel.Aggregate? && a == Built(p, rel.c, s) && v == Built(p, rel, s)
    ensures |v.list| == 1 && IsAggregation(v.s, v.list[0], a.s, a.list, partials, c, f)
  {
    partials, c, f := AggregatedWiring(a, v);
  }

  lemma WindowedWiring(a: Visit, total: Visit, v: Visit)
    requires total == Aggregated(a) && v == Windowed(a)
    ensures total.s.g <= v.s.g && v.s.stage == total.s.stage + 1 && |v.list| == |a.list|
    ensures forall i :: 0 <= i < |v.list| ==> IsTask(v.s.g, v.list[i], v.s.stage, [a.list[i], total.list[0]])
  {
  }

  /** A window without ORDER BY joins each input, on the left, with the aggregation of all inputs. */
  lemma PartitionWindowWiring(p: nat, rel: Rel, s: State, a: Visit, v: Visit)
    returns (total: State, t: nat, partials: seq<nat>, c: nat, f: nat)
    requires rel.PartitionWindow? && a == Built(p, rel.c, s) && v == Built(p, rel, s)
    ensures IsAggregation(total, t, a.s, a.list, partials, c, f) && total.g <= v.s.g && v.s.stage == total.stage + 1
    ensures |v.list| == |a.list|
    ensures forall i :: 0 <= i < |v.list| ==> IsTask(v.s.g, v.list[i], v.s.stage, [a.list[i], t])
  {
    var aggregated := Aggregated(a);
    partials, c, f := AggregatedWiring(a, aggregated);
    WindowedWiring(a, aggregated, v);
    total, t := aggregated.s, aggregated.list[0];
  }

  lemma OrderedWiring(a: Visit, m: Visit, v: Visit) returns (middle: State, c: nat, window: nat)
    requires m == Mapped(a) && v == Ordered(m)
    ensures OneEach(middle.g, m.list, a.s.stage, a.list) && Follows(middle, a.s, m.list, c)
    ensures IsTask(middle.g, window, middle.stage, [c]) && middle.g <= v.s.g
    ensures v.s.stage == middle.stage + 1 && |v.list| == |m.list|
    ensures forall i :: 0 <= i < |m.list| ==> IsTask(v.s.g, v.list[i], v.s.stage, [m.list[i], window])
  {
    var g := Gathered(m);
    GatheredFollows(m);
    c, window, middle := g.list[0], Mapped(g).list[0], Mapped(g).s;
    assert a.s.g <= m.s.g <= g.s.g <= middle.g;
  }

  /** A window with ORDER BY joins each input with a row id, on the left, with the window over all of them. */
  lemma OrderedWindowWiring(p: nat, rel: Rel, s: State, a: Visit, v: Visit)
    returns (ids: seq<nat>, middle: State, c: nat, window: nat)
    requires rel.OrderedWindow? && a == Built(p, rel.c, s) && v == Built(p, rel, s)
    ensures OneEach(middle.g, ids, a.s.stage, a.list) && Follows(middle, a.s, ids, c) && middle.g <= v.s.g
    ensures IsTask(middle.g, window, middle.stage, [c]) && v.s.stage == middle.stage + 1 && |v.list| == |ids|
    ensures forall i :: 0 <= i < |v.list| ==> IsTask(v.s.g, v.list[i], v.s.stage, [ids[i], window])
  {
    var m := Mapped(a);
    ids := m.list;
    middle, c, window := OrderedWiring(a, m, v);
  }

  lemma RightWiring(b: Visit, a: Visit, v: Visit) returns (c: nat)
    requires v == Joined(b, a, false).joins
    ensures StandsFor(v.s.g, c, a.s.stage, b.list) && |v.list| == |a.list|
    ensures forall i :: 0 <= i < |v.list| ==> IsTask(v.s.g, v.list[i], a.s.stage, [a.list[i], c])
  {
    c := Concatenated(a.s, b.list).list[0];
  }

  /** The right side is visited first and broadcast: join `i` has task `i` of the left side as its left input. */
  lemma BroadcastRightWiring(p: nat, rel: Rel, s: State, b: Visit, a: Visit, v: Visit) returns (c: nat)
    requires rel.BroadcastRight? && b == Built(p, rel.r, s) && a == Built(p, rel.l, Closed(b).s)
    requires v == Built(p, rel, s)
    ensures StandsFor(v.s.g, c, a.s.stage, b.list) && |v.list| == |a.list|
    ensures forall i :: 0 <= i < |v.list| ==> IsTask(v.s.g, v.list[i], a.s.stage, [a.list[i], c])
  {
    c := RightWiring(Closed(b), a, v);
  }

  lemma JoinedLeft(b: Visit, a: Visit) returns (c: nat)
    ensures var j := Joined(b, a, true);
      c == j.input && a.s.g <= j.joins.s.g && j.joins.s.stage == a.s.stage &&
      StandsFor(j.joins.s.g, c, a.s.stage, b.list) && |j.joins.list| == |a.list| &&
      forall i :: 0 <= i < |a.list| ==> IsTask(j.joins.s.g, j.joins.list[i], a.s.stage, [c, a.list[i]])
  {
    c := Concatenated(a.s, b.list).list[0];
  }

  /** Position lists come from the joins, or from one task for each rank but no more than there are joins; they are
    merged by one task that has the broadcast side as its first input. */
  ghost predicate MergesPositions(v: Visit, c: nat, stage: nat, joins: seq<nat>, positions: Positions, lists: seq<nat>)
  {
    match positions
    case Direct => v.list == joins
    case Lists => |v.list| == 1 && IsTask(v.s.g, v.list[0], stage + 1, [c] + joins)
    case Marks(ranks) =>
      |v.list| == 1 && IsTask(v.s.g, v.list[0], stage + 2, [c] + lists) &&
      |lists| == (if ranks < |joins| then ranks else |joins|) &&
      forall i :: 0 <= i < |lists| ==> IsTask(v.s.g, lists[i], stage + 1, [])
  }

  lemma MergedWiring(j: Broadcast, positions: Positions) returns (lists: seq<nat>)
    ensures var v := Merged(j, positions);
      j.joins.s.g <= v.s.g && MergesPositions(v, j.input, j.joins.s.stage, j.joins.list, positions, lists)
  {
    lists := [];
    if !positions.Direct? {
      lists := ListTasks(j.joins, positions).list;
      assert ListTasks(j.joins, positions).s.g <= Merged(j, positions).s.g;
    }
  }

  lemma LeftWiring(b: Visit, a: Visit, positions: Positions, v: Visit)
    returns (c: nat, joins: seq<nat>, lists: seq<nat>)
    requires v == Merged(Joined(b, a, true), positions)
    ensures StandsFor(v.s.g, c, a.s.stage, b.list) && |joins| == |a.list|
    ensures forall i :: 0 <= i < |joins| ==> IsTask(v.s.g, joins[i], a.s.stage, [c, a.list[i]])
    ensures MergesPositions(v, c, a.s.stage, joins, positions, lists)
  {
    var j := Joined(b, a, true);
    c := JoinedLeft(b, a);
    joins := j.joins.list;
    lists := MergedWiring(j, positions);
    TasksStay(j.joins.s.g, v.s.g);
  }

  lemma TasksStay(g: Graph, g': Graph)
    requires g <= g'
    ensures forall t: nat :: t < |g| ==> g'[t] == g[t]
  {
  }

  /** The left side is visited first and broadcast: join `i` has task `i` of the right side as its right input. */
  lemma BroadcastLeftWiring(p: nat, rel: Rel, s: State, b: Visit, a: Visit, v: Visit)
    returns (c: nat, joins: seq<nat>, lists: seq<nat>)
    requires rel.BroadcastLeft? && b == Built(p, rel.l, s) && a == Built(p, rel.r, Closed(b).s)
    requires v == Built(p, rel, s)
    ensures StandsFor(v.s.g, c, a.s.stage, b.list) && |joins| == |a.list|
    ensures forall i :: 0 <= i < |joins| ==> IsTask(v.s.g, joins[i], a.s.stage, [c, a.list[i]])
    ensures MergesPositions(v, c, a.s.stage, joins, rel.positions, lists)
  {
    c, joins, lists := LeftWiring(Closed(b), a, rel.positions, v);
  }

  lemma PartitionedWiring(a: Visit, v: Visit)
    requires v == Closed(Mapped(a, Partition))
    ensures OneEach(v.s.g, v.list, a.s.stage, a.list, Partition) && v.s.stage == a.s.stage + 1
  {
    MappedEach(a, Mapped(a, Partition), Partition);
  }

  lemma ShuffleTaskWiring(p: nat, rel: Rel, s: State, a: Visit, v: Visit)
    requires rel.Shuffle? && a == Built(p, rel.c, s) && v == Built(p, rel, s)
    ensures OneEach(v.s.g, v.list, a.s.stage, a.list, Partition) && v.s.stage == a.s.stage + 1
  {
    PartitionedWiring(a, v);
  }

  /** A merge task of its own for each partition, reading all tasks of the side; or these themselves. */
  ghost predicate ArePartitions(g: Graph, parts: seq<nat>, stage: nat, list: seq<nat>, partitioned: bool)
  {
    if partitioned then
      (forall i :: 0 <= i < |parts| ==> IsTask(g, parts[i], stage, list, Merge)) &&
      forall i, j :: 0 <= i < j < |parts| ==> parts[i] != parts[j]
    else
      parts == list
  }

  lemma SideWiring(p: nat, s: State, list: seq<nat>, partitioned: bool)
    ensures var v := Side(p, s, list, partitioned);
      ArePartitions(v.s.g, v.list, s.stage, list, partitioned) && s.g <= v.s.g && v.s.stage == s.stage
  {
  }

  lemma PartitionsStay(g: Graph, g': Graph, parts: seq<nat>, stage: nat, list: seq<nat>, partitioned: bool)
    requires ArePartitions(g, parts, stage, list, partitioned) && g <= g'
    ensures ArePartitions(g', parts, stage, list, partitioned)
  {
  }

  lemma ShuffledWiring(p: nat, a: Visit, b: Visit, leftPartitioned: bool, rightPartitioned: bool)
    returns (lefts: seq<nat>, rights: seq<nat>)
    requires (leftPartitioned || |a.list| == p) && (rightPartitioned || |b.list| == p)
    ensures var v := Shuffled(p, a, b, leftPartitioned, rightPartitioned);
      |v.list| == |lefts| == |rights| == p && ArePartitions(v.s.g, lefts, b.s.stage, a.list, leftPartitioned) &&
      ArePartitions(v.s.g, rights, b.s.stage, b.list, rightPartitioned) &&
      forall i :: 0 <= i < p ==> IsTask(v.s.g, v.list[i], b.s.stage, [lefts[i], rights[i]])
  {
    var left := Side(p, b.s, a.list, leftPartitioned);
    var right := Side(p, left.s, b.list, rightPartitioned);
    var v := Shuffled(p, a, b, leftPartitioned, rightPartitioned);
    lefts, rights := left.list, right.list;
    SideWiring(p, b.s, a.list, leftPartitioned);
    SideWiring(p, left.s, b.list, rightPartitioned);
    assert left.s.g <= right.s.g <= v.s.g;
    PartitionsStay(left.s.g, v.s.g, lefts, b.s.stage, a.list, leftPartitioned);
    PartitionsStay(right.s.g, v.s.g, rights, b.s.stage, b.list, rightPartitioned);
  }

  /** Join `i` of a shuffle join has partition `i` of the left side and then of the right one. */
  lemma ShuffleJoinWiring(p: nat, rel: Rel, s: State, a: Visit, b: Visit, v: Visit)
    returns (lefts: seq<nat>, rights: seq<nat>)
    requires rel.ShuffleJoin? && Valid(p, rel) && a == Built(p, rel.l, s) && b == Built(p, rel.r, a.s)
    requires v == Built(p, rel, s)
    ensures |v.list| == |lefts| == |rights| == p
    ensures ArePartitions(v.s.g, lefts, b.s.stage, a.list, Partitions(rel.l))
    ensures ArePartitions(v.s.g, rights, b.s.stage, b.list, Partitions(rel.r))
    ensures forall i :: 0 <= i < p ==> IsTask(v.s.g, v.list[i], b.s.stage, [lefts[i], rights[i]])
  {
    BuiltCounts(p, rel.l, s);
    BuiltCounts(p, rel.r, a.s);
    lefts, rights := ShuffledWiring(p, a, b, Partitions(rel.l), Partitions(rel.r));
  }

  /** The tasks of the left side, whose stage is closed, and then those of the right one. */
  lemma UnionAllWiring(p: nat, rel: Rel, s: State, a: Visit, b: Visit, v: Visit)
    requires rel.UnionAll? && a == Built(p, rel.l, s) && b == Built(p, rel.r, Closed(a).s)
    requires v == Built(p, rel, s)
    ensures v.list == a.list + b.list && v.s == b.s
  {
  }
}
