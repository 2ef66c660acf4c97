/** The merge tasks of shuffle joins read partition tasks exactly if the sides they merge consist of these. */
module MergeTasks {
  import opened TaskGraph
  import opened Pipelines
  import opened BuilderState
  import opened Relations
  import opened PlanGraphs

  // ---------- Merge tasks read partition tasks ----------

  ghost predicate AreParts(g: Graph, list: seq<nat>)
  {
    forall k :: 0 <= k < |list| ==> list[k] < |g| && g[list[k]].kind.Partition?
  }

  /** The merge tasks from `n` on read partition tasks only. */
  ghost predicate MergesParts(g: Graph, n: nat)
  {
    forall t :: n <= t < |g| && g[t].kind.Merge? ==> AreParts(g, g[t].deps)
  }

  ghost predicate HasMerges(g: Graph, n: nat)
  {
    exists t :: n <= t < |g| && g[t].kind.Merge?
  }

  /** What is known about new merge tasks: whether there are any, and whether they read partition tasks only. */
  datatype Merging = Merging(any: bool, matched: bool)

  function MergingOf(rel: Rel): Merging
  {
    Merging(Merges(rel), Matched(rel))
  }

  function Jointly(m: Merging, m2: Merging): Merging
  {
    Merging(m.any || m2.any, m.matched && m2.matched)
  }

  /** `s` comes from `s0`, with such merge tasks. */
  ghost predicate Grown(s0: State, s: State, m: Merging)
  {
    s0.g <= s.g && (forall t :: 0 <= t < |s.g| ==> InGraph(s.g, s.g[t].deps)) &&
    (HasMerges(s.g, |s0.g|) <==> m.any) && (MergesParts(s.g, |s0.g|) <==> m.matched)
  }

  ghost predicate Kinded(s0: State, v: Visit, m: Merging, parts: bool)
  {
    Grown(s0, v.s, m) && InGraph(v.s.g, v.list) && v.list != [] && (AreParts(v.s.g, v.list) <==> parts)
  }

  ghost predicate AllInGraph(g: Graph, deps: seq<seq<nat>>)
  {
    forall k :: 0 <= k < |deps| ==> InGraph(g, deps[k])
  }

  /** New tasks that merge nothing. */
  lemma PlusKinded(s0: State, s: State, m: Merging, deps: seq<seq<nat>>, kind: TaskKind)
    requires Grown(s0, s, m) && AllInGraph(s.g, deps) && deps != [] && !kind.Merge?
    ensures Kinded(s0, Plus(s, deps, kind), m, kind.Partition?)
  {
    var v := Plus(s, deps, kind);
    KindsStay(s.g, v.s.g, |s0.g|);
    assert v.s.g[v.list[0]].kind == kind;
  }

  /** What a graph has of merge tasks is not affected by later tasks that merge nothing. */
  lemma KindsStay(g: Graph, g': Graph, n: nat)
    requires g <= g' && (forall t :: 0 <= t < |g| ==> InGraph(g, g[t].deps)) && n <= |g|
    requires forall t :: |g| <= t < |g'| ==> !g'[t].kind.Merge?
    ensures (HasMerges(g', n) <==> HasMerges(g, n)) && (MergesParts(g', n) <==> MergesParts(g, n))
  {
    if t :| n <= t < |g| && g[t].kind.Merge? {
      assert g'[t].kind.Merge?;
    }
    if MergesParts(g', n) {
      forall t | n <= t < |g| && g[t].kind.Merge? ensures AreParts(g, g[t].deps) {
        assert g'[t] == g[t];
      }
    }
  }

  lemma MappedKinded(s0: State, v: Visit, m: Merging, parts: bool, kind: TaskKind := Ordinary)
    requires Kinded(s0, v, m, parts) && !kind.Merge?
    ensures Kinded(s0, Mapped(v, kind), m, kind.Partition?)
  {
    PlusKinded(s0, v.s, m, Singles(v.list), kind);
  }

  lemma GatheredKinded(s0: State, v: Visit, m: Merging, parts: bool)
    requires Kinded(s0, v, m, parts)
    ensures Kinded(s0, Gathered(v), m, parts && |v.list| == 1)
  {
    if |v.list| != 1 {
      PlusKinded(s0, Closed(v).s, m, [v.list], Ordinary);
    }
  }

  lemma AggregatedKinded(s0: State, v: Visit, m: Merging, parts: bool)
    requires Kinded(s0, v, m, parts)
    ensures Kinded(s0, Aggregated(v), m, false) && v.s.g <= Aggregated(v).s.g
  {
    MappedKinded(s0, v, m, parts);
    GatheredKinded(s0, Mapped(v), m, false);
    MappedKinded(s0, Gathered(Mapped(v)), m, false);
    MappedKinded(s0, Mapped(Gathered(Mapped(v))), m, false);
    AggregatedGrows(v);
  }

  lemma AgainKinded(s0: State, v: Visit, total: Visit, m: Merging, parts: bool)
    requires Kinded(s0, total, m, parts) && InGraph(v.s.g, v.list) && v.list != [] && v.s.g <= total.s.g
    ensures Kinded(s0, Plus(total.s, JoinsOf(v.list, total.list[0], false)), m, false)
  {
    PlusKinded(s0, total.s, m, JoinsOf(v.list, total.list[0], false), Ordinary);
  }

  /** The second of two visits. */
  lemma BesideKinded(s0: State, a: Visit, ma: Merging, pa: bool, b: Visit, mb: Merging, pb: bool)
    requires Kinded(s0, a, ma, pa) && Kinded(a.s, b, mb, pb)
    ensures Grown(s0, b.s, Jointly(ma, mb)) && InGraph(b.s.g, a.list) && (AreParts(b.s.g, a.list) <==> pa)
  {
    var g, g' := a.s.g, b.s.g;
    forall k | 0 <= k < |a.list| ensures g'[a.list[k]] == g[a.list[k]] {
    }
    if MergesParts(g', |s0.g|) {
      forall t | |s0.g| <= t < |g| && g[t].kind.Merge? ensures AreParts(g, g[t].deps) {
        assert g'[t] == g[t];
      }
    }
    if ma.matched && mb.matched {
      forall t | |s0.g| <= t < |g'| && g'[t].kind.Merge? ensures AreParts(g', g'[t].deps) {
        assert t < |g| ==> g'[t] == g[t];
      }
    }
  }

  lemma UnionKinded(s0: State, a: Visit, ma: Merging, pa: bool, b: Visit, mb: Merging, pb: bool)
    requires Kinded(s0, a, ma, pa) && Kinded(Closed(a).s, b, mb, pb)
    ensures Kinded(s0, Visit(b.s, a.list + b.list), Jointly(ma, mb), pa && pb)
  {
    BesideKinded(s0, Closed(a), ma, pa, b, mb, pb);
    var list := a.list + b.list;
    if AreParts(b.s.g, list) {
      forall k | 0 <= k < |a.list| ensures a.list[k] < |b.s.g| && b.s.g[a.list[k]].kind.Partition? {
        assert list[k] == a.list[k];
      }
      forall k | 0 <= k < |b.list| ensures b.list[k] < |b.s.g| && b.s.g[b.list[k]].kind.Partition? {
        assert list[|a.list| + k] == b.list[k];
      }
    }
  }

  lemma JoinedKinded(s0: State, a: Visit, ma: Merging, pa: bool, b: Visit, mb: Merging, pb: bool, left: bool)
    requires Kinded(s0, a, ma, pa) && Kinded(Closed(a).s, b, mb, pb)
    ensures var j := Joined(Closed(a), b, left);
      Kinded(s0, j.joins, Jointly(ma, mb), false) && j.input < |j.joins.s.g|
  {
    BesideKinded(s0, Closed(a), ma, pa, b, mb, pb);
    var c := Concatenated(b.s, a.list);
    if |a.list| != 1 { PlusKinded(s0, b.s, Jointly(ma, mb), [a.list], Ordinary); }
    PlusKinded(s0, c.s, Jointly(ma, mb), JoinsOf(b.list, c.list[0], left), Ordinary);
  }

  lemma MergedKinded(s0: State, j: Broadcast, m: Merging, positions: Positions)
    requires Kinded(s0, j.joins, m, false) && j.input < |j.joins.s.g|
    requires !positions.Direct? && (positions.Marks? ==> positions.ranks > 0)
    ensures Kinded(s0, Merged(j, positions), m, false)
  {
    var lists := ListTasks(j.joins, positions);
    if positions.Marks? {
      PlusKinded(s0, Closed(j.joins).s, m, Copies(Min(positions.ranks, |j.joins.list|), []), Ordinary);
    }
    PlusKinded(s0, lists.s, m, [[j.input] + lists.list], Ordinary);
  }

  /** What a side of a shuffle join adds. */
  function SideMerging(partitioned: bool, parts: bool): Merging
  {
    Merging(partitioned, partitioned ==> parts)
  }

  lemma SideKinded(p: nat, s0: State, s: State, m: Merging, list: seq<nat>, partitioned: bool)
    requires p > 0 && Grown(s0, s, m) && InGraph(s.g, list)
    ensures var v := Side(p, s, list, partitioned);
      Grown(s0, v.s, Jointly(m, SideMerging(partitioned, AreParts(s.g, list)))) && InGraph(v.s.g, v.list) &&
      s.g <= v.s.g
  {
    if partitioned {
      var v := Side(p, s, list, partitioned);
      forall t | |s.g| <= t < |v.s.g| ensures v.s.g[t] == Task(s.stage, list, Merge) {
      }
      forall t | 0 <= t < |s.g| ensures v.s.g[t] == s.g[t] {
      }
      assert v.s.g[|s.g|].kind.Merge?;
      assert AreParts(v.s.g, list) <==> AreParts(s.g, list);
      if MergesParts(v.s.g, |s0.g|) {
        assert AreParts(v.s.g, v.s.g[|s.g|].deps);
        forall t | |s0.g| <= t < |s.g| && s.g[t].kind.Merge? ensures AreParts(s.g, s.g[t].deps) {
          assert AreParts(v.s.g, v.s.g[t].deps);
        }
      }
    }
  }

  /** Both sides of a shuffle join. */
  lemma SidesKinded(p: nat, s0: State, s: State, m: Merging, left: seq<nat>, right: seq<nat>, leftPartitioned: bool,
                    rightPartitioned: bool)
    requires p > 0 && Grown(s0, s, m) && InGraph(s.g, left) && InGraph(s.g, right)
    ensures var l := Side(p, s, left, leftPartitioned);
      var r := Side(p, l.s, right, rightPartitioned);
      Grown(s0, r.s, Jointly(Jointly(m, SideMerging(leftPartitioned, AreParts(s.g, left))),
                             SideMerging(rightPartitioned, AreParts(s.g, right)))) &&
      InGraph(r.s.g, l.list) && InGraph(r.s.g, r.list)
  {
    var l := Side(p, s, left, leftPartitioned);
    SideKinded(p, s0, s, m, left, leftPartitioned);
    assert AreParts(l.s.g, right) <==> AreParts(s.g, right);
    SideKinded(p, s0, l.s, Jointly(m, SideMerging(leftPartitioned, AreParts(s.g, left))), right, rightPartitioned);
  }

  lemma ShuffledKinded(p: nat, s0: State, a: Visit, ma: Merging, pa: bool, b: Visit, mb: Merging, pb: bool,
                       leftPartitioned: bool, rightPartitioned: bool)
    requires p > 0 && Kinded(s0, a, ma, pa) && Kinded(a.s, b, mb, pb)
    requires (leftPartitioned || |a.list| == p) && (rightPartitioned || |b.list| == p)
    ensures Kinded(s0, Shuffled(p, a, b, leftPartitioned, rightPartitioned),
                   Jointly(Jointly(Jointly(ma, mb), SideMerging(leftPartitioned, pa)),
                           SideMerging(rightPartitioned, pb)),
                   false)
  {
    BesideKinded(s0, a, ma, pa, b, mb, pb);
    SidesKinded(p, s0, b.s, Jointly(ma, mb), a.list, b.list, leftPartitioned, rightPartitioned);
    var left := Side(p, b.s, a.list, leftPartitioned);
    var right := Side(p, left.s, b.list, rightPartitioned);
    PlusKinded(s0, right.s,
               Jointly(Jointly(Jointly(ma, mb), SideMerging(leftPartitioned, pa)), SideMerging(rightPartitioned, pb)),
               Pairs(left.list, right.list), Ordinary);
  }

  /** Building a relation adds merge tasks exactly if it merges; all of them read partition tasks exactly if the
    relation is matched. */
  lemma {:induction false} BuiltKinded(p: nat, rel: Rel, s: State)
    requires p > 0 && Valid(p, rel) && forall t :: 0 <= t < |s.g| ==> InGraph(s.g, s.g[t].deps)
    ensures Kinded(s, Built(p, rel, s), MergingOf(rel), AllPartitions(rel))
    decreases rel, 1
  {
    if rel.Read? {
      assert Grown(s, s, Merging(false, true));
      PlusKinded(s, s, Merging(false, true), Copies(rel.n, []), Ordinary);
    } else if rel.ShuffleJoin? {
      var a := Built(p, rel.l, s);
      ShuffleJoinKinded(p, rel, s, a, Built(p, rel.r, a.s));
    } else if rel.BroadcastRight? || rel.BroadcastLeft? || rel.UnionAll? {
      TwoKinded(p, rel, s);
    } else {
      var c := Child(rel);
      BuiltKinded(p, c, s);
      OneKinded(rel, s, p, Built(p, c, s), MergingOf(c), AllPartitions(c));
    }
  }

  lemma OneKinded(rel: Rel, s: State, p: nat, v: Visit, m: Merging, parts: bool)
    requires !rel.Read? && !rel.BroadcastRight? && !rel.BroadcastLeft? && !rel.ShuffleJoin? && !rel.UnionAll?
    requires Valid(p, rel) && Kinded(s, v, m, parts) && v == Built(p, Child(rel), s)
    ensures Kinded(s, Built(p, rel, s), m, rel.Shuffle?)
  {
    match rel
    case ReadIn(n, _) =>
      GatheredKinded(s, v, m, parts);
      PlusKinded(s, Gathered(v).s, m, Copies(n, Gathered(v).list), Ordinary);
    case Each(_) => MappedKinded(s, v, m, parts);
    case Gather(_) =>
      GatheredKinded(s, v, m, parts);
      MappedKinded(s, Gathered(v), m, parts && |v.list| == 1);
    case Aggregate(_) => AggregatedKinded(s, v, m, parts);
    case PartitionWindow(_) =>
      AggregatedKinded(s, v, m, parts);
      AgainKinded(s, v, Closed(Aggregated(v)), m, false);
    case OrderedWindow(_) =>
      MappedKinded(s, v, m, parts);
      OrderedKinded(s, Mapped(v), m);
    case Shuffle(_) => MappedKinded(s, v, m, parts, Partition);
  }

  lemma OrderedKinded(s: State, v: Visit, m: Merging)
    requires Kinded(s, v, m, false)
    ensures Kinded(s, Ordered(v), m, false)
  {
    GatheredKinded(s, v, m, false);
    MappedKinded(s, Gathered(v), m, false);
    assert v.s.g <= Gathered(v).s.g;
    AgainKinded(s, v, Closed(Mapped(Gathered(v))), m, false);
  }

  lemma {:induction false} TwoKinded(p: nat, rel: Rel, s: State)
    requires p > 0 && Valid(p, rel) && forall t :: 0 <= t < |s.g| ==> InGraph(s.g, s.g[t].deps)
    requires rel.BroadcastRight? || rel.BroadcastLeft? || rel.UnionAll?
    ensures Kinded(s, Built(p, rel, s), MergingOf(rel), AllPartitions(rel))
    decreases rel, 0
  {
    var first, second := if rel.BroadcastRight? then rel.r else rel.l, if rel.BroadcastRight? then rel.l else rel.r;
    var a := Built(p, first, s);
    var b := Built(p, second, Closed(a).s);
    BuiltKinded(p, first, s);
    BuiltKinded(p, second, Closed(a).s);
    ClosedPairKinded(rel, s, a, MergingOf(first), AllPartitions(first), b, MergingOf(second), AllPartitions(second));
  }

  lemma {:induction false} ShuffleJoinKinded(p: nat, rel: Rel, s: State, a: Visit, b: Visit)
    requires p > 0 && Valid(p, rel) && forall t :: 0 <= t < |s.g| ==> InGraph(s.g, s.g[t].deps)
    requires rel.ShuffleJoin? && a == Built(p, rel.l, s) && b == Built(p, rel.r, a.s)
    ensures Kinded(s, Shuffled(p, a, b, Partitions(rel.l), Partitions(rel.r)), MergingOf(rel), false)
    decreases rel, 0
  {
    var l, r := rel.l, rel.r;
    BuiltKinded(p, l, s);
    BuiltKinded(p, r, a.s);
    BuiltCounts(p, l, s);
    BuiltCounts(p, r, a.s);
    ShuffledKinded(p, s, a, MergingOf(l), AllPartitions(l), b, MergingOf(r), AllPartitions(r), Partitions(l),
                   Partitions(r));
  }

  lemma ClosedPairKinded(rel: Rel, s: State, a: Visit, ma: Merging, pa: bool, b: Visit, mb: Merging, pb: bool)
    requires Kinded(s, a, ma, pa) && Kinded(Closed(a).s, b, mb, pb)
    requires rel.BroadcastLeft? && rel.positions.Marks? ==> rel.positions.ranks > 0
    ensures rel.BroadcastRight? ==> Kinded(s, Joined(Closed(a), b, false).joins, Jointly(ma, mb), false)
    ensures rel.BroadcastLeft? ==> Kinded(s, Merged(Joined(Closed(a), b, true), rel.positions), Jointly(ma, mb), false)
    ensures rel.UnionAll? ==> Kinded(s, Visit(b.s, a.list + b.list), Jointly(ma, mb), pa && pb)
  {
    match rel
    case BroadcastRight(_, _) => JoinedKinded(s, a, ma, pa, b, mb, pb, false);
    case BroadcastLeft(_, _, positions) =>
      JoinedKinded(s, a, ma, pa, b, mb, pb, true);
      if !positions.Direct? { MergedKinded(s, Joined(Closed(a), b, true), Jointly(ma, mb), positions); }
    case UnionAll(_, _) => UnionKinded(s, a, ma, pa, b, mb, pb);
    case _ =>
  }

  /** The finished graph has merge tasks exactly if the plan merges, and they read partition tasks exactly if the plan
    is matched. */
  lemma GraphMatches(p: nat, rel: Rel)
    requires p > 0 && Valid(p, rel)
    ensures (HasMerges(GraphOf(p, rel).g, 0) <==> Merges(rel)) && (MergesParts(GraphOf(p, rel).g, 0) <==> Matched(rel))
  {
    BuiltKinded(p, rel, Empty());
  }
}
