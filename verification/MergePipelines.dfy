/** The merge tasks of a shuffle join read the same partition tasks, but lie in neighbouring pipelines, which round
  robin deals to different ranks. */
module MergePipelines {
  import opened TaskGraph
  import opened Pipelines
  import opened BuilderState
  import opened Relations
  import opened PlanGraphs

  // ---------- Twins ----------

  /** A finished graph with the roots of its stages. */
  datatype Final = Final(g: Graph, roots: seq<seq<nat>>)

  /** `s` is a state on the way to the finished graph. */
  ghost predicate Within(f: Final, s: State)
  {
    WellFormed(f.g) && s.g <= f.g && s.roots <= f.roots && |s.roots| == s.stage
  }

  /** Merge tasks that read the same root of an earlier stage. */
  ghost predicate Twins(f: Final, t: nat, u: nat)
    requires WellFormed(f.g)
  {
    t < |f.g| && u < |f.g| && f.g[t].kind.Merge? && f.g[u].kind.Merge? && exists d :: Shared(f, t, u, d)
  }

  ghost predicate Shared(f: Final, t: nat, u: nat, d: nat)
    requires WellFormed(f.g) && t < |f.g| && u < |f.g|
  {
    d in f.g[t].deps && d in f.g[u].deps && f.g[d].stage < |f.roots| && d in f.roots[f.g[d].stage]
  }

  /** Twins in neighbouring pipelines. */
  ghost predicate Torn(f: Final)
    requires WellFormed(f.g)
  {
    exists t, u, j: nat :: Twins(f, t, u) && TornAt(f, t, u, j)
  }

  ghost predicate TornAt(f: Final, t: nat, u: nat, j: nat)
    requires WellFormed(f.g)
  {
    t < |f.g| && u < |f.g| && ReachedByRoot(f.g, f.roots, t, j) && ReachedByRoot(f.g, f.roots, u, j + 1)
  }

  /** Twins reached from neighbours among the tasks handed on, in the current stage. */
  ghost predicate Parting(f: Final, stage: nat, list: seq<nat>)
    requires WellFormed(f.g)
  {
    exists t, u, k: nat :: Twins(f, t, u) && PartsAt(f, stage, list, t, u, k)
  }

  ghost predicate PartsAt(f: Final, stage: nat, list: seq<nat>, t: nat, u: nat, k: nat)
    requires WellFormed(f.g)
  {
    k + 1 < |list| && Leads(f.g, stage, list[k], t) && Leads(f.g, stage, list[k + 1], u)
  }

  ghost predicate Leads(g: Graph, stage: nat, x: nat, t: nat)
    requires WellFormed(g)
  {
    x < |g| && g[x].stage == stage && Reaches(g, x, t)
  }

  ghost predicate Apart(f: Final, v: Visit)
    requires WellFormed(f.g)
  {
    Torn(f) || Parting(f, v.s.stage, v.list)
  }

  /** New tasks that use one task of the list each stay neighbours. */
  lemma PartingCarried(f: Final, s: State, list: seq<nat>, deps: seq<seq<nat>>, kind: TaskKind)
    requires Within(f, Plus(s, deps, kind).s) && Parting(f, s.stage, list) && |deps| == |list|
    requires forall k :: 0 <= k < |list| ==> list[k] in deps[k]
    ensures Parting(f, s.stage, Plus(s, deps, kind).list)
  {
    var t, u, k: nat :| Twins(f, t, u) && PartsAt(f, s.stage, list, t, u, k);
    LeadsOn(f, s, list, deps, kind, k, t);
    LeadsOn(f, s, list, deps, kind, k + 1, u);
    assert PartsAt(f, s.stage, Plus(s, deps, kind).list, t, u, k);
  }

  lemma LeadsOn(f: Final, s: State, list: seq<nat>, deps: seq<seq<nat>>, kind: TaskKind, k: nat, t: nat)
    requires Within(f, Plus(s, deps, kind).s) && k < |list| == |deps| && list[k] in deps[k]
    requires Leads(f.g, s.stage, list[k], t)
    ensures Leads(f.g, s.stage, Plus(s, deps, kind).list[k], t)
  {
    var x := Plus(s, deps, kind).list[k];
    assert f.g[x] == Plus(s, deps, kind).s.g[x] == Task(s.stage, deps[k], kind);
    var i :| 0 <= i < |deps[k]| && deps[k][i] == list[k];
    assert f.g[x].deps[i] == list[k];
  }

  /** Neighbours of the current stage are neighbours among its roots. */
  lemma {:induction false} OfStageNext(g: Graph, ts: seq<nat>, stage: nat, k: nat) returns (j: nat)
    requires InGraph(g, ts) && k + 1 < |ts| && g[ts[k]].stage == stage && g[ts[k + 1]].stage == stage
    ensures j + 1 < |OfStage(g, ts, stage)|
    ensures OfStage(g, ts, stage)[j] == ts[k] && OfStage(g, ts, stage)[j + 1] == ts[k + 1]
  {
    var n := |ts| - 1;
    if k + 1 < n {
      j := OfStageNext(g, ts[..n], stage, k);
    } else {
      assert ts[..n][..k] == ts[..k];
      j := |OfStage(g, ts[..k], stage)|;
    }
  }

  lemma ClosedApart(f: Final, v: Visit)
    requires Within(f, Closed(v).s) && InGraph(v.s.g, v.list) && Apart(f, v)
    ensures Torn(f)
  {
    if !Torn(f) {
      var t, u, k: nat :| Twins(f, t, u) && PartsAt(f, v.s.stage, v.list, t, u, k);
      var j := OfStageNext(v.s.g, v.list, v.s.stage, k);
      ReachesStays(f.g, v.list[k], t);
      ReachesStays(f.g, v.list[k + 1], u);
      assert f.roots[v.s.stage] == OfStage(v.s.g, v.list, v.s.stage);
      assert TornAt(f, t, u, j);
    }
  }

  lemma MappedApart(f: Final, v: Visit, kind: TaskKind := Ordinary)
    requires Within(f, Mapped(v, kind).s) && Apart(f, v)
    ensures Apart(f, Mapped(v, kind))
  {
    if !Torn(f) { PartingCarried(f, v.s, v.list, Singles(v.list), kind); }
  }

  lemma GatheredApart(f: Final, v: Visit)
    requires Within(f, Gathered(v).s) && InGraph(v.s.g, v.list) && Apart(f, v)
    ensures Torn(f)
  {
    if |v.list| == 1 {
      if t, u, k: nat :| Twins(f, t, u) && PartsAt(f, v.s.stage, v.list, t, u, k) {
        assert false;
      }
    } else {
      ClosedApart(f, v);
    }
  }

  // ---------- States on the way ----------

  lemma PlusWithin(f: Final, s: State, deps: seq<seq<nat>>, kind: TaskKind := Ordinary)
    requires Within(f, Plus(s, deps, kind).s)
    ensures Within(f, s)
  {
    assert s.g <= Plus(s, deps, kind).s.g;
  }

  lemma ClosedWithin(f: Final, v: Visit)
    requires Within(f, Closed(v).s)
    ensures Within(f, v.s)
  {
    assert v.s.roots <= Closed(v).s.roots;
  }

  lemma GatheredWithin(f: Final, v: Visit)
    requires Within(f, Gathered(v).s)
    ensures Within(f, v.s)
  {
    if |v.list| != 1 {
      PlusWithin(f, Closed(v).s, [v.list]);
      ClosedWithin(f, v);
    }
  }

  lemma AggregatedApart(f: Final, v: Visit)
    requires Within(f, Aggregated(v).s)
    ensures Within(f, v.s) && (Apart(f, v) ==> Torn(f))
  {
    var m := Mapped(v);
    PlusWithin(f, Mapped(Gathered(m)).s, Singles(Mapped(Gathered(m)).list));
    PlusWithin(f, Gathered(m).s, Singles(Gathered(m).list));
    GatheredWithin(f, m);
    PlusWithin(f, v.s, Singles(v.list));
    if Apart(f, v) {
      MappedApart(f, v);
      GatheredApart(f, m);
    }
  }

  lemma OrderedApart(f: Final, v: Visit)
    requires Within(f, Ordered(v).s) && InGraph(v.s.g, v.list)
    ensures Within(f, v.s) && (Apart(f, v) ==> Torn(f))
  {
    var m := Mapped(Gathered(v));
    PlusWithin(f, Closed(m).s, JoinsOf(v.list, m.list[0], false));
    ClosedWithin(f, m);
    PlusWithin(f, Gathered(v).s, Singles(Gathered(v).list));
    GatheredWithin(f, v);
    if Apart(f, v) { GatheredApart(f, v); }
  }

  /** What the child of a relation has kept apart stays apart. */
  lemma OneApart(p: nat, rel: Rel, s: State, f: Final, v: Visit)
    requires !rel.Read? && !rel.BroadcastRight? && !rel.BroadcastLeft? && !rel.ShuffleJoin? && !rel.UnionAll?
    requires v == Built(p, Child(rel), s) && Within(f, Built(p, rel, s).s) && InGraph(v.s.g, v.list)
    ensures Within(f, v.s) && (Apart(f, v) ==> Apart(f, Built(p, rel, s)))
  {
    match rel
    case ReadIn(n, _) =>
      PlusWithin(f, Gathered(v).s, Copies(n, Gathered(v).list));
      GatheredWithin(f, v);
      if Apart(f, v) { GatheredApart(f, v); }
    case Each(_) =>
      PlusWithin(f, v.s, Singles(v.list));
      if Apart(f, v) { MappedApart(f, v); }
    case Gather(_) =>
      PlusWithin(f, Gathered(v).s, Singles(Gathered(v).list));
      GatheredWithin(f, v);
      if Apart(f, v) { GatheredApart(f, v); }
    case Aggregate(_) => AggregatedApart(f, v);
    case PartitionWindow(_) =>
      var total := Aggregated(v);
      PlusWithin(f, Closed(total).s, JoinsOf(v.list, total.list[0], false));
      ClosedWithin(f, total);
      AggregatedApart(f, v);
    case OrderedWindow(_) =>
      OrderedApart(f, Mapped(v));
      PlusWithin(f, v.s, Singles(v.list));
      if Apart(f, v) { MappedApart(f, v); }
    case Shuffle(_) =>
      ClosedWithin(f, Mapped(v, Partition));
      PlusWithin(f, v.s, Singles(v.list), Partition);
      if Apart(f, v) {
        MappedApart(f, v, Partition);
        ClosedApart(f, Mapped(v, Partition));
      }
  }

  // ---------- Broadcast joins ----------

  lemma JoinedApart(f: Final, a: Visit, b: Visit, left: bool)
    requires Within(f, Joined(a, b, left).joins.s)
    ensures Within(f, b.s) && (Apart(f, b) ==> Apart(f, Joined(a, b, left).joins))
  {
    var c := Concatenated(b.s, a.list);
    var deps := JoinsOf(b.list, c.list[0], left);
    PlusWithin(f, c.s, deps);
    if |a.list| != 1 { PlusWithin(f, b.s, [a.list]); }
    if Parting(f, b.s.stage, b.list) { PartingCarried(f, c.s, b.list, deps, Ordinary); }
  }

  lemma MergedApart(f: Final, j: Broadcast, positions: Positions)
    requires Within(f, Merged(j, positions).s) && InGraph(j.joins.s.g, j.joins.list)
    ensures Within(f, j.joins.s) && (Apart(f, j.joins) ==> Apart(f, Merged(j, positions)))
  {
    if !positions.Direct? {
      var lists := ListTasks(j.joins, positions);
      PlusWithin(f, lists.s, [[j.input] + lists.list]);
      if positions.Marks? {
        var n := Min(positions.ranks, |j.joins.list|);
        ClosedWithin(f, Plus(Closed(j.joins).s, Copies(n, [])));
        PlusWithin(f, Closed(j.joins).s, Copies(n, []));
      }
      ClosedWithin(f, j.joins);
      if Apart(f, j.joins) { ClosedApart(f, j.joins); }
    }
  }

  lemma UnionApart(f: Final, a: seq<nat>, b: Visit)
    requires WellFormed(f.g) && Apart(f, b)
    ensures Apart(f, Visit(b.s, a + b.list))
  {
    if !Torn(f) {
      var t, u, k: nat :| Twins(f, t, u) && PartsAt(f, b.s.stage, b.list, t, u, k);
      assert PartsAt(f, b.s.stage, a + b.list, t, u, |a| + k);
    }
  }

  // ---------- Shuffle joins ----------

  ghost predicate AllClosed(v: Visit)
  {
    forall k :: 0 <= k < |v.list| ==> v.list[k] < |v.s.g| && v.s.g[v.list[k]].stage < v.s.stage
  }

  lemma UnionClosed(a: Visit, b: Visit)
    requires AllClosed(a) && AllClosed(b) && a.s.g <= b.s.g && a.s.stage <= b.s.stage
    ensures AllClosed(Visit(b.s, a.list + b.list))
  {
    forall k | 0 <= k < |a.list| ensures b.s.g[a.list[k]] == a.s.g[a.list[k]] {
    }
  }

  lemma MappedClosed(v: Visit, kind: TaskKind)
    ensures AllClosed(Closed(Mapped(v, kind)))
  {
  }

  /** Partition tasks lie in closed stages. */
  lemma {:induction false} PartsAreClosed(p: nat, rel: Rel, s: State)
    requires p > 0 && Valid(p, rel) && Well(s) && Numbered(s) && AllPartitions(rel)
    ensures AllClosed(Built(p, rel, s))
  {
    if rel.UnionAll? {
      var a := Built(p, rel.l, s);
      BuiltOk(p, rel.l, s, ForecastOf(p, rel.l));
      ClosedOk(s, a, ForecastOf(p, rel.l).claims);
      BuiltOk(p, rel.r, Closed(a).s, ForecastOf(p, rel.r));
      PartsAreClosed(p, rel.l, s);
      PartsAreClosed(p, rel.r, Closed(a).s);
      UnionClosed(Closed(a), Built(p, rel.r, Closed(a).s));
    } else {
      MappedClosed(Built(p, rel.c, s), Partition);
    }
  }

  /** The merge tasks of a side are twins. */
  lemma MergesPart(f: Final, p: nat, s: State, list: seq<nat>)
    requires Within(f, Plus(s, Copies(p, list), Merge).s) && p > 1 && list != []
    requires list[0] < |f.g| && f.g[list[0]].stage < |f.roots| && list[0] in f.roots[f.g[list[0]].stage]
    ensures Parting(f, s.stage, Plus(s, Copies(p, list), Merge).list)
  {
    var v := Plus(s, Copies(p, list), Merge);
    var t, u := v.list[0], v.list[1];
    assert f.g[t] == v.s.g[t] == Task(s.stage, list, Merge) && f.g[u] == v.s.g[u] == Task(s.stage, list, Merge);
    assert Shared(f, t, u, list[0]);
    assert PartsAt(f, s.stage, v.list, t, u, 0);
  }

  lemma ShuffledWithin(p: nat, f: Final, a: Visit, b: Visit, leftPartitioned: bool, rightPartitioned: bool)
    requires Within(f, Shuffled(p, a, b, leftPartitioned, rightPartitioned).s)
    ensures var left := Side(p, b.s, a.list, leftPartitioned);
      Within(f, Side(p, left.s, b.list, rightPartitioned).s) && Within(f, left.s) && Within(f, b.s)
  {
    var left := Side(p, b.s, a.list, leftPartitioned);
    var right := Side(p, left.s, b.list, rightPartitioned);
    PlusWithin(f, right.s, Pairs(left.list, right.list));
    if rightPartitioned { PlusWithin(f, left.s, Copies(p, b.list), Merge); }
    if leftPartitioned { PlusWithin(f, b.s, Copies(p, a.list), Merge); }
  }

  /** Join `i` uses the input `i` of both sides. */
  lemma ShuffledApart(p: nat, f: Final, a: Visit, b: Visit, leftPartitioned: bool, rightPartitioned: bool)
    requires Within(f, Shuffled(p, a, b, leftPartitioned, rightPartitioned).s)
    requires (leftPartitioned || |a.list| == p) && (rightPartitioned || |b.list| == p)
    requires var left := Side(p, b.s, a.list, leftPartitioned);
      Torn(f) || Parting(f, b.s.stage, left.list) ||
      Parting(f, b.s.stage, Side(p, left.s, b.list, rightPartitioned).list)
    ensures Apart(f, Shuffled(p, a, b, leftPartitioned, rightPartitioned))
  {
    var left := Side(p, b.s, a.list, leftPartitioned);
    var right := Side(p, left.s, b.list, rightPartitioned);
    var deps := Pairs(left.list, right.list);
    if Parting(f, b.s.stage, left.list) {
      PartingCarried(f, right.s, left.list, deps, Ordinary);
    } else if Parting(f, b.s.stage, right.list) {
      PartingCarried(f, right.s, right.list, deps, Ordinary);
    }
  }

  /** A task handed on in the current stage. */
  lemma PartingIsOpen(f: Final, s0: State, v: Visit, c: Claims)
    requires Handed(s0, v, c) && Within(f, v.s) && Parting(f, v.s.stage, v.list)
    ensures !NoneOpen(s0, v.s) && exists k :: 0 <= k < |v.list| && v.s.g[v.list[k]].stage == v.s.stage
  {
    var t, u, k: nat :| Twins(f, t, u) && PartsAt(f, v.s.stage, v.list, t, u, k);
    assert f.g[v.list[k]] == v.s.g[v.list[k]];
  }

  /** A side that is not merged. */
  lemma SideApart(f: Final, stage: nat, s0: State, v: Visit, c: Claims)
    requires Handed(s0, v, c) && Within(f, v.s) && Apart(f, v) && (NoneOpen(s0, v.s) || stage == v.s.stage)
    ensures Torn(f) || Parting(f, stage, v.list)
  {
    if !Torn(f) { PartingIsOpen(f, s0, v, c); }
  }

  /** A merged side. */
  lemma SidePart(p: nat, f: Final, s: State, s0: State, v: Visit, c: Claims)
    requires p > 1 && Handed(s0, v, c) && Within(f, v.s) && Within(f, Side(p, s, v.list, true).s) && AllClosed(v)
    ensures Parting(f, s.stage, Side(p, s, v.list, true).list)
  {
    assert IsRoot(v.s, v.list[0]) && f.g[v.list[0]] == v.s.g[v.list[0]];
    MergesPart(f, p, s, v.list);
  }

  lemma SidesApart(p: nat, f: Final, s: State, a: Visit, fa: Forecast, b: Visit, fb: Forecast, leftPartitioned: bool,
                   rightPartitioned: bool)
    requires p > 1 && BuiltAs(s, a, fa) && BuiltAs(a.s, b, fb)
    requires Within(f, a.s) && Within(f, Shuffled(p, a, b, leftPartitioned, rightPartitioned).s)
    requires if leftPartitioned then AllClosed(a) else |a.list| == p
    requires if rightPartitioned then AllClosed(b) else |b.list| == p
    requires leftPartitioned || rightPartitioned || Apart(f, b) ||
             (Apart(f, a) && (fa.open ==> b.s.stage == a.s.stage))
    ensures Apart(f, Shuffled(p, a, b, leftPartitioned, rightPartitioned))
  {
    var left := Side(p, b.s, a.list, leftPartitioned);
    ShuffledWithin(p, f, a, b, leftPartitioned, rightPartitioned);
    if leftPartitioned {
      SidePart(p, f, b.s, s, a, fa.claims);
    } else if rightPartitioned {
      SidePart(p, f, left.s, a.s, b, fb.claims);
    } else if Apart(f, b) {
      SideApart(f, b.s.stage, a.s, b, fb.claims);
    } else {
      SideApart(f, b.s.stage, s, a, fa.claims);
    }
    ShuffledApart(p, f, a, b, leftPartitioned, rightPartitioned);
  }

  lemma EarlierWithin(f: Final, s: State, s': State)
    requires Within(f, s') && Well(s) && Extends(s, s')
    ensures Within(f, s)
  {
  }

  // ---------- Every plan ----------

  ghost predicate Sound(p: nat, rel: Rel)
  {
    Valid(p, rel) && Safe(p, rel) && Matched(rel)
  }

  /** A plan that merges, with at least two partitions, tears some twins apart. */
  lemma {:induction false} BuiltApart(p: nat, rel: Rel, s: State, f: Final)
    requires p > 1 && Sound(p, rel) && Merges(rel) && Well(s) && Numbered(s) && Within(f, Built(p, rel, s).s)
    ensures Apart(f, Built(p, rel, s))
    decreases rel, 1
  {
    if rel.ShuffleJoin? {
      var a := Built(p, rel.l, s);
      ShuffleJoinApart(p, rel, s, f, a, Built(p, rel.r, a.s));
    } else if rel.BroadcastRight? || rel.BroadcastLeft? || rel.UnionAll? {
      ClosedPairApart(p, rel, s, f);
    } else {
      var c := Child(rel);
      BuiltOk(p, c, s, ForecastOf(p, c));
      OneApart(p, rel, s, f, Built(p, c, s));
      BuiltApart(p, c, s, f);
    }
  }

  lemma PairApart(p: nat, rel: Rel, s: State, f: Final, a: Visit, b: Visit)
    requires rel.BroadcastRight? || rel.BroadcastLeft? || rel.UnionAll?
    requires a == Built(p, if rel.BroadcastRight? then rel.r else rel.l, s)
    requires b == Built(p, if rel.BroadcastRight? then rel.l else rel.r, Closed(a).s)
    requires Within(f, Built(p, rel, s).s)
    ensures Within(f, b.s) && (Apart(f, b) ==> Apart(f, Built(p, rel, s)))
  {
    match rel
    case BroadcastRight(_, _) => JoinedApart(f, Closed(a), b, false);
    case BroadcastLeft(_, _, positions) =>
      MergedApart(f, Joined(Closed(a), b, true), positions);
      JoinedApart(f, Closed(a), b, true);
    case UnionAll(_, _) =>
      if Apart(f, b) { UnionApart(f, a.list, b); }
  }

  lemma {:induction false} ClosedPairApart(p: nat, rel: Rel, s: State, f: Final)
    requires p > 1 && Sound(p, rel) && Merges(rel) && Well(s) && Numbered(s) && Within(f, Built(p, rel, s).s)
    requires rel.BroadcastRight? || rel.BroadcastLeft? || rel.UnionAll?
    ensures Apart(f, Built(p, rel, s))
    decreases rel, 0
  {
    var first, second := if rel.BroadcastRight? then rel.r else rel.l, if rel.BroadcastRight? then rel.l else rel.r;
    var a := Built(p, first, s);
    BuiltOk(p, first, s, ForecastOf(p, first));
    ClosedOk(s, a, ForecastOf(p, first).claims);
    var b := Built(p, second, Closed(a).s);
    BuiltOk(p, second, Closed(a).s, ForecastOf(p, second));
    PairApart(p, rel, s, f, a, b);
    if Merges(second) {
      BuiltApart(p, second, Closed(a).s, f);
    } else {
      EarlierWithin(f, Closed(a).s, b.s);
      ClosedWithin(f, a);
      BuiltApart(p, first, s, f);
      ClosedApart(f, a);
    }
  }

  /** The sides of a shuffle join in a safe, matched plan. */
  lemma SidesReady(p: nat, l: Rel, r: Rel, s: State) returns (fa: Forecast, fb: Forecast)
    requires p > 0 && Sound(p, ShuffleJoin(l, r)) && Well(s) && Numbered(s)
    ensures var a, b := Built(p, l, s), Built(p, r, Built(p, l, s).s);
      BuiltAs(s, a, fa) && BuiltAs(a.s, b, fb) && (fa.open ==> b.s.stage == a.s.stage) &&
      (if Partitions(l) then AllClosed(a) else |a.list| == p) && (if Partitions(r) then AllClosed(b) else |b.list| == p)
  {
    var a := Built(p, l, s);
    fa, fb := ForecastOf(p, l), ForecastOf(p, r);
    BuiltOk(p, l, s, fa);
    BuiltOk(p, r, a.s, fb);
    BuiltCounts(p, r, a.s);
    if Partitions(l) { PartsAreClosed(p, l, s); }
    if Partitions(r) { PartsAreClosed(p, r, a.s); }
  }

  lemma {:induction false} ShuffleJoinApart(p: nat, rel: Rel, s: State, f: Final, a: Visit, b: Visit)
    requires p > 1 && rel.ShuffleJoin? && Sound(p, rel) && Merges(rel) && Well(s) && Numbered(s)
    requires a == Built(p, rel.l, s) && b == Built(p, rel.r, a.s)
    requires Within(f, Shuffled(p, a, b, Partitions(rel.l), Partitions(rel.r)).s)
    ensures Apart(f, Shuffled(p, a, b, Partitions(rel.l), Partitions(rel.r)))
    decreases rel, 0
  {
    var l, r := rel.l, rel.r;
    var fa, fb := SidesReady(p, l, r, s);
    ShuffledWithin(p, f, a, b, Partitions(l), Partitions(r));
    EarlierWithin(f, a.s, b.s);
    if Merges(l) { BuiltApart(p, l, s, f); }
    if Merges(r) { BuiltApart(p, r, a.s, f); }
    SidesApart(p, f, s, a, fa, b, fb, Partitions(l), Partitions(r));
  }

  /** So two merge tasks that read the same root of an earlier stage lie in neighbouring pipelines of the finished
    graph. */
  lemma MergesAreTorn(p: nat, rel: Rel)
    requires p > 1 && Sound(p, rel) && Merges(rel)
    ensures var s := GraphOf(p, rel); WellFormed(s.g) && Torn(Final(s.g, s.roots))
  {
    var v, s := Built(p, rel, Empty()), GraphOf(p, rel);
    GraphIs(p, rel);
    var f := Final(s.g, s.roots);
    BuiltOk(p, rel, Empty(), ForecastOf(p, rel));
    ClosedWithin(f, v);
    BuiltApart(p, rel, Empty(), f);
    ClosedApart(f, v);
  }
}
