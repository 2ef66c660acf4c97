/** The task graph of a plan: what the builder makes of each relation, and the theorem about all plans. */
module PlanGraphs {
  import opened TaskGraph
  import opened Pipelines
  import opened BuilderState
  import opened Relations

  // ---------- Dependencies of new tasks ----------

  /** `held` is made up of the two lists, which share nothing. */
  ghost predicate Holds(held: seq<nat>, a: seq<nat>, b: seq<nat>)
  {
    (forall k :: 0 <= k < |a| ==> a[k] in held && a[k] !in b) &&
    (forall k :: 0 <= k < |b| ==> b[k] in held) &&
    (forall k :: 0 <= k < |held| ==> held[k] in a || held[k] in b) &&
    (forall i, j :: 0 <= i < j < |a| ==> a[i] != a[j]) &&
    (forall i, j :: 0 <= i < j < |b| ==> b[i] != b[j])
  }

  function Copies(n: nat, list: seq<nat>): seq<seq<nat>>
  {
    seq(n, _ => list)
  }

  function Singles(list: seq<nat>): seq<seq<nat>>
  {
    seq(|list|, i requires 0 <= i < |list| => [list[i]])
  }

  function Pairs(left: seq<nat>, right: seq<nat>): seq<seq<nat>>
  {
    seq(Min(|left|, |right|), i requires 0 <= i < Min(|left|, |right|) => [left[i], right[i]])
  }

  function JoinsOf(list: seq<nat>, c: nat, broadcastLeft: bool): seq<seq<nat>>
  {
    seq(|list|, i requires 0 <= i < |list| => if broadcastLeft then [c, list[i]] else [list[i], c])
  }

  lemma TakesCopies(held: seq<nat>, list: seq<nat>, keep: seq<nat>, n: nat)
    requires Holds(held, list, keep) && n > 0
    ensures Takes(held, keep, [], Copies(n, list))
  {
    var deps := Copies(n, list);
    forall k | 0 <= k < |held| ensures held[k] in keep || Consumed(deps, held[k]) {
      assert held[k] in list ==> held[k] in deps[0];
    }
    forall k | 0 <= k < |keep| ensures !Consumed(deps, keep[k]) {
      assert keep[k] !in list;
    }
  }

  lemma TakesSingles(list: seq<nat>)
    ensures Takes(list, [], [], Singles(list))
  {
    var deps := Singles(list);
    forall k | 0 <= k < |list| ensures Consumed(deps, list[k]) {
      assert list[k] in deps[k];
    }
  }

  lemma TakesPairs(held: seq<nat>, left: seq<nat>, right: seq<nat>)
    requires |left| == |right| && Holds(held, right, left)
    ensures Takes(held, [], [], Pairs(left, right))
  {
    var deps := Pairs(left, right);
    forall k | 0 <= k < |held| ensures Consumed(deps, held[k]) {
      if held[k] in left {
        var i :| 0 <= i < |left| && left[i] == held[k];
        assert held[k] == deps[i][0];
      } else {
        var i :| 0 <= i < |right| && right[i] == held[k];
        assert held[k] == deps[i][1];
      }
    }
  }

  lemma TakesJoins(held: seq<nat>, list: seq<nat>, c: nat, broadcastLeft: bool)
    requires list != [] && Holds(held, [c], list)
    ensures Takes(held, [], [], JoinsOf(list, c, broadcastLeft))
  {
    var deps := JoinsOf(list, c, broadcastLeft);
    assert [c][0] in held;
    forall k | 0 <= k < |held| ensures Consumed(deps, held[k]) {
      if held[k] in list {
        var i :| 0 <= i < |list| && list[i] == held[k];
        assert held[k] in deps[i];
      } else {
        assert held[k] in deps[0];
      }
    }
  }

  lemma TakesMerge(lists: seq<nat>, c: nat)
    ensures Takes(lists, [], [c], [[c] + lists])
  {
    var deps := [[c] + lists];
    assert c in deps[0];
    forall k | 0 <= k < |lists| ensures Consumed(deps, lists[k]) {
      assert lists[k] in deps[0];
    }
  }

  /** The second visit to the input of a window: its tasks are used again, beside the held aggregate. */
  lemma TakesAgain(list: seq<nat>, c: nat)
    requires list != []
    ensures Takes([c], [], list, JoinsOf(list, c, false))
  {
    var deps := JoinsOf(list, c, false);
    assert c in deps[0];
    forall k | 0 <= k < |list| ensures Consumed(deps, list[k]) {
      assert list[k] in deps[k];
    }
  }

  // ---------- The graph ----------

  /** What a visit leaves behind: the state, and the tasks handed to the parent. */
  datatype Visit = Visit(s: State, list: seq<nat>)

  function Plus(s: State, deps: seq<seq<nat>>, kind: TaskKind := Ordinary): (v: Visit)
    ensures |v.list| == |deps| && Counts(v.s, s, |deps|, 0)
  {
    Visit(WithTasks(s, deps, kind), NewIds(s, deps))
  }

  /** `s'` has so many more tasks and closed stages than `s`. */
  predicate Counts(s': State, s: State, tasks: nat, stages: nat)
  {
    |s'.g| == |s.g| + tasks && s'.stage == s.stage + stages
  }

  /** One task per task. */
  function Mapped(v: Visit, kind: TaskKind := Ordinary): (r: Visit)
    ensures |r.list| == |v.list| && Counts(r.s, v.s, |v.list|, 0)
  {
    Plus(v.s, Singles(v.list), kind)
  }

  /** `insert_pipeline_breaker`. */
  ghost function Closed(v: Visit): (r: Visit)
    ensures Counts(r.s, v.s, 0, 1)
  {
    Visit(Broken(v.s, v.list), v.list)
  }

  /** `concatenate` without a pipeline breaker. */
  function Concatenated(s: State, list: seq<nat>): (v: Visit)
    ensures |v.list| == 1 && Counts(v.s, s, Extra(|list|), 0)
  {
    if |list| == 1 then Visit(s, list) else Plus(s, [list])
  }

  /** `concatenate` with a pipeline breaker. */
  ghost function Gathered(v: Visit): (r: Visit)
    ensures |r.list| == 1 && Counts(r.s, v.s, Extra(|v.list|), Extra(|v.list|))
  {
    if |v.list| == 1 then v else Plus(Broken(v.s, v.list), [v.list])
  }

  /** Aggregate each partition, concatenate, aggregate again, project. */
  ghost function Aggregated(v: Visit): (r: Visit)
    ensures |r.list| == 1 && Counts(r.s, v.s, |v.list| + Extra(|v.list|) + 2, Extra(|v.list|))
  {
    Mapped(Mapped(Gathered(Mapped(v))))
  }

  /** The inputs of the shuffled joins from one side: a merge task for each partition, or the tasks as they are if that
    side is split already. */
  function Side(p: nat, s: State, list: seq<nat>, partitioned: bool): (v: Visit)
    ensures Counts(v.s, s, if partitioned then p else 0, 0)
  {
    if partitioned then Plus(s, Copies(p, list), Merge) else Visit(s, list)
  }

  ghost function Shuffled(p: nat, a: Visit, b: Visit, leftPartitioned: bool, rightPartitioned: bool): (v: Visit)
    ensures (leftPartitioned || |a.list| == p) && (rightPartitioned || |b.list| == p) ==>
      |v.list| == p &&
      Counts(v.s, b.s, (if leftPartitioned then p else 0) + (if rightPartitioned then p else 0) + p, 0)
  {
    var left := Side(p, b.s, a.list, leftPartitioned);
    var right := Side(p, left.s, b.list, rightPartitioned);
    Plus(right.s, Pairs(left.list, right.list))
  }

  /** The join tasks of a broadcast join and the broadcast input they share. */
  datatype Broadcast = Broadcast(joins: Visit, input: nat)

  ghost function Joined(b: Visit, v: Visit, left: bool): (r: Broadcast)
    ensures |r.joins.list| == |v.list| && Counts(r.joins.s, v.s, Extra(|b.list|) + |v.list|, 0)
  {
    var c := Concatenated(v.s, b.list);
    Broadcast(Plus(c.s, JoinsOf(v.list, c.list[0], left)), c.list[0])
  }

  /** The tasks that yield the position lists, in a closed stage: the joins themselves, or extraction tasks. */
  ghost function ListTasks(joins: Visit, positions: Positions): (r: Visit)
    ensures if positions.Marks? then Counts(r.s, joins.s, Min(positions.ranks, |joins.list|), 2)
            else Counts(r.s, joins.s, 0, 1)
  {
    if positions.Marks?
    then Closed(Plus(Closed(joins).s, Copies(Min(positions.ranks, |joins.list|), [])))
    else Closed(joins)
  }

  ghost function Merged(b: Broadcast, positions: Positions): (r: Visit)
    ensures |r.list| == if positions.Direct? then |b.joins.list| else 1
    ensures match positions
      case Direct => r == b.joins
      case Lists => Counts(r.s, b.joins.s, 1, 1)
      case Marks(ranks) => Counts(r.s, b.joins.s, Min(ranks, |b.joins.list|) + 1, 2)
  {
    if positions.Direct? then b.joins
    else
      var lists := ListTasks(b.joins, positions);
      Plus(lists.s, [[b.input] + lists.list])
  }

  /** The input joined with its own aggregate: the tasks of the input are found in the cache. */
  ghost function Windowed(v: Visit): (r: Visit)
    ensures |r.list| == |v.list| && Counts(r.s, v.s, 2 * |v.list| + Extra(|v.list|) + 2, Extra(|v.list|) + 1)
  {
    var total := Closed(Aggregated(v));
    Plus(total.s, JoinsOf(v.list, total.list[0], false))
  }

  /** The input, which has row ids, joined with the window over its concatenation. */
  ghost function Ordered(v: Visit): (r: Visit)
    ensures |r.list| == |v.list| && Counts(r.s, v.s, |v.list| + Extra(|v.list|) + 1, Extra(|v.list|) + 1)
  {
    var total := Closed(Mapped(Gathered(v)));
    Plus(total.s, JoinsOf(v.list, total.list[0], false))
  }

  ghost function Built(p: nat, rel: Rel, s: State): Visit
  {
    match rel
    case Read(n) => Plus(s, Copies(n, []))
    case ReadIn(n, sub) =>
      var v := Gathered(Built(p, sub, s));
      Plus(v.s, Copies(n, v.list))
    case Each(c) => Mapped(Built(p, c, s))
    case Gather(c) => Mapped(Gathered(Built(p, c, s)))
    case Aggregate(c) => Aggregated(Built(p, c, s))
    case PartitionWindow(c) => Windowed(Built(p, c, s))
    case OrderedWindow(c) => Ordered(Mapped(Built(p, c, s)))
    case BroadcastRight(l, r) =>
      var b := Closed(Built(p, r, s));
      Joined(b, Built(p, l, b.s), false).joins
    case BroadcastLeft(l, r, positions) =>
      var b := Closed(Built(p, l, s));
      Merged(Joined(b, Built(p, r, b.s), true), positions)
    case Shuffle(c) => Closed(Mapped(Built(p, c, s), Partition))
    case ShuffleJoin(l, r) =>
      var a := Built(p, l, s);
      var b := Built(p, r, a.s);
      Shuffled(p, a, b, Partitions(l), Partitions(r))
    case UnionAll(l, r) =>
      var a := Closed(Built(p, l, s));
      var b := Built(p, r, a.s);
      Visit(b.s, a.list + b.list)
  }

  // ---------- One step of a visit ----------

  /** The tasks of a visit are ready to be handed on. */
  ghost predicate Handed(s0: State, v: Visit, c: Claims)
  {
    Visiting(s0, v.s, v.list, c) && HeldRooted(v.s, v.list) && v.list != []
  }

  /** New tasks that use everything that is held, and perhaps more. */
  lemma PlusOk(s0: State, s: State, held: seq<nat>, c: Claims, extra: seq<nat>, deps: seq<seq<nat>>,
               kind: TaskKind := Ordinary)
    requires Visiting(s0, s, held, c) && Takes(held, [], extra, deps) && deps != []
    requires forall k :: 0 <= k < |extra| ==> |s0.g| <= extra[k] < |s.g|
    ensures Handed(s0, Plus(s, deps, kind), c.(rooted := c.rooted && HeldRooted(s, extra)))
    ensures !NoneOpen(s0, Plus(s, deps, kind).s)
  {
    AddedVisiting(s0, s, held, c, [], extra, deps, kind);
    assert [] + NewIds(s, deps) == NewIds(s, deps);
    NewIsOpen(s0, s, deps, kind);
  }

  lemma NewIsOpen(s0: State, s: State, deps: seq<seq<nat>>, kind: TaskKind)
    requires Well(WithTasks(s, deps, kind)) && |s0.g| <= |s.g| && deps != []
    ensures !NoneOpen(s0, WithTasks(s, deps, kind)) && HeldRooted(WithTasks(s, deps, kind), NewIds(s, deps))
  {
    assert WithTasks(s, deps, kind).g[|s.g|].stage == s.stage;
  }

  lemma NextOk(s0: State, s: State, held: seq<nat>, c: Claims, deps: seq<seq<nat>>, kind: TaskKind := Ordinary)
    requires Visiting(s0, s, held, c) && Takes(held, [], [], deps) && deps != []
    ensures Handed(s0, Plus(s, deps, kind), c) && !NoneOpen(s0, Plus(s, deps, kind).s)
  {
    PlusOk(s0, s, held, c, [], deps, kind);
  }

  lemma MappedOk(s0: State, v: Visit, c: Claims, kind: TaskKind := Ordinary)
    requires Visiting(s0, v.s, v.list, c) && v.list != []
    ensures Handed(s0, Mapped(v, kind), c) && !NoneOpen(s0, Mapped(v, kind).s)
  {
    TakesSingles(v.list);
    NextOk(s0, v.s, v.list, c, Singles(v.list), kind);
  }

  lemma ClosedOk(s0: State, v: Visit, c: Claims)
    requires Handed(s0, v, c)
    ensures Handed(s0, Closed(v), c) && NoneOpen(s0, Closed(v).s)
  {
    BrokenVisiting(s0, v.s, v.list, c);
    BrokenHeldRooted(v.s, v.list);
  }

  /** Tasks that all use everything that is held. */
  lemma CopiesOk(s0: State, v: Visit, c: Claims, n: nat)
    requires Visiting(s0, v.s, v.list, c) && n > 0
    ensures var r := Plus(v.s, Copies(n, v.list));
      Handed(s0, r, c) && !NoneOpen(s0, r.s)
  {
    TakesCopies(v.list, v.list, [], n);
    NextOk(s0, v.s, v.list, c, Copies(n, v.list));
  }

  lemma GatheredOk(s0: State, v: Visit, c: Claims)
    requires Handed(s0, v, c)
    ensures Handed(s0, Gathered(v), c)
  {
    if |v.list| != 1 {
      ClosedOk(s0, v, c);
      CopiesOk(s0, Closed(v), c, 1);
      assert Copies(1, v.list) == [v.list];
    }
  }

  // ---------- How many tasks and stages ----------

  lemma {:induction false} BuiltCounts(p: nat, rel: Rel, s: State)
    requires Valid(p, rel)
    ensures |Built(p, rel, s).list| == Num(p, rel)
    ensures Counts(Built(p, rel, s).s, s, Tasks(p, rel), Stages(p, rel))
    decreases rel, 1
  {
    match rel
    case Read(_) =>
    case ReadIn(_, sub) => BuiltCounts(p, sub, s);
    case Each(c) => BuiltCounts(p, c, s);
    case Gather(c) => BuiltCounts(p, c, s);
    case Aggregate(c) => BuiltCounts(p, c, s);
    case PartitionWindow(c) => BuiltCounts(p, c, s);
    case OrderedWindow(c) => BuiltCounts(p, c, s);
    case Shuffle(c) => BuiltCounts(p, c, s);
    case ShuffleJoin(l, r) =>
      BuiltCounts(p, l, s);
      BuiltCounts(p, r, Built(p, l, s).s);
    case _ => ClosedCounts(p, rel, s);
  }

  lemma {:induction false} ClosedCounts(p: nat, rel: Rel, s: State)
    requires Valid(p, rel) && (rel.BroadcastRight? || rel.BroadcastLeft? || rel.UnionAll?)
    ensures |Built(p, rel, s).list| == Num(p, rel)
    ensures Counts(Built(p, rel, s).s, s, Tasks(p, rel), Stages(p, rel))
    decreases rel, 0
  {
    match rel
    case BroadcastRight(l, r) =>
      BuiltCounts(p, r, s);
      BuiltCounts(p, l, Closed(Built(p, r, s)).s);
    case BroadcastLeft(l, r, _) =>
      BuiltCounts(p, l, s);
      BuiltCounts(p, r, Closed(Built(p, l, s)).s);
    case UnionAll(l, r) =>
      BuiltCounts(p, l, s);
      BuiltCounts(p, r, Closed(Built(p, l, s)).s);
  }

  // ---------- What can be told from the relation alone ----------

  /** What is known about a visit without looking at it: its claims, whether it leaves tasks in the current stage, and
    how many tasks it hands on. */
  datatype Forecast = Forecast(claims: Claims, open: bool, num: nat)

  function ForecastOf(p: nat, rel: Rel): Forecast
  {
    Forecast(Claims(Safe(p, rel), Safe(p, rel) && Plain(p, rel)), HasOpen(rel), Num(p, rel))
  }

  ghost predicate BuiltAs(s0: State, v: Visit, f: Forecast)
  {
    Handed(s0, v, f.claims) && |v.list| == f.num && (NoneOpen(s0, v.s) <==> !f.open)
  }

  /** The forecasts of children combine. */
  function Combined(p: nat, rel: Rel): Forecast
  {
    match rel
    case Read(n) => Forecast(Claims(true, true), true, n)
    case ReadIn(n, sub) => ForecastOf(p, sub).(open := true, num := n)
    case Each(c) => ForecastOf(p, c).(open := true)
    case Gather(c) => ForecastOf(p, c).(open := true, num := 1)
    case Aggregate(c) => ForecastOf(p, c).(open := true, num := 1)
    case PartitionWindow(c) => WindowForecast(ForecastOf(p, c))
    case OrderedWindow(c) => OrderedForecast(ForecastOf(p, c))
    case BroadcastRight(l, r) => JoinForecast(ForecastOf(p, r), ForecastOf(p, l))
    case BroadcastLeft(l, r, positions) =>
      if positions.Direct? then JoinForecast(ForecastOf(p, l), ForecastOf(p, r))
      else MergeForecast(ForecastOf(p, l), ForecastOf(p, r))
    case Shuffle(c) => ForecastOf(p, c).(open := false)
    case ShuffleJoin(l, r) => ShuffleForecast(p, ForecastOf(p, l), ForecastOf(p, r), Breaks(p, r))
    case UnionAll(l, r) =>
      Forecast(Both(ForecastOf(p, l).claims, ForecastOf(p, r).claims), HasOpen(r), Num(p, l) + Num(p, r))
  }

  function WindowForecast(f: Forecast): Forecast
  {
    Forecast(Claims(f.claims.safe, f.claims.rooted && !f.open), true, f.num)
  }

  function OrderedForecast(f: Forecast): Forecast
  {
    Forecast(Claims(f.claims.safe, f.claims.rooted && f.num != 1), true, f.num)
  }

  function JoinForecast(f: Forecast, f2: Forecast): Forecast
  {
    Forecast(Both(f.claims, f2.claims), true, f2.num)
  }

  function MergeForecast(f: Forecast, f2: Forecast): Forecast
  {
    Forecast(Claims(f.claims.safe && f2.claims.safe, f.claims.rooted && f2.claims.rooted && f.num == 1), true, 1)
  }

  function ShuffleForecast(p: nat, f: Forecast, f2: Forecast, breaks: bool): Forecast
  {
    Forecast(if f.open && breaks then Claims(false, false) else Both(f.claims, f2.claims), true, p)
  }

  lemma ForecastIs(p: nat, rel: Rel)
    ensures ForecastOf(p, rel) == Combined(p, rel)
  {
  }

  // ---------- One relation ----------

  lemma ReadOk(n: nat, s: State)
    requires Well(s) && Numbered(s) && n > 0
    ensures BuiltAs(s, Plus(s, Copies(n, [])), Forecast(Claims(true, true), true, n))
  {
    VisitBegins(s);
    CopiesOk(s, Visit(s, []), Claims(true, true), n);
  }

  lemma ReadInOk(n: nat, s: State, v: Visit, f: Forecast)
    requires n > 0 && BuiltAs(s, v, f)
    ensures BuiltAs(s, Plus(Gathered(v).s, Copies(n, Gathered(v).list)), f.(open := true, num := n))
  {
    GatheredOk(s, v, f.claims);
    CopiesOk(s, Gathered(v), f.claims, n);
  }

  lemma GatherOk(s: State, v: Visit, f: Forecast)
    requires BuiltAs(s, v, f)
    ensures BuiltAs(s, Mapped(Gathered(v)), f.(open := true, num := 1))
  {
    GatheredOk(s, v, f.claims);
    MappedOk(s, Gathered(v), f.claims);
  }

  lemma AggregatedOk(s: State, v: Visit, c: Claims)
    requires Handed(s, v, c)
    ensures Handed(s, Aggregated(v), c) && !NoneOpen(s, Aggregated(v).s)
  {
    MappedOk(s, v, c);
    GatheredOk(s, Mapped(v), c);
    MappedOk(s, Gathered(Mapped(v)), c);
    MappedOk(s, Mapped(Gathered(Mapped(v))), c);
  }

  lemma ShuffleOk(s: State, v: Visit, f: Forecast)
    requires BuiltAs(s, v, f)
    ensures BuiltAs(s, Closed(Mapped(v, Partition)), f.(open := false))
  {
    MappedOk(s, v, f.claims, Partition);
    ClosedOk(s, Mapped(v, Partition), f.claims);
  }

  lemma HoldsConcat(s: State, s2: State, n0: nat, a: seq<nat>, b: seq<nat>)
    requires Well(s) && Well(s2) && HeldOk(s, n0, a) && HeldOk(s2, |s.g|, b)
    ensures Holds(a + b, a, b)
  {
  }

  /** A child visited while `a` is held in closed stages. */
  lemma BesideOk(s0: State, a: Visit, c: Claims, b: Visit, c2: Claims)
    requires Handed(s0, a, c) && NoneOpen(s0, a.s) && Handed(a.s, b, c2)
    ensures Visiting(s0, b.s, a.list + b.list, Both(c, c2)) && HeldRooted(b.s, a.list + b.list)
    ensures Holds(a.list + b.list, a.list, b.list) && (NoneOpen(s0, b.s) <==> NoneOpen(a.s, b.s))
  {
    ChildVisiting(s0, a.s, a.list, c, b.s, b.list, c2);
    NextHeldRooted(s0, a.s, a.list, b.s, b.list);
    HoldsConcat(a.s, b.s, |s0.g|, a.list, b.list);
  }

  lemma UnionOk(s: State, a: Visit, f: Forecast, b: Visit, f2: Forecast)
    requires BuiltAs(s, a, f) && BuiltAs(Closed(a).s, b, f2)
    ensures BuiltAs(s, Visit(b.s, a.list + b.list), Forecast(Both(f.claims, f2.claims), f2.open, f.num + f2.num))
  {
    ClosedOk(s, a, f.claims);
    BesideOk(s, Closed(a), f.claims, b, f2.claims);
  }

  // ---------- Broadcast joins ----------

  /** New tasks that all use the list take its place. */
  lemma ReplacedOk(s0: State, s: State, held: seq<nat>, c: Claims, list: seq<nat>, keep: seq<nat>, n: nat,
                   kind: TaskKind)
    returns (held': seq<nat>)
    requires Visiting(s0, s, held, c) && Holds(held, list, keep) && n > 0
    ensures var v := Plus(s, Copies(n, list), kind); Visiting(s0, v.s, held', c) && Holds(held', v.list, keep)
  {
    var ids := NewIds(s, Copies(n, list));
    TakesCopies(held, list, keep, n);
    AddedVisiting(s0, s, held, c, keep, [], Copies(n, list), kind);
    held' := keep + ids;
    NewHolds(held, keep, list, ids, |s.g|);
  }

  lemma NewHolds(held: seq<nat>, keep: seq<nat>, list: seq<nat>, ids: seq<nat>, n: nat)
    requires Holds(held, list, keep) && (forall k :: 0 <= k < |held| ==> held[k] < n)
    requires forall k :: 0 <= k < |ids| ==> ids[k] == n + k
    ensures Holds(keep + ids, ids, keep)
  {
    forall k | 0 <= k < |keep| ensures keep[k] < n && (keep + ids)[k] == keep[k] {
      assert keep[k] in held;
    }
    forall k | 0 <= k < |ids| ensures (keep + ids)[|keep| + k] == ids[k] {
    }
  }

  /** The concatenated broadcast side takes the place of its tasks. */
  lemma ConcatenatedOk(s0: State, s: State, held: seq<nat>, c: Claims, list: seq<nat>, keep: seq<nat>)
    returns (held': seq<nat>)
    requires Visiting(s0, s, held, c) && list != [] && Holds(held, list, keep)
    ensures var v := Concatenated(s, list);
      Visiting(s0, v.s, held', c) && Holds(held', v.list, keep) &&
      v.s.stage == s.stage && v.list[0] < |v.s.g| &&
      (|list| != 1 ==> v.s.g[v.list[0]].stage == s.stage)
  {
    held' := held;
    if |list| == 1 {
      assert list[0] in held;
    } else {
      assert Copies(1, list) == [list];
      held' := ReplacedOk(s0, s, held, c, list, keep, 1, Ordinary);
    }
  }

  lemma JoinsOk(s0: State, s: State, held: seq<nat>, c: Claims, list: seq<nat>, input: nat, left: bool)
    requires Visiting(s0, s, held, c) && Holds(held, [input], list) && list != []
    ensures var v := Plus(s, JoinsOf(list, input, left));
      Handed(s0, v, c) && !NoneOpen(s0, v.s)
  {
    TakesJoins(held, list, input, left);
    NextOk(s0, s, held, c, JoinsOf(list, input, left));
  }

  /** The state in which the join tasks of a broadcast join are made. */
  lemma BroadcastOk(s0: State, a: Visit, c: Claims, b: Visit, c2: Claims) returns (held: seq<nat>)
    requires Handed(s0, a, c) && Handed(Closed(a).s, b, c2)
    ensures var v := Concatenated(b.s, a.list);
      Visiting(s0, v.s, held, Both(c, c2)) && Holds(held, [v.list[0]], b.list) &&
      |s0.g| <= v.list[0] < |v.s.g| &&
      (|a.list| != 1 ==> v.s.g[v.list[0]].stage == v.s.stage) && (|a.list| == 1 ==> v.s.g[v.list[0]].stage < v.s.stage)
  {
    ClosedOk(s0, a, c);
    BesideOk(s0, Closed(a), c, b, c2);
    held := ConcatenatedOk(s0, b.s, a.list + b.list, Both(c, c2), a.list, b.list);
    var v := Concatenated(b.s, a.list);
    assert v.list == [v.list[0]] && v.list[0] in held;
    if |a.list| == 1 { assert b.s.g[a.list[0]] == Closed(a).s.g[a.list[0]]; }
  }

  lemma JoinedOk(s0: State, a: Visit, c: Claims, b: Visit, c2: Claims, left: bool)
    requires Handed(s0, a, c) && Handed(Closed(a).s, b, c2)
    ensures var r := Joined(Closed(a), b, left).joins;
      Handed(s0, r, Both(c, c2)) && !NoneOpen(s0, r.s)
  {
    var v := Concatenated(b.s, a.list);
    var held := BroadcastOk(s0, a, c, b, c2);
    JoinsOk(s0, v.s, held, Both(c, c2), b.list, v.list[0], left);
  }

  // ---------- Merged position lists ----------

  /** Extraction tasks have no dependencies; what was held are roots of a closed stage. */
  lemma ExtractionsOk(s0: State, v: Visit, c: Claims, n: nat)
    requires Handed(s0, v, c) && NoneOpen(s0, v.s) && n > 0
    ensures var r := Plus(v.s, Copies(n, []));
      Handed(s0, r, c)
  {
    DropClosed(s0, v.s, v.list, c);
    CopiesOk(s0, Visit(v.s, []), c, n);
  }

  lemma ListTasksOk(s0: State, joins: Visit, c: Claims, positions: Positions)
    requires Handed(s0, joins, c) && !positions.Direct? && (positions.Marks? ==> positions.ranks > 0)
    ensures var r := ListTasks(joins, positions);
      Handed(s0, r, c) && joins.s.g <= r.s.g && joins.s.roots <= r.s.roots && joins.s.stage < r.s.stage
  {
    ClosedOk(s0, joins, c);
    if positions.Marks? {
      var n := Min(positions.ranks, |joins.list|);
      ExtractionsOk(s0, Closed(joins), c, n);
      ClosedOk(s0, Plus(Closed(joins).s, Copies(n, [])), c);
    }
  }

  lemma HeldIsRoot(s0: State, s: State, held: seq<nat>, c: Claims, x: nat, list: seq<nat>)
    requires Visiting(s0, s, held, c) && c.rooted && Holds(held, [x], list) && x < |s.g| && s.g[x].stage < s.stage
    ensures IsRoot(s, x)
  {
    assert [x][0] in held;
    var k :| 0 <= k < |held| && held[k] == x;
  }

  /** What a task of the same stage uses is no root. */
  lemma UsedIsNoRoot(s: State, t: nat, x: nat)
    requires Well(s) && t < |s.g| && x in s.g[t].deps && s.g[x].stage == s.g[t].stage < s.stage
    ensures !HeldRooted(s, [x])
  {
    assert RootsOk(s.g, s.g[t].stage, s.roots[s.g[t].stage]);
    assert [x][0] == x;
  }

  /** The broadcast input is a root of its stage if it is a single task. */
  lemma SingleIsRoot(s0: State, a: Visit, c: Claims, b: Visit, c2: Claims, s: State)
    requires Handed(s0, a, c) && Handed(Closed(a).s, b, c2) && Well(s) && |a.list| == 1 && c.rooted && c2.rooted
    requires b.s.g <= s.g && b.s.roots <= s.roots && b.s.stage < s.stage
    ensures |s0.g| <= a.list[0] < |b.s.g| && HeldRooted(s, [a.list[0]])
  {
    var held := BroadcastOk(s0, a, c, b, c2);
    HeldIsRoot(s0, b.s, held, Both(c, c2), a.list[0], b.list);
    RootsStay(b.s, s, a.list[0]);
  }

  /** It is none if it was concatenated: the joins of its stage use it. */
  lemma ConcatenatedIsNoRoot(s0: State, a: Visit, b: Visit, s: State)
    requires |a.list| != 1 && b.list != [] && Well(s) && |s0.g| <= |b.s.g|
    requires var j := Joined(Closed(a), b, true).joins; j.s.g <= s.g && j.s.stage < s.stage
    ensures |s0.g| <= Joined(Closed(a), b, true).input < |s.g| && !HeldRooted(s, [Joined(Closed(a), b, true).input])
  {
    var v, r := Concatenated(b.s, a.list), Joined(Closed(a), b, true);
    var x, t := r.input, r.joins.list[0];
    assert v.s.g[x] == Task(b.s.stage, a.list) && r.joins.s.g[x] == v.s.g[x] && s.g[x] == r.joins.s.g[x];
    assert r.joins.s.g[t] == Task(b.s.stage, [x, b.list[0]]) && s.g[t] == r.joins.s.g[t];
    UsedIsNoRoot(s, t, x);
  }

  lemma InputRooted(s0: State, a: Visit, c: Claims, b: Visit, c2: Claims, s: State)
    requires Handed(s0, a, c) && Handed(Closed(a).s, b, c2) && Well(s)
    requires var j := Joined(Closed(a), b, true).joins; j.s.g <= s.g && j.s.roots <= s.roots && j.s.stage < s.stage
    ensures var x := Joined(Closed(a), b, true).input;
      |s0.g| <= x < |s.g| && (c.rooted && c2.rooted ==> (HeldRooted(s, [x]) <==> |a.list| == 1))
  {
    var j := Joined(Closed(a), b, true);
    if |a.list| != 1 {
      ConcatenatedIsNoRoot(s0, a, b, s);
    } else {
      assert b.s.g <= j.joins.s.g <= s.g && j.input == a.list[0];
      if c.rooted && c2.rooted { SingleIsRoot(s0, a, c, b, c2, s); }
    }
  }

  lemma MergeOk(s0: State, lists: Visit, c: Claims, x: nat)
    requires Handed(s0, lists, c) && |s0.g| <= x < |lists.s.g|
    ensures var r := Plus(lists.s, [[x] + lists.list]);
      Handed(s0, r, c.(rooted := c.rooted && HeldRooted(lists.s, [x]))) && !NoneOpen(s0, r.s)
  {
    TakesMerge(lists.list, x);
    PlusOk(s0, lists.s, lists.list, c, [x], [[x] + lists.list]);
  }

  lemma MergedOk(s0: State, a: Visit, c: Claims, b: Visit, c2: Claims, positions: Positions)
    requires Handed(s0, a, c) && Handed(Closed(a).s, b, c2)
    requires !positions.Direct? && (positions.Marks? ==> positions.ranks > 0)
    ensures var r := Merged(Joined(Closed(a), b, true), positions);
      Handed(s0, r, Claims(c.safe && c2.safe, c.rooted && c2.rooted && |a.list| == 1)) && !NoneOpen(s0, r.s)
  {
    var j := Joined(Closed(a), b, true);
    var lists := ListTasks(j.joins, positions);
    JoinedOk(s0, a, c, b, c2, true);
    ListTasksOk(s0, j.joins, Both(c, c2), positions);
    InputRooted(s0, a, c, b, c2, lists.s);
    MergeOk(s0, lists, Both(c, c2), j.input);
  }

  // ---------- Windows ----------

  lemma AggregatedGrows(v: Visit)
    ensures var total := Closed(Aggregated(v)).s;
      Mapped(v).s.g <= total.g && v.s.g <= total.g && v.s.roots <= total.roots && v.s.stage < total.stage
  {
    var m := Mapped(v);
    var gathered := Gathered(m);
    assert m.s.g <= gathered.s.g <= Mapped(gathered).s.g <= Aggregated(v).s.g;
    assert m.s.roots <= gathered.s.roots;
  }

  /** The tasks of the input are roots, and can be fetched by other ranks, only if none was in the current stage. */
  lemma InputRootedAgain(s0: State, v: Visit, c: Claims, total: State)
    requires Handed(s0, v, c) && c.safe && Well(total)
    requires Mapped(v).s.g <= total.g && v.s.g <= total.g && v.s.roots <= total.roots && v.s.stage < total.stage
    ensures HeldRooted(total, v.list) <==> NoneOpen(s0, v.s)
  {
    if NoneOpen(s0, v.s) {
      forall k | 0 <= k < |v.list| ensures IsRoot(total, v.list[k]) {
        RootsStay(v.s, total, v.list[k]);
      }
    } else {
      var u :| |s0.g| <= u < |v.s.g| && v.s.g[u].stage >= v.s.stage;
      var k := OpenHeld(v.s, v.list, u);
      OpenIsUsed(v, total, k);
    }
  }

  lemma OpenIsUsed(v: Visit, total: State, k: nat)
    requires Well(total) && Mapped(v).s.g <= total.g && v.s.g <= total.g && v.s.stage < total.stage
    requires k < |v.list| && v.list[k] < |v.s.g| && v.s.g[v.list[k]].stage == v.s.stage
    ensures !HeldRooted(total, v.list)
  {
    var t, x := |v.s.g| + k, v.list[k];
    assert Mapped(v).s.g[t] == Task(v.s.stage, [x]) && total.g[t] == Mapped(v).s.g[t] && total.g[x] == v.s.g[x];
    UsedIsNoRoot(total, t, x);
    assert [x][0] == x;
  }

  lemma AgainOk(s0: State, total: Visit, c: Claims, list: seq<nat>)
    requires Handed(s0, total, c) && |total.list| == 1 && list != []
    requires forall k :: 0 <= k < |list| ==> |s0.g| <= list[k] < |total.s.g|
    ensures var r := Plus(total.s, JoinsOf(list, total.list[0], false));
      Handed(s0, r, c.(rooted := c.rooted && HeldRooted(total.s, list))) && !NoneOpen(s0, r.s)
  {
    assert total.list == [total.list[0]];
    TakesAgain(list, total.list[0]);
    PlusOk(s0, total.s, total.list, c, list, JoinsOf(list, total.list[0], false));
  }

  lemma TotalOk(s0: State, v: Visit, c: Claims)
    requires Handed(s0, v, c)
    ensures Handed(s0, Closed(Aggregated(v)), c)
    ensures forall k :: 0 <= k < |v.list| ==> |s0.g| <= v.list[k] < |Closed(Aggregated(v)).s.g|
  {
    AggregatedOk(s0, v, c);
    ClosedOk(s0, Aggregated(v), c);
  }

  lemma WindowedOk(s0: State, v: Visit, c: Claims, closed: bool)
    requires Handed(s0, v, c) && (c.rooted ==> c.safe) && (closed <==> NoneOpen(s0, v.s))
    ensures Handed(s0, Windowed(v), c.(rooted := c.rooted && closed)) && !NoneOpen(s0, Windowed(v).s)
  {
    var total := Closed(Aggregated(v));
    TotalOk(s0, v, c);
    AgainOk(s0, total, c, v.list);
    if c.rooted {
      AggregatedGrows(v);
      InputRootedAgain(s0, v, c, total.s);
    }
  }

  /** The input of a window with ORDER BY: its tasks are roots if they were concatenated. A single one is used by the
    window task of its own stage. */
  lemma ConcatenatedRooted(s0: State, v: Visit, c: Claims, total: State)
    requires Handed(s0, v, c) && Well(total) && forall k :: 0 <= k < |v.list| ==> v.s.g[v.list[k]].stage == v.s.stage
    requires Gathered(v).s.g <= total.g && Gathered(v).s.roots <= total.roots && v.s.stage < total.stage
    requires Gathered(v).s.stage < total.stage && (|v.list| == 1 ==> Mapped(v).s.g <= total.g)
    ensures HeldRooted(total, v.list) <==> |v.list| != 1
  {
    if |v.list| == 1 {
      OpenIsUsed(v, total, 0);
    } else {
      ClosedOk(s0, v, c);
      forall k | 0 <= k < |v.list| ensures IsRoot(total, v.list[k]) {
        RootsStay(Closed(v).s, total, v.list[k]);
      }
    }
  }

  lemma OrderedOk(s0: State, v: Visit, c: Claims)
    requires Handed(s0, v, c) && forall k :: 0 <= k < |v.list| ==> v.s.g[v.list[k]].stage == v.s.stage
    ensures Handed(s0, Ordered(v), c.(rooted := c.rooted && |v.list| != 1)) && !NoneOpen(s0, Ordered(v).s)
  {
    var total := Closed(Mapped(Gathered(v)));
    WindowOk(s0, v, c, total);
    WindowGrows(v, total);
    AgainOk(s0, total, c, v.list);
    ConcatenatedRooted(s0, v, c, total.s);
  }

  /** The window task over the concatenated input, in a closed stage. */
  lemma WindowOk(s0: State, v: Visit, c: Claims, total: Visit)
    requires Handed(s0, v, c) && total == Closed(Mapped(Gathered(v)))
    ensures Handed(s0, total, c)
  {
    GatheredOk(s0, v, c);
    MappedOk(s0, Gathered(v), c);
    ClosedOk(s0, Mapped(Gathered(v)), c);
  }

  lemma WindowGrows(v: Visit, total: Visit)
    requires total == Closed(Mapped(Gathered(v)))
    ensures v.s.g <= Gathered(v).s.g <= total.s.g && Gathered(v).s.roots <= total.s.roots
    ensures v.s.stage <= Gathered(v).s.stage < total.s.stage && (|v.list| == 1 ==> Mapped(v).s.g <= total.s.g)
  {
  }

  lemma RowIdsOk(s0: State, v: Visit, c: Claims)
    requires Handed(s0, v, c)
    ensures Handed(s0, Mapped(v), c)
    ensures forall k :: 0 <= k < |v.list| ==> Mapped(v).s.g[Mapped(v).list[k]].stage == Mapped(v).s.stage
  {
    MappedOk(s0, v, c);
  }

  // ---------- Shuffle joins ----------

  /** Both sides of a shuffle join. Open tasks of the left one are lost if the right one closes their stage. */
  lemma SidesOk(s: State, a: Visit, f: Forecast, b: Visit, f2: Forecast)
    requires BuiltAs(s, a, f) && BuiltAs(a.s, b, f2) && (f.claims.rooted ==> f.claims.safe)
    ensures Holds(a.list + b.list, a.list, b.list)
    ensures Visiting(s, b.s, a.list + b.list,
                     if f.open && b.s.stage > a.s.stage then Claims(false, false) else Both(f.claims, f2.claims))
  {
    HoldsConcat(a.s, b.s, |s.g|, a.list, b.list);
    if f.open && b.s.stage > a.s.stage {
      ChildOrphans(s, a.s, a.list, f.claims, b.s, b.list, f2.claims);
    } else {
      ChildVisiting(s, a.s, a.list, f.claims, b.s, b.list, f2.claims);
    }
  }

  lemma SideOk(p: nat, s0: State, s: State, held: seq<nat>, c: Claims, list: seq<nat>, keep: seq<nat>,
               partitioned: bool)
    returns (held': seq<nat>)
    requires Visiting(s0, s, held, c) && Holds(held, list, keep) && p > 0
    ensures var v := Side(p, s, list, partitioned);
      Visiting(s0, v.s, held', c) && Holds(held', v.list, keep)
  {
    held' := held;
    if partitioned {
      held' := ReplacedOk(s0, s, held, c, list, keep, p, Merge);
    }
  }

  lemma HoldsSwap(held: seq<nat>, a: seq<nat>, b: seq<nat>)
    requires Holds(held, a, b)
    ensures Holds(held, b, a)
  {
  }

  lemma ShuffledOk(p: nat, s0: State, a: Visit, b: Visit, c: Claims, leftPartitioned: bool, rightPartitioned: bool)
    requires Visiting(s0, b.s, a.list + b.list, c) && Holds(a.list + b.list, a.list, b.list) && p > 0
    requires (leftPartitioned || |a.list| == p) && (rightPartitioned || |b.list| == p)
    ensures var r := Shuffled(p, a, b, leftPartitioned, rightPartitioned);
      Handed(s0, r, c) && !NoneOpen(s0, r.s)
  {
    var left := Side(p, b.s, a.list, leftPartitioned);
    var held := SideOk(p, s0, b.s, a.list + b.list, c, a.list, b.list, leftPartitioned);
    HoldsSwap(held, left.list, b.list);
    var right := Side(p, left.s, b.list, rightPartitioned);
    held := SideOk(p, s0, left.s, held, c, b.list, left.list, rightPartitioned);
    TakesPairs(held, left.list, right.list);
    NextOk(s0, right.s, held, c, Pairs(left.list, right.list));
  }

  lemma ShuffleJoinOk(p: nat, s: State, a: Visit, f: Forecast, b: Visit, f2: Forecast, leftPartitioned: bool,
                      rightPartitioned: bool)
    requires p > 0 && BuiltAs(s, a, f) && BuiltAs(a.s, b, f2) && (f.claims.rooted ==> f.claims.safe)
    requires (leftPartitioned || f.num == p) && (rightPartitioned || f2.num == p)
    ensures BuiltAs(s, Shuffled(p, a, b, leftPartitioned, rightPartitioned),
                    ShuffleForecast(p, f, f2, b.s.stage > a.s.stage))
  {
    SidesOk(s, a, f, b, f2);
    ShuffledOk(p, s, a, b, ShuffleForecast(p, f, f2, b.s.stage > a.s.stage).claims, leftPartitioned, rightPartitioned);
  }

  // ---------- Every plan ----------

  /** What building any relation does, in any state the builder can be in. */
  lemma {:induction false} BuiltOk(p: nat, rel: Rel, s: State, f: Forecast)
    requires p > 0 && Well(s) && Numbered(s) && Valid(p, rel) && f == ForecastOf(p, rel)
    ensures BuiltAs(s, Built(p, rel, s), f)
    decreases rel, 2
  {
    ForecastIs(p, rel);
    if rel.Read? {
      ReadOk(rel.n, s);
    } else if rel.BroadcastRight? || rel.BroadcastLeft? || rel.ShuffleJoin? || rel.UnionAll? {
      TwoOk(p, rel, s, f);
    } else {
      OneOk(p, rel, s, f);
    }
  }

  function Child(rel: Rel): Rel
    requires !rel.Read? && !rel.BroadcastRight? && !rel.BroadcastLeft? && !rel.ShuffleJoin? && !rel.UnionAll?
    ensures Child(rel) < rel
  {
    if rel.ReadIn? then rel.sub else rel.c
  }

  /** Relations with one child. */
  lemma {:induction false} OneOk(p: nat, rel: Rel, s: State, f: Forecast)
    requires p > 0 && Well(s) && Numbered(s) && Valid(p, rel) && f == Combined(p, rel)
    requires !rel.Read? && !rel.BroadcastRight? && !rel.BroadcastLeft? && !rel.ShuffleJoin? && !rel.UnionAll?
    ensures BuiltAs(s, Built(p, rel, s), f)
    decreases rel, 1
  {
    var c := Child(rel);
    var v, fc := Built(p, c, s), ForecastOf(p, c);
    BuiltOk(p, c, s, fc);
    match rel
    case ReadIn(n, _) => ReadInOk(n, s, v, fc);
    case Each(_) => MappedOk(s, v, fc.claims);
    case Gather(_) => GatherOk(s, v, fc);
    case Aggregate(_) => AggregatedOk(s, v, fc.claims);
    case PartitionWindow(_) => WindowedOk(s, v, fc.claims, !fc.open);
    case OrderedWindow(_) =>
      RowIdsOk(s, v, fc.claims);
      OrderedOk(s, Mapped(v), fc.claims);
    case Shuffle(_) => ShuffleOk(s, v, fc);
  }

  /** Relations with two children. */
  lemma {:induction false} TwoOk(p: nat, rel: Rel, s: State, f: Forecast)
    requires p > 0 && Well(s) && Numbered(s) && Valid(p, rel) && f == Combined(p, rel)
    requires rel.BroadcastRight? || rel.BroadcastLeft? || rel.ShuffleJoin? || rel.UnionAll?
    ensures BuiltAs(s, Built(p, rel, s), f)
    decreases rel, 1
  {
    var first, second := if rel.BroadcastRight? then rel.r else rel.l, if rel.BroadcastRight? then rel.l else rel.r;
    if rel.ShuffleJoin? {
      ShuffledSidesOk(p, first, second, s, f);
    } else {
      var a, fa, fb := Built(p, first, s), ForecastOf(p, first), ForecastOf(p, second);
      BuiltOk(p, first, s, fa);
      ClosedOk(s, a, fa.claims);
      BuiltOk(p, second, Closed(a).s, fb);
      ClosedPairOk(p, rel, s, a, fa, Built(p, second, Closed(a).s), fb);
    }
  }

  lemma {:induction false} ShuffledSidesOk(p: nat, l: Rel, r: Rel, s: State, f: Forecast)
    requires p > 0 && Well(s) && Numbered(s) && Valid(p, ShuffleJoin(l, r)) && f == Combined(p, ShuffleJoin(l, r))
    ensures BuiltAs(s, Built(p, ShuffleJoin(l, r), s), f)
    decreases ShuffleJoin(l, r), 0
  {
    var a, fa, fb := Built(p, l, s), ForecastOf(p, l), ForecastOf(p, r);
    BuiltOk(p, l, s, fa);
    BuiltOk(p, r, a.s, fb);
    BuiltCounts(p, r, a.s);
    ShuffleJoinOk(p, s, a, fa, Built(p, r, a.s), fb, Partitions(l), Partitions(r));
  }

  lemma ClosedPairOk(p: nat, rel: Rel, s: State, a: Visit, fa: Forecast, b: Visit, fb: Forecast)
    requires BuiltAs(s, a, fa) && BuiltAs(Closed(a).s, b, fb)
    requires rel.BroadcastLeft? && rel.positions.Marks? ==> rel.positions.ranks > 0
    ensures rel.BroadcastRight? ==> BuiltAs(s, Joined(Closed(a), b, false).joins, JoinForecast(fa, fb))
    ensures rel.BroadcastLeft? ==>
              BuiltAs(s, Merged(Joined(Closed(a), b, true), rel.positions),
                      if rel.positions.Direct? then JoinForecast(fa, fb) else MergeForecast(fa, fb))
    ensures rel.UnionAll? ==>
              BuiltAs(s, Visit(b.s, a.list + b.list),
                      Forecast(Both(fa.claims, fb.claims), fb.open, fa.num + fb.num))
  {
    match rel
    case BroadcastRight(_, _) => JoinedOk(s, a, fa.claims, b, fb.claims, false);
    case BroadcastLeft(_, _, positions) =>
      if positions.Direct? { JoinedOk(s, a, fa.claims, b, fb.claims, true); }
      else { MergedOk(s, a, fa.claims, b, fb.claims, positions); }
    case UnionAll(_, _) => UnionOk(s, a, fa, b, fb);
    case _ =>
  }

  // ---------- The finished graph ----------

  function Empty(): State
  {
    State([], 0, [], [])
  }

  /** `build`: the root relation, and a last pipeline breaker. */
  ghost function GraphOf(p: nat, rel: Rel): State
  {
    Closed(Built(p, rel, Empty())).s
  }

  /** Every stage is closed, its roots are distinct and not used inside it, dependencies point to earlier tasks of the
    same or an earlier stage, and the ids of a task are the positions of the roots that reach it. */
  ghost predicate Delivered(s: State)
  {
    Well(s) && Numbered(s) && forall u :: 0 <= u < |s.g| ==> s.g[u].stage < s.stage
  }

  ghost predicate Executed(s: State, u: nat)
    requires Delivered(s) && u < |s.g|
  {
    ReachedFrom(s.g, s.roots[s.g[u].stage], u)
  }

  ghost predicate AllExecuted(s: State)
    requires Delivered(s)
  {
    forall u :: 0 <= u < |s.g| ==> Executed(s, u)
  }

  /** No task is executed without its dependencies. */
  ghost predicate Fed(s: State)
    requires Delivered(s)
  {
    forall t, i :: 0 <= t < |s.g| && 0 <= i < |s.g[t].deps| && Executed(s, t) ==> Executed(s, s.g[t].deps[i])
  }

  lemma FinishedOk(s: State, tasks: seq<nat>, c: Claims)
    requires Handed(Empty(), Visit(s, tasks), c) && NoneOpen(Empty(), s)
    ensures Delivered(s) && (AllExecuted(s) <==> c.safe) && (Fed(s) <==> c.safe) && (CrossRooted(s, 0) <==> c.rooted)
  {
    if c.safe {
      forall u | 0 <= u < |s.g| ensures Executed(s, u) {
        assert Attached(s, tasks, u);
      }
    } else {
      DroppedStarved(Empty(), s, tasks);
      var t, i :| 0 <= t < |s.g| && 0 <= i < |s.g[t].deps| && Starves(s, [], t, i);
      assert Executed(s, t) && !Executed(s, s.g[t].deps[i]);
    }
  }

  /** Every plan gives a well-formed graph with the predicted numbers of tasks and stages. Every task is executed with
    its stage, and no task is executed without its dependencies, exactly if the plan is safe. A task depends on
    earlier stages through their roots only exactly if the plan is also plain. */
  lemma GraphIs(p: nat, rel: Rel)
    requires p > 0 && Valid(p, rel)
    ensures var s := GraphOf(p, rel);
      Delivered(s) && |s.g| == Tasks(p, rel) && |s.roots| == Stages(p, rel) + 1 &&
      (AllExecuted(s) <==> Safe(p, rel)) && (Fed(s) <==> Safe(p, rel)) &&
      (CrossRooted(s, 0) <==> Safe(p, rel) && Plain(p, rel))
  {
    var v, f := Built(p, rel, Empty()), ForecastOf(p, rel);
    BuiltOk(p, rel, Empty(), f);
    BuiltCounts(p, rel, Empty());
    ClosedOk(Empty(), v, f.claims);
    FinishedOk(Closed(v).s, v.list, f.claims);
  }
}
