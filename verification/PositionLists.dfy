/** Semi and anti joins with a broadcast left side: join tasks yield lists of left positions, merged at the end. */
module PositionLists {
  import opened Arith
  import opened Wrappers
  import opened Relational
  import opened Joins
  import C = Cluster
  import opened ClusterSafety
  import S = Schedulers

  ghost predicate PositionsIn(s: seq<nat>, n: nat)
  {
    Distinct(s) && forall i :: 0 <= i < |s| ==> s[i] < n
  }

  ghost predicate InSome(lists: seq<seq<nat>>, i: nat)
  {
    exists k :: 0 <= k < |lists| && i in lists[k]
  }

  ghost predicate InAll(lists: seq<seq<nat>>, i: nat)
  {
    forall k :: 0 <= k < |lists| ==> i in lists[k]
  }

  ghost predicate Keeps(t: JoinType, lists: seq<seq<nat>>, i: nat)
  {
    if t.Semi? then InSome(lists, i) else InAll(lists, i)
  }

  /** The first `n` left rows, without those that are not kept. */
  ghost function Kept(t: JoinType, left: Table, lists: seq<seq<nat>>, n: nat): Table
    requires n <= |left|
  {
    if n == 0 then [] else Kept(t, left, lists, n - 1) + if Keeps(t, lists, n - 1) then [left[n - 1]] else []
  }

  /** What is kept, in left order: for a semi join the positions in some list, for an anti join those in all. */
  lemma {:induction false} KeptIs(t: JoinType, left: Table, lists: seq<seq<nat>>, n: nat, positions: seq<nat>,
                                  p: nat -> bool)
    requires n <= |left| && (t.Semi? || t.Anti?)
    requires |positions| == n && forall i :: 0 <= i < n ==> positions[i] == i
    requires t.Semi? ==> forall i: nat :: p(i) <==> exists k :: 0 <= k < |lists| && i in lists[k]
    requires t.Anti? ==> forall i: nat :: p(i) <==> forall k :: 0 <= k < |lists| ==> i in lists[k]
    ensures var kept, taken := Kept(t, left, lists, n), Filter<nat>(p, positions);
      |kept| == |taken| && forall k :: 0 <= k < |taken| ==> taken[k] < |left| && kept[k] == left[taken[k]]
  {
    if n > 0 {
      KeptIs(t, left, lists, n - 1, positions[..n - 1], p);
      assert Keeps(t, lists, n - 1) <==> p(n - 1);
    }
  }

  // ---------- `materialize_join_from_position_lists_task` ----------

  method SetBooleanMask(mask: array<bool>, positions: seq<nat>)
    requires PositionsIn(positions, mask.Length)
    modifies mask
    ensures forall i :: 0 <= i < mask.Length ==> mask[i] == (old(mask[i]) || i in positions)
  {
    for k := 0 to |positions|
      invariant forall i :: 0 <= i < mask.Length ==> mask[i] == (old(mask[i]) || i in positions[..k])
    {
      mask[positions[k]] := true;
    }
    assert positions[..|positions|] == positions;
  }

  /** Counts each list once for every row, because positions within a list are unique. */
  method IncrementCounts(counts: array<nat>, positions: seq<nat>)
    requires PositionsIn(positions, counts.Length)
    modifies counts
    ensures forall i :: 0 <= i < counts.Length ==> counts[i] == old(counts[i]) + if i in positions then 1 else 0
  {
    for k := 0 to |positions|
      invariant forall i :: 0 <= i < counts.Length ==>
        counts[i] == old(counts[i]) + if i in positions[..k] then 1 else 0
    {
      assert positions[k] !in positions[..k];
      counts[positions[k]] := counts[positions[k]] + 1;
    }
    assert positions[..|positions|] == positions;
  }

  ghost function ListsWith(lists: seq<seq<nat>>, i: nat): nat
  {
    if lists == [] then 0 else ListsWith(lists[..|lists| - 1], i) + if i in lists[|lists| - 1] then 1 else 0
  }

  lemma {:induction false} CountMeansAll(lists: seq<seq<nat>>, i: nat)
    ensures ListsWith(lists, i) <= |lists|
    ensures ListsWith(lists, i) == |lists| <==> InAll(lists, i)
  {
    if lists != [] {
      var front := lists[..|lists| - 1];
      CountMeansAll(front, i);
      assert forall k :: 0 <= k < |front| ==> front[k] == lists[k];
    }
  }

  method SemiMask(lists: seq<seq<nat>>, n: nat) returns (mask: array<bool>)
    requires forall k :: 0 <= k < |lists| ==> PositionsIn(lists[k], n)
    ensures fresh(mask) && mask.Length == n && forall i :: 0 <= i < n ==> (mask[i] <==> InSome(lists, i))
  {
    mask := new bool[n](_ => false);
    for k := 0 to |lists|
      invariant mask.Length == n && fresh(mask)
      invariant forall i :: 0 <= i < n ==> (mask[i] <==> InSome(lists[..k], i))
    {
      ghost var before := lists[..k];
      SetBooleanMask(mask, lists[k]);
      forall i | 0 <= i < n ensures InSome(lists[..k + 1], i) <==> InSome(before, i) || i in lists[k] {
        assert forall j :: 0 <= j < k ==> lists[..k + 1][j] == before[j];
        assert lists[..k + 1][k] == lists[k];
      }
    }
    assert lists[..|lists|] == lists;
  }

  method AntiMask(lists: seq<seq<nat>>, n: nat) returns (mask: array<bool>)
    requires forall k :: 0 <= k < |lists| ==> PositionsIn(lists[k], n)
    ensures fresh(mask) && mask.Length == n && forall i :: 0 <= i < n ==> (mask[i] <==> InAll(lists, i))
  {
    var counts := new nat[n](_ => 0);
    for k := 0 to |lists|
      invariant counts.Length == n && fresh(counts)
      invariant forall i :: 0 <= i < n ==> counts[i] == ListsWith(lists[..k], i)
    {
      IncrementCounts(counts, lists[k]);
      assert lists[..k + 1][..k] == lists[..k];
    }
    assert lists[..|lists|] == lists;
    mask := new bool[n](_ => false);
    for i := 0 to n
      invariant mask.Length == n && fresh(mask)
      invariant forall j :: 0 <= j < n ==> counts[j] == ListsWith(lists, j)
      invariant forall j :: 0 <= j < i ==> (mask[j] <==> InAll(lists, j))
    {
      CountMeansAll(lists, i);
      mask[i] := counts[i] == |lists|;
    }
  }

  /** Rows of a semi or anti join have a left part only. */
  function Bare(rows: Table): seq<Out>
  {
    seq(|rows|, i requires 0 <= i < |rows| => Out(rows[i], None))
  }

  lemma BareCell(projection: seq<nat>, rows: Table, k: nat, c: nat)
    requires k < |rows| && c < |projection| && projection[c] < |rows[k]|
    ensures |ProjectedRows(projection, Bare(rows))| == |rows|
    ensures |ProjectedRows(projection, Bare(rows))[k]| == |projection|
    ensures ProjectedRows(projection, Bare(rows))[k][c] == rows[k][projection[c]]
  {
    ProjectedCell(projection, rows[k], [], c);
  }

  lemma ProjectedPush(projection: seq<nat>, rows: Table, l: Row)
    ensures ProjectedRows(projection, Bare(rows + [l]))
         == ProjectedRows(projection, Bare(rows)) + [Projected(projection, Out(l, None))]
  {
  }

  /** Projects the kept rows, in the order of the left table; throws if a projected column does not exist. */
  method Materialize(t: JoinType, left: Table, width: nat, lists: seq<seq<nat>>, projection: seq<nat>)
    returns (r: Attempt<Table>)
    requires t.Semi? || t.Anti?
    requires forall k :: 0 <= k < |lists| ==> PositionsIn(lists[k], |left|)
    ensures r.Returned? <==> forall c :: 0 <= c < |projection| ==> projection[c] < width
    ensures r.Returned? ==> r.value == ProjectedRows(projection, Bare(Kept(t, left, lists, |left|)))
  {
    for c := 0 to |projection|
      invariant forall d :: 0 <= d < c ==> projection[d] < width
    {
      if projection[c] >= width { return Thrown; }
    }
    var mask;
    if t.Semi? {
      mask := SemiMask(lists, |left|);
    } else {
      mask := AntiMask(lists, |left|);
    }
    var out := [];
    for i := 0 to |left|
      invariant forall j :: 0 <= j < |left| ==> (mask[j] <==> Keeps(t, lists, j))
      invariant out == ProjectedRows(projection, Bare(Kept(t, left, lists, i)))
    {
      if mask[i] {
        ProjectedPush(projection, Kept(t, left, lists, i), left[i]);
        out := out + [Projected(projection, Out(left[i], None))];
      } else {
        assert Kept(t, left, lists, i + 1) == Kept(t, left, lists, i);
      }
    }
    r := Returned(out);
  }

  // ---------- Merging lists computed against parts of the right side ----------

  /** What a join task that does not materialise yields: the positions of the left rows with (semi) or without (anti) a
    match in its part of the right table. */
  ghost predicate IsPositions(t: JoinType, m: Match, left: Table, right: Table, positions: seq<nat>)
  {
    Distinct(positions) &&
    forall i: nat :: i in positions <==> i < |left| && (HasMatch(m, left[i], multiset(right)) <==> t.Semi?)
  }

  ghost predicate Wanted(t: JoinType, m: Match, l: Row, right: Table)
  {
    HasMatch(m, l, multiset(right)) <==> t.Semi?
  }

  /** The reference: the left rows with or without a match in the whole right table, in left order. */
  ghost function LeftRows(t: JoinType, m: Match, left: Table, right: Table): Table
  {
    if left == [] then []
    else
      LeftRows(t, m, left[..|left| - 1], right) +
      if Wanted(t, m, left[|left| - 1], right) then [left[|left| - 1]] else []
  }

  lemma BareCount(rows: Table, more: Table, o: Out)
    ensures multiset(Bare(rows + more))[o] == multiset(Bare(rows))[o] + multiset(Bare(more))[o]
  {
    assert Bare(rows + more) == Bare(rows) + Bare(more);
  }

  lemma OneRowCount(t: JoinType, m: Match, l: Row, right: Table, o: Out)
    requires t.Semi? || t.Anti?
    ensures multiset(Bare(if Wanted(t, m, l, right) then [l] else []))[o]
         == Times(t, m, multiset{l}, multiset(right), o)
  {
    assert Bare([l]) == [Out(l, None)];
  }

  lemma {:induction false} LeftRowsCount(t: JoinType, m: Match, left: Table, right: Table, o: Out)
    requires t.Semi? || t.Anti?
    ensures multiset(Bare(LeftRows(t, m, left, right)))[o] == Times(t, m, multiset(left), multiset(right), o)
  {
    if left != [] {
      var front, last := left[..|left| - 1], left[|left| - 1];
      LeftRowsCount(t, m, front, right, o);
      OneRowCount(t, m, last, right, o);
      BareCount(LeftRows(t, m, front, right), if Wanted(t, m, last, right) then [last] else [], o);
      LeftAdds(t, m, multiset(front), multiset{last}, multiset(right), o);
      assert left == front + [last];
    }
  }

  lemma LeftRowsIsJoin(t: JoinType, m: Match, left: Table, right: Table)
    requires t.Semi? || t.Anti?
    ensures IsJoin(t, m, left, right, Bare(LeftRows(t, m, left, right)))
  {
    forall o ensures multiset(Bare(LeftRows(t, m, left, right)))[o] == Times(t, m, multiset(left), multiset(right), o) {
      LeftRowsCount(t, m, left, right, o);
    }
  }

  ghost predicate GroupOk(group: seq<nat>, n: nat)
  {
    forall i :: 0 <= i < |group| ==> group[i] < n
  }

  function Chosen(parts: seq<Table>, group: seq<nat>): seq<Table>
    requires GroupOk(group, |parts|)
  {
    seq(|group|, i requires 0 <= i < |group| => parts[group[i]])
  }

  /** List `k` holds the marks left by the right partitions `groups[k]`: one partition for a join task, all that a rank
    has probed for an extraction task. */
  ghost predicate MarksOk(t: JoinType, m: Match, left: Table, parts: seq<Table>, groups: seq<seq<nat>>,
                          lists: seq<seq<nat>>)
  {
    |lists| == |groups| &&
    forall k :: 0 <= k < |groups| ==>
      GroupOk(groups[k], |parts|) && IsPositions(t, m, left, Flatten(Chosen(parts, groups[k])), lists[k])
  }

  ghost predicate Covers(groups: seq<seq<nat>>, n: nat)
  {
    forall p :: 0 <= p < n ==> InSome(groups, p)
  }

  lemma {:induction false} MatchInFlatten(m: Match, l: Row, parts: seq<Table>)
    ensures HasMatch(m, l, multiset(Flatten(parts))) <==>
              exists p :: 0 <= p < |parts| && HasMatch(m, l, multiset(parts[p]))
  {
    if parts != [] {
      var n := |parts| - 1;
      var front := parts[..n];
      MatchInFlatten(m, l, front);
      assert forall p :: 0 <= p < n ==> front[p] == parts[p];
      assert multiset(Flatten(parts)) == multiset(Flatten(front)) + multiset(parts[n]);
      if HasMatch(m, l, multiset(Flatten(parts))) {
        var r :| r in multiset(Flatten(parts)) && m(l, r);
        assert r in multiset(Flatten(front)) || r in multiset(parts[n]);
      }
      if HasMatch(m, l, multiset(parts[n])) {
        var r :| r in multiset(parts[n]) && m(l, r);
        assert r in multiset(Flatten(parts));
      }
      if HasMatch(m, l, multiset(Flatten(front))) {
        var r :| r in multiset(Flatten(front)) && m(l, r);
        assert r in multiset(Flatten(parts));
      }
    }
  }

  lemma MatchInGroup(m: Match, l: Row, parts: seq<Table>, group: seq<nat>)
    requires GroupOk(group, |parts|)
    ensures HasMatch(m, l, multiset(Flatten(Chosen(parts, group)))) <==>
              exists i :: 0 <= i < |group| && HasMatch(m, l, multiset(parts[group[i]]))
  {
    var chosen := Chosen(parts, group);
    assert forall i :: 0 <= i < |group| ==> chosen[i] == parts[group[i]];
    MatchInFlatten(m, l, chosen);
  }

  /** Some list's partitions hold a match exactly if some partition does. */
  lemma MatchInGroups(m: Match, l: Row, parts: seq<Table>, groups: seq<seq<nat>>)
    requires (forall k :: 0 <= k < |groups| ==> GroupOk(groups[k], |parts|)) && Covers(groups, |parts|)
    ensures HasMatch(m, l, multiset(Flatten(parts))) <==>
              exists k :: 0 <= k < |groups| && HasMatch(m, l, multiset(Flatten(Chosen(parts, groups[k]))))
  {
    MatchInFlatten(m, l, parts);
    if HasMatch(m, l, multiset(Flatten(parts))) {
      var p :| 0 <= p < |parts| && HasMatch(m, l, multiset(parts[p]));
      assert InSome(groups, p);
      var k :| 0 <= k < |groups| && p in groups[k];
      MatchInGroup(m, l, parts, groups[k]);
    } else {
      forall k | 0 <= k < |groups| ensures !HasMatch(m, l, multiset(Flatten(Chosen(parts, groups[k])))) {
        MatchInGroup(m, l, parts, groups[k]);
      }
    }
  }

  lemma KeepsWanted(t: JoinType, m: Match, left: Table, parts: seq<Table>, groups: seq<seq<nat>>,
                    lists: seq<seq<nat>>, i: nat)
    requires (t.Semi? || t.Anti?) && MarksOk(t, m, left, parts, groups, lists) && Covers(groups, |parts|) && i < |left|
    ensures Keeps(t, lists, i) <==> Wanted(t, m, left[i], Flatten(parts))
  {
    MatchInGroups(m, left[i], parts, groups);
    forall k | 0 <= k < |lists|
      ensures i in lists[k] <==> (HasMatch(m, left[i], multiset(Flatten(Chosen(parts, groups[k])))) <==> t.Semi?)
    {
      assert IsPositions(t, m, left, Flatten(Chosen(parts, groups[k])), lists[k]);
    }
  }

  /** Merging position lists yields the semi or anti join with the whole right table, in left order. */
  lemma {:induction false} MergedPositions(t: JoinType, m: Match, left: Table, parts: seq<Table>, groups: seq<seq<nat>>,
                                           lists: seq<seq<nat>>, n: nat)
    requires (t.Semi? || t.Anti?) && MarksOk(t, m, left, parts, groups, lists) && Covers(groups, |parts|) && n <= |left|
    ensures Kept(t, left, lists, n) == LeftRows(t, m, left[..n], Flatten(parts))
    decreases n
  {
    if n > 0 {
      MergedPositions(t, m, left, parts, groups, lists, n - 1);
      KeepsWanted(t, m, left, parts, groups, lists, n - 1);
      assert left[..n][..n - 1] == left[..n - 1];
    }
  }

  /** A right partition that no list has seen is lost: the join is then wrong for some tables, semi or anti. */
  lemma CoverNeeded(t: JoinType, l: Row, r: Row, n: nat, p: nat, groups: seq<seq<nat>>, lists: seq<seq<nat>>)
    requires (t.Semi? || t.Anti?) && p < n && !InSome(groups, p)
    requires MarksOk(t, (_, _) => true, [l], seq(n, i => if i == p then [r] else []), groups, lists)
    ensures Kept(t, [l], lists, 1) != LeftRows(t, (_, _) => true, [l], Flatten(seq(n, i => if i == p then [r] else [])))
  {
    var m: Match := (_, _) => true;
    var parts: seq<Table> := seq(n, i => if i == p then [r] else []);
    forall k | 0 <= k < |groups| ensures 0 in lists[k] <==> t.Anti? {
      var chosen := Chosen(parts, groups[k]);
      MatchInFlatten(m, l, chosen);
      forall i | 0 <= i < |chosen| ensures chosen[i] == [] {
        assert groups[k][i] != p;
      }
      assert IsPositions(t, m, [l], Flatten(chosen), lists[k]);
    }
    MatchInFlatten(m, l, parts);
    assert parts[p] == [r] && r in multiset(parts[p]);
    assert HasMatch(m, l, multiset(parts[p]));
    assert Keeps(t, lists, 0) <==> t.Anti?;
    assert Kept(t, [l], lists, 1) == if t.Anti? then [l] else [];
    assert [l][..0] == [];
  }

  /** Some rank executes both tasks. */
  ghost predicate ShareRank<V>(job: C.Job<V>, t: nat, u: nat)
  {
    exists r :: 0 <= r < job.size && C.Local(job, r, t) && C.Local(job, r, u)
  }

  /** Extraction task `e` sees the marks of the join tasks that ran on the rank it runs on. */
  ghost predicate Sees<V>(job: C.Job<V>, joins: seq<nat>, extraction: nat, group: seq<nat>)
  {
    forall j: nat :: j in group <==> j < |joins| && ShareRank(job, extraction, joins[j])
  }

  /** Under round robin, one extraction task for each rank, but no more than there are join tasks, covers all of
    these. */
  lemma ExtractionCovers<V>(job: C.Job<V>, k: nat, groups: seq<seq<nat>>)
    requires JobGraphOk(job) && job.size > 0 && S.RoundRobin(job) && k + 1 < |job.stageRoots|
    requires |job.stageRoots[k + 1]| == if job.size < |job.stageRoots[k]| then job.size else |job.stageRoots[k]|
    requires |groups| == |job.stageRoots[k + 1]|
    requires forall e :: 0 <= e < |groups| ==> Sees(job, job.stageRoots[k], job.stageRoots[k + 1][e], groups[e])
    ensures Covers(groups, |job.stageRoots[k]|)
  {
    forall j | 0 <= j < |job.stageRoots[k]| ensures InSome(groups, j) {
      var e := j % job.size;
      ModBelow(j, job.size);
      S.RootRank(job, k, j, e);
      S.RootRank(job, k + 1, e, e);
      assert ShareRank(job, job.stageRoots[k + 1][e], job.stageRoots[k][j]);
      assert Sees(job, job.stageRoots[k], job.stageRoots[k + 1][e], groups[e]);
    }
  }
}
