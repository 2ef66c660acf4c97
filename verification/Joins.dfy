/** Joins split into tasks: every accepted way of splitting gives the join of the whole tables. */
module Joins {
  import opened Wrappers
  import opened Relational

  datatype JoinType = Inner | LeftOuter | Semi | Anti | Full | Single

  /** A result row before projection: a left row with its right row, or with none. */
  datatype Out = Out(l: Row, r: Option<Row>)

  /** When the join condition is TRUE. */
  type Match = (Row, Row) -> bool

  ghost predicate HasMatch(m: Match, l: Row, right: multiset<Row>)
  {
    exists r :: r in right && m(l, r)
  }

  /** How often a result row occurs in the join of two bags of rows. */
  ghost function Times(t: JoinType, m: Match, left: multiset<Row>, right: multiset<Row>, o: Out): nat
  {
    match t
    case Inner => PairTimes(m, left, right, o)
    case LeftOuter =>
      if o.r.Some? then PairTimes(m, left, right, o) else if HasMatch(m, o.l, right) then 0 else left[o.l]
    case Semi => if o.r.None? && HasMatch(m, o.l, right) then left[o.l] else 0
    case Anti => if o.r.None? && !HasMatch(m, o.l, right) then left[o.l] else 0
    case _ => 0
  }

  ghost function PairTimes(m: Match, left: multiset<Row>, right: multiset<Row>, o: Out): nat
  {
    if o.r.Some? && m(o.l, o.r.value) then left[o.l] * right[o.r.value] else 0
  }

  /** `out` is the join of `left` and `right`, in any order. */
  ghost predicate IsJoin(t: JoinType, m: Match, left: Table, right: Table, out: seq<Out>)
  {
    forall o :: multiset(out)[o] == Times(t, m, multiset(left), multiset(right), o)
  }

  /** What is in a join: pairs of rows that match, as often as their rows occur; for a left join the left rows without
    a match, for a semi or anti join the left rows with or without one, as often as they occur. */
  lemma JoinHolds(t: JoinType, m: Match, left: Table, right: Table, out: seq<Out>, l: Row, r: Row)
    requires IsJoin(t, m, left, right, out)
    ensures t.Inner? || t.LeftOuter? ==>
              multiset(out)[Out(l, Some(r))] == if m(l, r) then multiset(left)[l] * multiset(right)[r] else 0
    ensures t.Semi? || t.Anti? ==> multiset(out)[Out(l, Some(r))] == 0
    ensures t.Inner? ==> multiset(out)[Out(l, None)] == 0
    ensures t.Semi? && (exists j :: 0 <= j < |right| && m(l, right[j])) ==>
              multiset(out)[Out(l, None)] == multiset(left)[l]
    ensures t.Semi? && !(exists j :: 0 <= j < |right| && m(l, right[j])) ==> multiset(out)[Out(l, None)] == 0
    ensures (t.LeftOuter? || t.Anti?) && (exists j :: 0 <= j < |right| && m(l, right[j])) ==>
              multiset(out)[Out(l, None)] == 0
    ensures (t.LeftOuter? || t.Anti?) && !(exists j :: 0 <= j < |right| && m(l, right[j])) ==>
              multiset(out)[Out(l, None)] == multiset(left)[l]
  {
    HasMatchIn(m, l, right);
    assert multiset(out)[Out(l, None)] == Times(t, m, multiset(left), multiset(right), Out(l, None));
    assert multiset(out)[Out(l, Some(r))] == Times(t, m, multiset(left), multiset(right), Out(l, Some(r)));
  }

  // ---------- The counts are those of the nested-loop join ----------

  function Pairs(m: Match, l: Row, right: Table): seq<Out>
  {
    if right == [] then []
    else Pairs(m, l, right[..|right| - 1]) + if m(l, right[|right| - 1]) then [Out(l, Some(right[|right| - 1]))] else []
  }

  function RowJoin(t: JoinType, m: Match, l: Row, right: Table): seq<Out>
  {
    var pairs := Pairs(m, l, right);
    match t
    case Inner => pairs
    case LeftOuter => if pairs == [] then [Out(l, None)] else pairs
    case Semi => if pairs == [] then [] else [Out(l, None)]
    case Anti => if pairs == [] then [Out(l, None)] else []
    case _ => []
  }

  function NestedLoop(t: JoinType, m: Match, left: Table, right: Table): seq<Out>
  {
    if left == [] then [] else NestedLoop(t, m, left[..|left| - 1], right) + RowJoin(t, m, left[|left| - 1], right)
  }

  lemma {:induction false} PairsCount(m: Match, l: Row, right: Table, o: Out)
    ensures multiset(Pairs(m, l, right))[o]
         == if o.l == l && o.r.Some? && m(l, o.r.value) then multiset(right)[o.r.value] else 0
  {
    if right != [] {
      var front, last := right[..|right| - 1], right[|right| - 1];
      PairsCount(m, l, front, o);
      assert right == front + [last];
    }
  }

  lemma {:induction false} PairsEmpty(m: Match, l: Row, right: Table)
    ensures Pairs(m, l, right) == [] <==> forall i :: 0 <= i < |right| ==> !m(l, right[i])
  {
    if right != [] {
      var front := right[..|right| - 1];
      PairsEmpty(m, l, front);
      assert forall i :: 0 <= i < |front| ==> front[i] == right[i];
    }
  }

  lemma HasMatchIn(m: Match, l: Row, right: Table)
    ensures HasMatch(m, l, multiset(right)) <==> exists i :: 0 <= i < |right| && m(l, right[i])
  {
  }

  lemma RowJoinCount(t: JoinType, m: Match, l: Row, right: Table, o: Out)
    requires !t.Full? && !t.Single?
    ensures multiset(RowJoin(t, m, l, right))[o] == Times(t, m, multiset{l}, multiset(right), o)
  {
    PairsCount(m, l, right, o);
    PairsEmpty(m, l, right);
    HasMatchIn(m, l, right);
  }

  lemma LeftAdds(t: JoinType, m: Match, a: multiset<Row>, b: multiset<Row>, right: multiset<Row>, o: Out)
    ensures Times(t, m, a + b, right, o) == Times(t, m, a, right, o) + Times(t, m, b, right, o)
  {
  }

  lemma RightAdds(m: Match, left: multiset<Row>, a: multiset<Row>, b: multiset<Row>, o: Out)
    ensures Times(Inner, m, left, a + b, o) == Times(Inner, m, left, a, o) + Times(Inner, m, left, b, o)
  {
  }

  lemma {:induction false} NestedLoopIsJoin(t: JoinType, m: Match, left: Table, right: Table)
    requires !t.Full? && !t.Single?
    ensures IsJoin(t, m, left, right, NestedLoop(t, m, left, right))
  {
    if left != [] {
      var front, last := left[..|left| - 1], left[|left| - 1];
      NestedLoopIsJoin(t, m, front, right);
      assert left == front + [last];
      assert multiset(left) == multiset(front) + multiset{last};
      forall o ensures multiset(NestedLoop(t, m, left, right))[o] == Times(t, m, multiset(left), multiset(right), o) {
        RowJoinCount(t, m, last, right, o);
        LeftAdds(t, m, multiset(front), multiset{last}, multiset(right), o);
      }
    }
  }

  // ---------- Broadcast joins ----------

  /** Right side broadcast: one join task for each left partition, the outputs concatenated. */
  lemma {:induction false} BroadcastRight(t: JoinType, m: Match, parts: seq<Table>, right: Table, outs: seq<seq<Out>>)
    requires !t.Full? && !t.Single?
    requires |outs| == |parts| && forall i :: 0 <= i < |parts| ==> IsJoin(t, m, parts[i], right, outs[i])
    ensures IsJoin(t, m, Flatten(parts), right, Flatten(outs))
  {
    if parts != [] {
      var n := |parts| - 1;
      BroadcastRight(t, m, parts[..n], right, outs[..n]);
      forall o ensures multiset(Flatten(outs))[o] == Times(t, m, multiset(Flatten(parts)), multiset(right), o) {
        LeftAdds(t, m, multiset(Flatten(parts[..n])), multiset(parts[n]), multiset(right), o);
        assert multiset(outs[n])[o] == Times(t, m, multiset(parts[n]), multiset(right), o);
      }
    }
  }

  /** Left side broadcast with direct materialisation: one join task for each right partition. */
  lemma {:induction false} BroadcastLeft(m: Match, left: Table, parts: seq<Table>, outs: seq<seq<Out>>)
    requires |outs| == |parts| && forall i :: 0 <= i < |parts| ==> IsJoin(Inner, m, left, parts[i], outs[i])
    ensures IsJoin(Inner, m, left, Flatten(parts), Flatten(outs))
  {
    if parts != [] {
      var n := |parts| - 1;
      BroadcastLeft(m, left, parts[..n], outs[..n]);
      forall o ensures multiset(Flatten(outs))[o] == Times(Inner, m, multiset(left), multiset(Flatten(parts)), o) {
        RightAdds(m, multiset(left), multiset(Flatten(parts[..n])), multiset(parts[n]), o);
        assert multiset(outs[n])[o] == Times(Inner, m, multiset(left), multiset(parts[n]), o);
      }
    }
  }

  /** Splitting the right side and concatenating is sound for no other join type: hence the position lists, and hence
    the refusal of left joins. */
  lemma OnlyInnerSplitsRight(t: JoinType, l: Row, r: Row)
    requires !t.Full? && !t.Single? && !t.Inner?
    ensures var m: Match := (_, _) => true;
            var a, b := NestedLoop(t, m, [l], [r]), NestedLoop(t, m, [l], if t.Semi? then [r] else []);
            IsJoin(t, m, [l], [r], a) && IsJoin(t, m, [l], if t.Semi? then [r] else [], b) &&
            !IsJoin(t, m, [l], [r] + if t.Semi? then [r] else [], a + b)
  {
    var m: Match := (_, _) => true;
    var second := if t.Semi? then [r] else [];
    var a, b, o := NestedLoop(t, m, [l], [r]), NestedLoop(t, m, [l], second), Out(l, None);
    NestedLoopIsJoin(t, m, [l], [r]);
    NestedLoopIsJoin(t, m, [l], second);
    HasMatchIn(m, l, [r]);
    HasMatchIn(m, l, second);
    HasMatchIn(m, l, [r] + second);
    assert m(l, [r][0]) && m(l, ([r] + second)[0]) && (t.Semi? ==> m(l, second[0]));
    assert multiset(a)[o] == Times(t, m, multiset([l]), multiset([r]), o);
    assert multiset(b)[o] == Times(t, m, multiset([l]), multiset(second), o);
    assert multiset(a + b)[o] == multiset(a)[o] + multiset(b)[o];
    assert multiset(a + b)[o] != Times(t, m, multiset([l]), multiset([r] + second), o);
  }

  // ---------- Shuffle joins ----------

  /** `parts` is `whole` split by a hash: part `i` holds exactly the rows that hash to `i`. */
  ghost predicate SplitBy(h: Row -> nat, whole: Table, parts: seq<Table>)
  {
    forall i, l :: 0 <= i < |parts| ==> multiset(parts[i])[l] == if h(l) == i then multiset(whole)[l] else 0
  }

  /** Rows that match hash to the same partition. */
  ghost predicate Agree(m: Match, hl: Row -> nat, hr: Row -> nat, left: Table, right: Table)
  {
    forall l, r :: l in left && r in right && m(l, r) ==> hl(l) == hr(r)
  }

  lemma ShufflePart(t: JoinType, m: Match, hl: Row -> nat, hr: Row -> nat, left: Table, right: Table,
                    lefts: seq<Table>, rights: seq<Table>, i: nat, o: Out)
    requires SplitBy(hl, left, lefts) && SplitBy(hr, right, rights) && |rights| == |lefts| && i < |lefts|
    requires Agree(m, hl, hr, left, right)
    ensures Times(t, m, multiset(lefts[i]), multiset(rights[i]), o)
         == if hl(o.l) == i then Times(t, m, multiset(left), multiset(right), o) else 0
  {
  }

  lemma {:induction false} ShuffleCount(t: JoinType, m: Match, hl: Row -> nat, hr: Row -> nat, left: Table,
                                        right: Table, lefts: seq<Table>, rights: seq<Table>, outs: seq<seq<Out>>,
                                        n: nat, o: Out)
    requires SplitBy(hl, left, lefts) && SplitBy(hr, right, rights) && |rights| == |lefts| == |outs| && n <= |lefts|
    requires Agree(m, hl, hr, left, right)
    requires forall i :: 0 <= i < |outs| ==> IsJoin(t, m, lefts[i], rights[i], outs[i])
    ensures multiset(Flatten(outs[..n]))[o]
         == if hl(o.l) < n then Times(t, m, multiset(left), multiset(right), o) else 0
    decreases n
  {
    if n > 0 {
      ShuffleCount(t, m, hl, hr, left, right, lefts, rights, outs, n - 1, o);
      assert outs[..n] == outs[..n - 1] + [outs[n - 1]];
      FlattenPush(outs[..n - 1], outs[n - 1]);
      assert multiset(outs[n - 1])[o] == Times(t, m, multiset(lefts[n - 1]), multiset(rights[n - 1]), o);
      ShufflePart(t, m, hl, hr, left, right, lefts, rights, n - 1, o);
    }
  }

  /** Joining partition by partition gives the whole join, if matching rows always hash alike. */
  lemma ShuffleJoin(t: JoinType, m: Match, hl: Row -> nat, hr: Row -> nat, left: Table, right: Table,
                    lefts: seq<Table>, rights: seq<Table>, outs: seq<seq<Out>>)
    requires SplitBy(hl, left, lefts) && SplitBy(hr, right, rights) && |rights| == |lefts| == |outs|
    requires Agree(m, hl, hr, left, right) && forall l :: hl(l) < |lefts|
    requires forall i :: 0 <= i < |outs| ==> IsJoin(t, m, lefts[i], rights[i], outs[i])
    ensures IsJoin(t, m, left, right, Flatten(outs))
  {
    forall o ensures multiset(Flatten(outs))[o] == Times(t, m, multiset(left), multiset(right), o) {
      ShuffleCount(t, m, hl, hr, left, right, lefts, rights, outs, |outs|, o);
      assert outs[..|outs|] == outs;
    }
  }

  /** And only then: a single pair of matching rows that hash apart is joined wrongly, whatever the join type. */
  lemma ShuffleNeedsAgreement(t: JoinType, m: Match, hl: Row -> nat, hr: Row -> nat, l: Row, r: Row,
                              lefts: seq<Table>, rights: seq<Table>, outs: seq<seq<Out>>)
    requires !t.Full? && !t.Single? && m(l, r) && hl(l) != hr(r) && hl(l) < |lefts|
    requires SplitBy(hl, [l], lefts) && SplitBy(hr, [r], rights) && |rights| == |lefts| == |outs|
    requires forall i :: 0 <= i < |outs| ==> IsJoin(t, m, lefts[i], rights[i], outs[i])
    ensures !IsJoin(t, m, [l], [r], Flatten(outs))
  {
    var o := if t.Inner? then Out(l, Some(r)) else Out(l, None);
    ApartCount(t, m, hl, hr, l, r, lefts, rights, outs, |outs|, o);
    assert outs[..|outs|] == outs;
    OnePair(t, m, l, r, o);
  }

  lemma OnePair(t: JoinType, m: Match, l: Row, r: Row, o: Out)
    requires !t.Full? && !t.Single? && m(l, r) && o == if t.Inner? then Out(l, Some(r)) else Out(l, None)
    ensures Times(t, m, multiset([l]), multiset([r]), o) == if t.Inner? || t.Semi? then 1 else 0
  {
  }

  lemma ApartPart(t: JoinType, m: Match, hl: Row -> nat, hr: Row -> nat, l: Row, r: Row,
                  lefts: seq<Table>, rights: seq<Table>, i: nat, o: Out)
    requires !t.Full? && !t.Single? && m(l, r) && hl(l) != hr(r) && i < |lefts| == |rights|
    requires SplitBy(hl, [l], lefts) && SplitBy(hr, [r], rights)
    requires o == if t.Inner? then Out(l, Some(r)) else Out(l, None)
    ensures Times(t, m, multiset(lefts[i]), multiset(rights[i]), o)
         == if hl(l) == i && (t.LeftOuter? || t.Anti?) then 1 else 0
  {
    assert multiset(lefts[i])[l] == if hl(l) == i then 1 else 0;
    assert multiset(rights[i])[r] == if hr(r) == i then 1 else 0;
    forall r' | r' in multiset(rights[i]) ensures r' == r && hr(r) == i {
      assert multiset(rights[i])[r'] == if hr(r') == i then multiset([r])[r'] else 0;
    }
  }

  lemma {:induction false} ApartCount(t: JoinType, m: Match, hl: Row -> nat, hr: Row -> nat, l: Row, r: Row,
                                      lefts: seq<Table>, rights: seq<Table>, outs: seq<seq<Out>>, n: nat, o: Out)
    requires !t.Full? && !t.Single? && m(l, r) && hl(l) != hr(r) && n <= |lefts|
    requires SplitBy(hl, [l], lefts) && SplitBy(hr, [r], rights) && |rights| == |lefts| == |outs|
    requires forall i :: 0 <= i < |outs| ==> IsJoin(t, m, lefts[i], rights[i], outs[i])
    requires o == if t.Inner? then Out(l, Some(r)) else Out(l, None)
    ensures multiset(Flatten(outs[..n]))[o] == if hl(l) < n && (t.LeftOuter? || t.Anti?) then 1 else 0
    decreases n
  {
    if n > 0 {
      var i := n - 1;
      ApartCount(t, m, hl, hr, l, r, lefts, rights, outs, i, o);
      assert outs[..n] == outs[..i] + [outs[i]];
      FlattenPush(outs[..i], outs[i]);
      assert multiset(outs[i])[o] == Times(t, m, multiset(lefts[i]), multiset(rights[i]), o);
      ApartPart(t, m, hl, hr, l, r, lefts, rights, i, o);
    }
  }

  // ---------- Projection of the joined rows ----------

  /** Columns of the left row count first, then those of the right one; where there is no right row, a NULL. */
  lemma ProjectedCell(indices: seq<nat>, l: Row, r: Row, c: nat)
    requires c < |indices| && indices[c] < |l| + |r|
    ensures |Projected(indices, Out(l, Some(r)))| == |Projected(indices, Out(l, None))| == |indices|
    ensures Projected(indices, Out(l, Some(r)))[c] == if indices[c] < |l| then l[indices[c]] else r[indices[c] - |l|]
    ensures Projected(indices, Out(l, None))[c] == if indices[c] < |l| then l[indices[c]] else Null
  {
  }

  function CellAt(row: Row, c: nat): Cell
  {
    if c < |row| then row[c] else Null
  }

  /** The requested columns of the left row followed by the right row; a missing right row reads as NULLs. */
  function Projected(indices: seq<nat>, o: Out): Row
  {
    var both := o.l + if o.r.Some? then o.r.value else [];
    seq(|indices|, k requires 0 <= k < |indices| => CellAt(both, indices[k]))
  }

  function ProjectedRows(indices: seq<nat>, out: seq<Out>): Table
  {
    seq(|out|, k requires 0 <= k < |out| => Projected(indices, out[k]))
  }

  /** The same bag of joined rows gives the same bag of result rows. */
  lemma {:induction false} SameBag(indices: seq<nat>, a: seq<Out>, b: seq<Out>)
    requires multiset(a) == multiset(b)
    ensures multiset(ProjectedRows(indices, a)) == multiset(ProjectedRows(indices, b))
    decreases |a|
  {
    if a == [] {
      assert |multiset(b)| == 0;
    } else {
      var last := a[|a| - 1];
      assert last in multiset(b);
      var k :| 0 <= k < |b| && b[k] == last;
      Without(a, |a| - 1);
      Without(b, k);
      SameBag(indices, a[..|a| - 1] + a[|a|..], b[..k] + b[k + 1..]);
      RemoveOne(indices, a, |a| - 1);
      RemoveOne(indices, b, k);
    }
  }

  lemma Without<T>(s: seq<T>, k: nat)
    requires k < |s|
    ensures multiset(s[..k] + s[k + 1..]) == multiset(s) - multiset{s[k]}
  {
    assert s == s[..k] + [s[k]] + s[k + 1..];
  }

  lemma RemoveOne(indices: seq<nat>, a: seq<Out>, k: nat)
    requires k < |a|
    ensures multiset(ProjectedRows(indices, a))
         == multiset(ProjectedRows(indices, a[..k] + a[k + 1..])) + multiset{Projected(indices, a[k])}
  {
    var all := ProjectedRows(indices, a);
    var front, back := ProjectedRows(indices, a[..k]), ProjectedRows(indices, a[k + 1..]);
    assert all == front + [Projected(indices, a[k])] + back;
    assert ProjectedRows(indices, a[..k] + a[k + 1..]) == front + back;
  }

  /** The joined row that a pair of gather indices stands for. */
  function Gathered(left: Table, right: Table, i: nat, j: Option<nat>): Out
    requires i < |left| && (j.Some? ==> j.value < |right|)
  {
    Out(left[i], if j.Some? then Some(right[j.value]) else None)
  }

  ghost predicate Gathers(left: Table, leftWidth: nat, right: Table, rightWidth: nat, li: seq<nat>,
                          ri: seq<Option<nat>>)
  {
    |li| == |ri| && (forall k :: 0 <= k < |li| ==> li[k] < |left| && (ri[k].Some? ==> ri[k].value < |right|)) &&
    (forall i :: 0 <= i < |left| ==> |left[i]| == leftWidth) &&
    (forall i :: 0 <= i < |right| ==> |right[i]| == rightWidth)
  }

  /** `materialize`: one gather per projected column, from the left or from the right table. */
  method Materialize(left: Table, leftWidth: nat, right: Table, rightWidth: nat, li: seq<nat>, ri: seq<Option<nat>>,
                     projection: seq<nat>) returns (r: Attempt<seq<seq<Cell>>>)
    requires Gathers(left, leftWidth, right, rightWidth, li, ri)
    ensures r.Returned? <==> forall c :: 0 <= c < |projection| ==> projection[c] < leftWidth + rightWidth
    ensures r.Returned? ==> |r.value| == |projection| && forall c :: 0 <= c < |projection| ==> |r.value[c]| == |li|
    ensures r.Returned? ==> forall c, k :: 0 <= c < |projection| && 0 <= k < |li| ==>
              r.value[c][k] == if projection[c] < leftWidth then left[li[k]][projection[c]]
                               else if ri[k].Some? then right[ri[k].value][projection[c] - leftWidth]
                               else Null
    ensures r.Returned? ==> forall c, k :: 0 <= c < |projection| && 0 <= k < |li| ==>
              r.value[c][k] == Projected(projection, Gathered(left, right, li[k], ri[k]))[c]
  {
    var columns: seq<seq<Cell>> := [];
    for c := 0 to |projection|
      invariant |columns| == c
      invariant forall d :: 0 <= d < c ==> projection[d] < leftWidth + rightWidth && |columns[d]| == |li|
      invariant forall d, k :: 0 <= d < c && 0 <= k < |li| ==>
        columns[d][k] == if projection[d] < leftWidth then left[li[k]][projection[d]]
                         else if ri[k].Some? then right[ri[k].value][projection[d] - leftWidth]
                         else Null
    {
      var idx := projection[c];
      if idx < leftWidth {
        columns := columns + [seq(|li|, k requires 0 <= k < |li| && li[k] < |left| => CellAt(left[li[k]], idx))];
      } else {
        if idx - leftWidth >= rightWidth { return Thrown; }
        columns := columns + [seq(|li|, k requires 0 <= k < |ri| && (ri[k].Some? ==> ri[k].value < |right|) =>
                                    if ri[k].Some? then CellAt(right[ri[k].value], idx - leftWidth) else Null)];
      }
    }
    forall c, k | 0 <= c < |projection| && 0 <= k < |li|
      ensures columns[c][k] == Projected(projection, Gathered(left, right, li[k], ri[k]))[c]
    {
      assert |left[li[k]]| == leftWidth;
    }
    r := Returned(columns);
  }
}
