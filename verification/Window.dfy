/** A window function without ORDER BY, turned into an aggregation by the partition keys and a join back. */
module Window {
  import opened Wrappers
  import opened Relational
  import opened Aggregation
  import opened Joins
  import C = JoinCondition

  datatype Request = Request(width: nat, partitionBy: seq<Expr>, arguments: seq<Expr>, kind: Kind, boundedFrame: bool)

  /** The join condition: partition expressions on the left row, columns of the combined row. */
  datatype Condition = SameKey(p: Expr, col: nat) | Both(a: Condition, b: Condition)

  function Eval(c: Condition, l: Row, r: Row): Cell
  {
    match c
    case SameKey(p, col) =>
      var a, b := p(l), Column(col)(l + r);
      if a.Null? || b.Null? then Null else C.Bool(a == b)
    case Both(a, b) => C.ThreeAnd(Eval(a, l, r), Eval(b, l, r))
  }

  /** One key compared with the column of the grouping, NULL if either is; conjunctions under three-valued logic. */
  lemma EvalMeans(p: Expr, col: nat, a: Condition, b: Condition, l: Row, r: Row)
    requires |l| <= col < |l| + |r|
    ensures C.True(Eval(SameKey(p, col), l, r)) <==> !p(l).Null? && p(l) == r[col - |l|]
    ensures C.True(Eval(Both(a, b), l, r)) <==> C.True(Eval(a, l, r)) && C.True(Eval(b, l, r))
  {
  }

  datatype WindowPlan = WindowPlan(keys: seq<Expr>, values: seq<Value>, condition: Condition, indices: seq<nat>)

  /** Every partition key is the same, and not NULL. */
  ghost predicate SameKeys(keys: seq<Expr>, l: Row, r: Row, n: nat)
    requires n <= |keys| && n <= |r|
  {
    forall i :: 0 <= i < n ==> !keys[i](l).Null? && keys[i](l) == r[i]
  }

  ghost predicate ConditionOk(keys: seq<Expr>, width: nat, c: Condition, n: nat)
    requires n <= |keys|
  {
    forall l: Row, r: Row {:trigger Eval(c, l, r)} ::
      |l| == width && n <= |r| ==> (C.True(Eval(c, l, r)) <==> SameKeys(keys, l, r, n))
  }

  /** The window case of the physical plan builder for requests without ORDER BY. */
  method Build(w: Request) returns (r: Attempt<WindowPlan>)
    requires w.partitionBy != []
    ensures r.Returned? <==> !w.boundedFrame && |w.arguments| <= 1
    ensures r.Returned? ==> r.value.keys == w.partitionBy && |r.value.values| == |w.arguments|
    ensures r.Returned? ==> forall i :: 0 <= i < |w.arguments| ==> r.value.values[i] == Value(w.kind, w.arguments[i])
    ensures r.Returned? ==> ConditionOk(w.partitionBy, w.width, r.value.condition, |w.partitionBy|)
    ensures r.Returned? ==> r.value.indices == seq(w.width, i => i) + [w.width + |w.partitionBy|]
  {
    if w.boundedFrame { return Thrown; }
    var values: seq<Value> := [];
    for i := 0 to |w.arguments|
      invariant |values| == i && forall j :: 0 <= j < i ==> values[j] == Value(w.kind, w.arguments[j])
    {
      values := values + [Value(w.kind, w.arguments[i])];
    }
    if |values| > 1 { return Thrown; }
    var condition := SameKey(w.partitionBy[0], w.width);
    for i := 1 to |w.partitionBy|
      invariant ConditionOk(w.partitionBy, w.width, condition, i)
    {
      AddKey(w.partitionBy, w.width, condition, i);
      condition := Both(condition, SameKey(w.partitionBy[i], w.width + i));
    }
    var indices: seq<nat> := [];
    for i := 0 to w.width
      invariant indices == seq(i, j => j)
    {
      indices := indices + [i];
    }
    indices := indices + [w.width + |w.partitionBy|];
    r := Returned(WindowPlan(w.partitionBy, values, condition, indices));
  }

  lemma AddKey(keys: seq<Expr>, width: nat, c: Condition, n: nat)
    requires n < |keys| && ConditionOk(keys, width, c, n)
    ensures ConditionOk(keys, width, Both(c, SameKey(keys[n], width + n)), n + 1)
  {
    var more := Both(c, SameKey(keys[n], width + n));
    forall l: Row, r: Row | |l| == width && n + 1 <= |r|
      ensures C.True(Eval(more, l, r)) <==> SameKeys(keys, l, r, n + 1)
    {
      assert C.True(Eval(c, l, r)) <==> SameKeys(keys, l, r, n);
      assert (l + r)[width + n] == r[n];
    }
  }

  // ---------- What the plan returns ----------

  /** The row a partition's aggregate is found in. */
  function PartitionRow(keys: seq<Expr>, values: seq<Value>, rows: Table, l: Row): Row
  {
    OutRow(keys, values, rows, Select(keys, l))
  }

  ghost predicate NoNullKey(keys: seq<Expr>, l: Row)
  {
    forall i :: 0 <= i < |keys| ==> !keys[i](l).Null?
  }

  ghost function Paired(keep: Row -> bool, partner: Row -> Row, rows: Table): seq<Out>
  {
    if rows == [] then []
    else
      var last := rows[|rows| - 1];
      Paired(keep, partner, rows[..|rows| - 1]) + if keep(last) then [Out(last, Some(partner(last)))] else []
  }

  lemma {:induction false} PairedCount(keep: Row -> bool, partner: Row -> Row, rows: Table, o: Out)
    ensures multiset(Paired(keep, partner, rows))[o]
         == if keep(o.l) && o.r == Some(partner(o.l)) then multiset(rows)[o.l] else 0
  {
    if rows != [] {
      PairedCount(keep, partner, rows[..|rows| - 1], o);
      assert rows == rows[..|rows| - 1] + [rows[|rows| - 1]];
    }
  }

  /** Each row with the row of its own partition, without the rows that have a NULL key. */
  ghost function Expected(keys: seq<Expr>, values: seq<Value>, rows: Table): seq<Out>
  {
    Paired(l => NoNullKey(keys, l), l => PartitionRow(keys, values, rows, l), rows)
  }

  lemma {:induction false} OwnGroup(keys: seq<Expr>, rows: Table, l: Row)
    requires l in rows
    ensures Group(keys, rows, Select(keys, l)) != []
  {
    var last := rows[|rows| - 1];
    if l != last {
      assert rows == rows[..|rows| - 1] + [last];
      OwnGroup(keys, rows[..|rows| - 1], l);
    }
  }

  /** In the grouping, a row with no NULL key matches its own partition's row and no other, and that row occurs once. */
  lemma GroupingCount(keys: seq<Expr>, values: seq<Value>, rows: Table, grouping: Table, l: Row, r: Row)
    requires keys != [] && Aggregates(keys, values, rows, grouping) && l in rows
    ensures r in multiset(grouping) ==> |r| == |keys| + |values|
    ensures multiset(grouping)[r] == (if r in multiset(grouping) then 1 else 0)
    ensures NoNullKey(keys, l) && r == PartitionRow(keys, values, rows, l) ==>
              r in multiset(grouping) && |keys| <= |r| && SameKeys(keys, l, r, |keys|)
    ensures r in multiset(grouping) && SameKeys(keys, l, r, |keys|) ==>
              NoNullKey(keys, l) && r == PartitionRow(keys, values, rows, l)
  {
    if r in multiset(grouping) {
      assert r in grouping;
      var j :| 0 <= j < |grouping| && grouping[j] == r;
      assert RowOk(keys, values, rows, grouping[j]);
      OnceIn(grouping, |keys|, j);
      if SameKeys(keys, l, r, |keys|) {
        assert r[..|keys|] == Select(keys, l);
      }
    }
    if r == PartitionRow(keys, values, rows, l) {
      OwnGroup(keys, rows, l);
      assert Present(keys, rows, Select(keys, l));
      assert Lists(|keys|, grouping, Select(keys, l));
      var j :| 0 <= j < |grouping| && HasKey(|keys|, grouping[j], Select(keys, l));
      assert RowOk(keys, values, rows, grouping[j]);
      assert grouping[j] == r;
      assert r in grouping;
    }
  }

  lemma {:induction false} OnceIn(s: Table, nk: nat, j: nat)
    requires j < |s| && forall i :: 0 <= i < |s| ==> nk <= |s[i]|
    requires forall i, k :: 0 <= i < k < |s| ==> s[i][..nk] != s[k][..nk]
    ensures multiset(s)[s[j]] == 1
  {
    var n := |s| - 1;
    assert s == s[..n] + [s[n]];
    if j == n {
      assert s[n] !in s[..n];
      assert multiset(s[..n])[s[n]] == 0;
    } else {
      OnceIn(s[..n], nk, j);
    }
  }

  /** The join of the table with its grouping pairs each row that has no NULL key with its own partition, once. */
  lemma JoinedCount(plan: WindowPlan, width: nat, m: Match, rows: Table, grouping: Table, o: Out)
    requires plan.keys != [] && ConditionOk(plan.keys, width, plan.condition, |plan.keys|)
    requires forall i :: 0 <= i < |rows| ==> |rows[i]| == width
    requires forall l, r :: m(l, r) <==> C.True(Eval(plan.condition, l, r))
    requires Aggregates(plan.keys, plan.values, rows, grouping)
    ensures Times(Inner, m, multiset(rows), multiset(grouping), o)
         == if NoNullKey(plan.keys, o.l) && o.r == Some(PartitionRow(plan.keys, plan.values, rows, o.l))
            then multiset(rows)[o.l] else 0
  {
    if o.l in rows && o.r.Some? {
      var l, r := o.l, o.r.value;
      GroupingCount(plan.keys, plan.values, rows, grouping, l, r);
      assert |l| == width;
      if |plan.keys| <= |r| {
        assert C.True(Eval(plan.condition, l, r)) <==> SameKeys(plan.keys, l, r, |plan.keys|);
      }
    } else {
      assert o.r.Some? ==> o.l !in multiset(rows);
    }
  }

  lemma JoinedRows(plan: WindowPlan, width: nat, m: Match, rows: Table, grouping: Table, out: seq<Out>)
    requires plan.keys != [] && ConditionOk(plan.keys, width, plan.condition, |plan.keys|)
    requires forall i :: 0 <= i < |rows| ==> |rows[i]| == width
    requires forall l, r :: m(l, r) <==> C.True(Eval(plan.condition, l, r))
    requires Aggregates(plan.keys, plan.values, rows, grouping) && IsJoin(Inner, m, rows, grouping, out)
    ensures multiset(out) == multiset(Expected(plan.keys, plan.values, rows))
  {
    forall o ensures multiset(out)[o] == multiset(Expected(plan.keys, plan.values, rows))[o] {
      JoinedCount(plan, width, m, rows, grouping, o);
      PairedCount(l => NoNullKey(plan.keys, l), l => PartitionRow(plan.keys, plan.values, rows, l), rows, o);
    }
  }

  // ---------- After the projection ----------

  /** The reference: every row without a NULL key, in order, with its partition's aggregate appended. `rows` runs
    through prefixes of `all`. */
  ghost function WindowRows(keys: seq<Expr>, v: Value, all: Table, rows: Table): Table
  {
    if rows == [] then []
    else
      var last := rows[|rows| - 1];
      WindowRows(keys, v, all, rows[..|rows| - 1]) +
      if NoNullKey(keys, last) then [last + [GroupAgg(keys, v, all, Select(keys, last))]] else []
  }

  /** The rows of the reference: in order, those none of whose keys is NULL, each with a cell appended. */
  lemma {:induction false} WindowIs(keys: seq<Expr>, v: Value, all: Table, rows: Table, p: Row -> bool)
    requires forall row :: p(row) <==> forall c :: 0 <= c < |keys| ==> !keys[c](row).Null?
    ensures |WindowRows(keys, v, all, rows)| == |Filter(p, rows)|
    ensures forall k :: 0 <= k < |Filter(p, rows)| ==>
              WindowRows(keys, v, all, rows)[k]
              == Filter(p, rows)[k] + [GroupAgg(keys, v, all, Select(keys, Filter(p, rows)[k]))]
  {
    if rows != [] {
      WindowIs(keys, v, all, rows[..|rows| - 1], p);
      assert NoNullKey(keys, rows[|rows| - 1]) <==> p(rows[|rows| - 1]);
    }
  }

  /** The appended cell: the aggregate over exactly the rows whose keys are those of the row. */
  lemma WindowCell(keys: seq<Expr>, v: Value, all: Table, row: Row, p: Row -> bool)
    requires forall r :: p(r) <==> forall c :: 0 <= c < |keys| ==> keys[c](r) == keys[c](row)
    ensures GroupAgg(keys, v, all, Select(keys, row)) == Agg(v.kind, Cells(v.e, Filter(p, all)))
  {
    var key := Select(keys, row);
    forall r ensures p(r) <==> KeyIs(keys, r, key) {
    }
    GroupIs(keys, all, key, p);
  }

  lemma PairMaterialized(plan: WindowPlan, width: nat, all: Table, l: Row)
    requires |plan.values| == 1 && |l| == width && plan.indices == seq(width, i => i) + [width + |plan.keys|]
    ensures Projected(plan.indices, Out(l, Some(PartitionRow(plan.keys, plan.values, all, l))))
         == l + [GroupAgg(plan.keys, plan.values[0], all, Select(plan.keys, l))]
  {
  }

  lemma {:induction false} ExpectedMaterialized(plan: WindowPlan, width: nat, all: Table, rows: Table)
    requires |plan.values| == 1 && forall i :: 0 <= i < |rows| ==> |rows[i]| == width
    requires plan.indices == seq(width, i => i) + [width + |plan.keys|]
    ensures ProjectedRows(plan.indices,
                          Paired(l => NoNullKey(plan.keys, l), l => PartitionRow(plan.keys, plan.values, all, l), rows))
         == WindowRows(plan.keys, plan.values[0], all, rows)
  {
    if rows != [] {
      ExpectedMaterialized(plan, width, all, rows[..|rows| - 1]);
      PairMaterialized(plan, width, all, rows[|rows| - 1]);
    }
  }

  /** The generated plan returns, for every input row without a NULL partition key, that row once with the aggregate of
    its own partition; rows with a NULL key are lost. */
  lemma WindowMeans(plan: WindowPlan, width: nat, m: Match, rows: Table, grouping: Table, out: seq<Out>)
    requires plan.keys != [] && |plan.values| == 1 && ConditionOk(plan.keys, width, plan.condition, |plan.keys|)
    requires plan.indices == seq(width, i => i) + [width + |plan.keys|]
    requires forall i :: 0 <= i < |rows| ==> |rows[i]| == width
    requires forall l, r :: m(l, r) <==> C.True(Eval(plan.condition, l, r))
    requires Aggregates(plan.keys, plan.values, rows, grouping) && IsJoin(Inner, m, rows, grouping, out)
    ensures multiset(ProjectedRows(plan.indices, out))
         == multiset(WindowRows(plan.keys, plan.values[0], rows, rows))
  {
    JoinedRows(plan, width, m, rows, grouping, out);
    SameBag(plan.indices, out, Expected(plan.keys, plan.values, rows));
    ExpectedMaterialized(plan, width, rows, rows);
  }

  /** No row is lost exactly if no partition key is NULL. */
  lemma {:induction false} AllRowsIff(keys: seq<Expr>, v: Value, all: Table, rows: Table)
    ensures |WindowRows(keys, v, all, rows)| <= |rows|
    ensures |WindowRows(keys, v, all, rows)| == |rows| <==> forall i :: 0 <= i < |rows| ==> NoNullKey(keys, rows[i])
  {
    if rows != [] { AllRowsIff(keys, v, all, rows[..|rows| - 1]); }
  }

  /** The aggregate of the argument over the partition of the row. */
  ghost function PartitionAgg(w: Request, rows: Table, row: Row): Cell
    requires w.arguments != []
  {
    GroupAgg(w.partitionBy, Value(w.kind, w.arguments[0]), rows, Select(w.partitionBy, row))
  }

  /** The column of the aggregate exists exactly if there is an argument: without one every execution throws. */
  method Run(w: Request, rows: Table, grouping: Table, li: seq<nat>, ri: seq<Option<nat>>)
    returns (r: Attempt<seq<seq<Cell>>>)
    requires w.partitionBy != []
    requires Gathers(rows, w.width, grouping, |w.partitionBy| + |w.arguments|, li, ri)
    ensures r.Returned? <==> !w.boundedFrame && |w.arguments| == 1
    ensures r.Returned? ==> |r.value| == w.width + 1 && forall c :: 0 <= c <= w.width ==> |r.value[c]| == |li|
    ensures r.Returned? ==> forall c, k :: 0 <= c < w.width && 0 <= k < |li| ==> r.value[c][k] == rows[li[k]][c]
    ensures r.Returned? ==> forall k :: 0 <= k < |li| ==>
              r.value[w.width][k] == if ri[k].Some? then grouping[ri[k].value][|w.partitionBy|] else Null
    ensures r.Returned? && Aggregates(w.partitionBy, [Value(w.kind, w.arguments[0])], rows, grouping) ==>
              forall k :: 0 <= k < |li| && ri[k].Some? && KeyIs(w.partitionBy, rows[li[k]], grouping[ri[k].value]) ==>
                r.value[w.width][k] == PartitionAgg(w, rows, rows[li[k]])
  {
    var plan := Build(w);
    if plan.Thrown? { return Thrown; }
    var indices := plan.value.indices;
    assert indices[w.width] == w.width + |w.partitionBy|;
    r := Materialize(rows, w.width, grouping, |plan.value.keys| + |plan.value.values|, li, ri, indices);
    if r.Returned? && Aggregates(w.partitionBy, [Value(w.kind, w.arguments[0])], rows, grouping) {
      forall k | 0 <= k < |li| && ri[k].Some? && KeyIs(w.partitionBy, rows[li[k]], grouping[ri[k].value])
        ensures grouping[ri[k].value][|w.partitionBy|] == PartitionAgg(w, rows, rows[li[k]])
      {
        GroupingCell(w.partitionBy, Value(w.kind, w.arguments[0]), rows, grouping, ri[k].value, rows[li[k]]);
      }
    }
  }

  /** The cell of a grouping beside the key of a row is the aggregate of its group. */
  lemma GroupingCell(keys: seq<Expr>, v: Value, rows: Table, grouping: Table, j: nat, row: Row)
    requires Aggregates(keys, [v], rows, grouping) && j < |grouping| && KeyIs(keys, row, grouping[j])
    ensures |grouping[j]| == |keys| + 1 && grouping[j][|keys|] == GroupAgg(keys, v, rows, Select(keys, row))
  {
    assert RowOk(keys, [v], rows, grouping[j]);
    SelectIs(keys, row, grouping[j][..|keys|]);
    assert KeyIs(keys, row, grouping[j][..|keys|]);
  }
}
