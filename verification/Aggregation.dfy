/** Apply-concat-apply aggregation: partial aggregates per partition, concatenated, aggregated again and projected. */
module Aggregation {
  import opened Wrappers
  import opened Relational

  datatype Kind = Sum | Mean | CountValid | CountAll | Min | Max | OtherKind(id: nat)

  type Expr = Row -> Cell

  datatype Value = Value(kind: Kind, e: Expr)

  // ---------- The reference: grouping a whole table at once ----------

  function Merge(k: Kind, a: Cell, b: Cell): Cell
  {
    if a.Null? then b
    else if b.Null? then a
    else match k
      case Min => if b.v < a.v then b else a
      case Max => if b.v > a.v then b else a
      case _ => Num(a.v + b.v)
  }

  /** SUM, MIN or MAX of the non-null cells; NULL if there is none. */
  function Fold(k: Kind, s: seq<Cell>): Cell
  {
    if s == [] then Null else Merge(k, Fold(k, s[..|s| - 1]), s[|s| - 1])
  }

  function NullCount(s: seq<Cell>): (n: nat)
    ensures n <= |s|
  {
    if s == [] then 0 else NullCount(s[..|s| - 1]) + if s[|s| - 1].Null? then 1 else 0
  }

  /** Only NULL operands give NULL; dividing by zero gives some value that does not matter here. */
  function Divide(a: Cell, b: Cell): Cell
  {
    if a.Null? || b.Null? then Null else Num(if b.v == 0.0 then a.v else a.v / b.v)
  }

  function Agg(k: Kind, s: seq<Cell>): Cell
  {
    match k
    case CountAll => Num(|s| as real)
    case CountValid => Num((|s| - NullCount(s)) as real)
    case Mean =>
      if NullCount(s) == |s| then Null else Divide(Fold(Sum, s), Num((|s| - NullCount(s)) as real))
    case _ => Fold(k, s)
  }

  function Cells(e: Expr, rows: Table): seq<Cell>
  {
    if rows == [] then [] else Cells(e, rows[..|rows| - 1]) + [e(rows[|rows| - 1])]
  }

  function Select(exprs: seq<Expr>, row: Row): (r: Row)
    ensures |r| == |exprs|
  {
    seq(|exprs|, i requires 0 <= i < |exprs| => exprs[i](row))
  }

  /** The rows with a given key. NULLs are grouped together. */
  function Group(keys: seq<Expr>, rows: Table, key: Row): Table
  {
    if rows == [] then []
    else
      var last := rows[|rows| - 1];
      Group(keys, rows[..|rows| - 1], key) + if Select(keys, last) == key then [last] else []
  }

  function AggCells(vals: seq<Value>, group: Table): (r: Row)
    ensures |r| == |vals|
  {
    seq(|vals|, i requires 0 <= i < |vals| => Agg(vals[i].kind, Cells(vals[i].e, group)))
  }

  function OutRow(keys: seq<Expr>, vals: seq<Value>, rows: Table, key: Row): Row
  {
    key + AggCells(vals, Group(keys, rows, key))
  }

  /** Without keys there is one group even if the table is empty. */
  predicate Present(keys: seq<Expr>, rows: Table, key: Row)
  {
    |key| == |keys| && (keys == [] || Group(keys, rows, key) != [])
  }

  ghost predicate HasKey(nk: nat, row: Row, key: Row)
  {
    nk <= |row| && row[..nk] == key
  }

  ghost predicate Lists(nk: nat, out: Table, key: Row)
  {
    exists j :: 0 <= j < |out| && HasKey(nk, out[j], key)
  }

  /** `out` is the grouping of `rows`, in any order: one row for each key that occurs, with its aggregates. */
  ghost predicate Aggregates(keys: seq<Expr>, vals: seq<Value>, rows: Table, out: Table)
  {
    (forall j :: 0 <= j < |out| ==> RowOk(keys, vals, rows, out[j])) &&
    (forall key :: Present(keys, rows, key) ==> Lists(|keys|, out, key)) &&
    (forall i, j :: 0 <= i < j < |out| ==> out[i][..|keys|] != out[j][..|keys|])
  }

  ghost predicate RowOk(keys: seq<Expr>, vals: seq<Value>, rows: Table, row: Row)
  {
    |row| == |keys| + |vals| && Present(keys, rows, row[..|keys|]) && row == OutRow(keys, vals, rows, row[..|keys|])
  }

  // ---------- What the reference computes ----------

  ghost function Valids(s: seq<Cell>): set<int>
  {
    set i | 0 <= i < |s| && s[i].Num?
  }

  /** The sum of the non-null cells, front to back. */
  function Total(s: seq<Cell>): real
  {
    if s == [] then 0.0 else (if s[0].Num? then s[0].v else 0.0) + Total(s[1..])
  }

  lemma {:induction false} TotalLast(s: seq<Cell>)
    requires s != []
    ensures Total(s) == Total(s[..|s| - 1]) + if s[|s| - 1].Num? then s[|s| - 1].v else 0.0
  {
    if |s| > 1 {
      assert s[1..][..|s| - 2] == s[..|s| - 1][1..];
      TotalLast(s[1..]);
    }
  }

  lemma {:induction false} ValidCount(s: seq<Cell>)
    ensures |Valids(s)| == |s| - NullCount(s)
  {
    if s != [] {
      var n := |s| - 1;
      ValidCount(s[..n]);
      if s[n].Num? {
        assert Valids(s) == Valids(s[..n]) + {n};
      } else {
        assert Valids(s) == Valids(s[..n]);
      }
    }
  }

  lemma {:induction false} FoldNull(k: Kind, s: seq<Cell>)
    ensures Fold(k, s).Null? <==> forall i :: 0 <= i < |s| ==> s[i].Null?
  {
    if s != [] {
      var front := s[..|s| - 1];
      FoldNull(k, front);
      assert forall i :: 0 <= i < |front| ==> front[i] == s[i];
    }
  }

  lemma {:induction false} FoldExtreme(k: Kind, s: seq<Cell>)
    requires k.Min? || k.Max?
    ensures Fold(k, s).Num? ==> Fold(k, s) in s
    ensures forall i :: 0 <= i < |s| && s[i].Num? ==>
              Fold(k, s).Num? && if k.Min? then Fold(k, s).v <= s[i].v else s[i].v <= Fold(k, s).v
  {
    if s != [] {
      var front := s[..|s| - 1];
      FoldExtreme(k, front);
      assert forall i :: 0 <= i < |front| ==> front[i] == s[i];
    }
  }

  lemma {:induction false} FoldTotal(s: seq<Cell>)
    ensures Fold(Sum, s).Num? ==> Fold(Sum, s).v == Total(s)
    ensures Fold(Sum, s).Null? ==> Total(s) == 0.0
  {
    if s != [] {
      FoldTotal(s[..|s| - 1]);
      TotalLast(s);
    }
  }

  lemma MeanTotal(s: seq<Cell>)
    requires Agg(Mean, s).Num?
    ensures |Valids(s)| > 0 && Agg(Mean, s).v == Total(s) / (|Valids(s)| as real)
  {
    ValidCount(s);
    FoldTotal(s);
    SumNull(s);
  }

  lemma AggNull(k: Kind, s: seq<Cell>)
    requires k.Sum? || k.Mean? || k.Min? || k.Max?
    ensures Agg(k, s).Null? <==> forall i :: 0 <= i < |s| ==> s[i].Null?
  {
    FoldNull(k, s);
    FoldNull(Sum, s);
    SumNull(s);
  }

  /** MIN and MAX are the least and the greatest of the non-null cells, SUM is their sum, MEAN that sum divided by their
    number; all are NULL exactly if there is none. The counts are the numbers of non-null cells and of all cells. */
  lemma AggMeans(k: Kind, s: seq<Cell>)
    ensures k.CountAll? ==> Agg(k, s) == Num(|s| as real)
    ensures k.CountValid? ==> Agg(k, s) == Num(|Valids(s)| as real)
    ensures k.Sum? || k.Mean? || k.Min? || k.Max? ==>
              (Agg(k, s).Null? <==> forall i :: 0 <= i < |s| ==> s[i].Null?)
    ensures (k.Min? || k.Max?) && Agg(k, s).Num? ==> Agg(k, s) in s
    ensures k.Min? && Agg(k, s).Num? ==> forall i :: 0 <= i < |s| && s[i].Num? ==> Agg(k, s).v <= s[i].v
    ensures k.Max? && Agg(k, s).Num? ==> forall i :: 0 <= i < |s| && s[i].Num? ==> s[i].v <= Agg(k, s).v
    ensures k.Sum? && Agg(k, s).Num? ==> Agg(k, s).v == Total(s)
    ensures k.Mean? && Agg(k, s).Num? ==> |Valids(s)| > 0 && Agg(k, s).v == Total(s) / (|Valids(s)| as real)
  {
    match k
    case CountAll =>
    case CountValid => ValidCount(s);
    case Sum => AggNull(k, s); FoldTotal(s);
    case Mean =>
      AggNull(k, s);
      if Agg(k, s).Num? { MeanTotal(s); }
    case OtherKind(_) =>
    case _ => AggNull(k, s); FoldExtreme(k, s);
  }

  lemma {:induction false} CellsAre(e: Expr, rows: Table)
    ensures |Cells(e, rows)| == |rows| && forall i :: 0 <= i < |rows| ==> Cells(e, rows)[i] == e(rows[i])
  {
    if rows != [] {
      var front := rows[..|rows| - 1];
      CellsAre(e, front);
      assert forall i :: 0 <= i < |front| ==> front[i] == rows[i];
    }
  }

  /** The keys of the row evaluate to the first cells of `key`. */
  ghost predicate KeyIs(keys: seq<Expr>, row: Row, key: Row)
  {
    forall c :: 0 <= c < |keys| && c < |key| ==> keys[c](row) == key[c]
  }

  lemma SelectIs(keys: seq<Expr>, row: Row, key: Row)
    requires |key| == |keys|
    ensures Select(keys, row) == key <==> KeyIs(keys, row, key)
  {
  }

  /** A group is the rows whose keys evaluate to the given cells, in their order. */
  lemma {:induction false} GroupIs(keys: seq<Expr>, rows: Table, key: Row, p: Row -> bool)
    requires |key| == |keys| && forall row :: p(row) <==> KeyIs(keys, row, key)
    ensures Group(keys, rows, key) == Filter(p, rows)
  {
    if rows != [] {
      GroupIs(keys, rows[..|rows| - 1], key, p);
      SelectIs(keys, rows[|rows| - 1], key);
    }
  }

  /** A row of a grouping: its key occurs, and each further cell is the aggregate of the expression over exactly the
    rows with that key. */
  lemma GroupedRow(keys: seq<Expr>, vals: seq<Value>, rows: Table, out: Table, j: nat, p: Row -> bool)
    requires Aggregates(keys, vals, rows, out) && j < |out| && forall row :: p(row) <==> KeyIs(keys, row, out[j])
    ensures |out[j]| == |keys| + |vals| && (keys != [] ==> Filter(p, rows) != [])
    ensures forall v :: 0 <= v < |vals| ==> out[j][|keys| + v] == Agg(vals[v].kind, Cells(vals[v].e, Filter(p, rows)))
  {
    var key := out[j][..|keys|];
    assert RowOk(keys, vals, rows, out[j]);
    forall row ensures p(row) <==> KeyIs(keys, row, key) {
      assert KeyIs(keys, row, out[j]) <==> KeyIs(keys, row, key);
    }
    GroupIs(keys, rows, key, p);
  }

  /** The key of every row is listed once; without keys there is one row. */
  lemma KeyListed(keys: seq<Expr>, vals: seq<Value>, rows: Table, out: Table, row: Row) returns (j: nat)
    requires Aggregates(keys, vals, rows, out) && (row in rows || keys == [])
    ensures j < |out| && KeyIs(keys, row, out[j])
    ensures forall m :: 0 <= m < |out| && KeyIs(keys, row, out[m]) ==> m == j
  {
    var key := Select(keys, row);
    OwnKeyPresent(keys, rows, row);
    assert Lists(|keys|, out, key);
    j :| 0 <= j < |out| && HasKey(|keys|, out[j], key);
    forall m | 0 <= m < |out| ensures KeyIs(keys, row, out[m]) <==> out[m][..|keys|] == key {
      assert RowOk(keys, vals, rows, out[m]);
      SelectIs(keys, row, out[m][..|keys|]);
      assert KeyIs(keys, row, out[m]) <==> KeyIs(keys, row, out[m][..|keys|]);
    }
  }

  lemma OwnKeyPresent(keys: seq<Expr>, rows: Table, row: Row)
    requires row in rows || keys == []
    ensures Present(keys, rows, Select(keys, row))
  {
    if row in rows {
      var key := Select(keys, row);
      var p: Row -> bool := r => Select(keys, r) == key;
      forall r ensures p(r) <==> KeyIs(keys, r, key) {
        SelectIs(keys, r, key);
      }
      GroupIs(keys, rows, key, p);
      FilterCount(p, rows, row);
      assert row in multiset(rows);
      assert multiset(Filter(p, rows))[row] > 0;
    }
  }

  // ---------- Aggregates combine ----------

  /** `get_second_aggregation_kind`. */
  function SecondKind(k: Kind): Option<Kind>
  {
    match k
    case Sum => Some(Sum)
    case CountValid => Some(Sum)
    case CountAll => Some(Sum)
    case Min => Some(Min)
    case Max => Some(Max)
    case _ => None
  }

  lemma MergeAssociative(k: Kind, a: Cell, b: Cell, c: Cell)
    ensures Merge(k, Merge(k, a, b), c) == Merge(k, a, Merge(k, b, c))
  {
  }

  lemma {:induction false} FoldConcat(k: Kind, a: seq<Cell>, b: seq<Cell>)
    ensures Fold(k, a + b) == Merge(k, Fold(k, a), Fold(k, b))
    decreases |b|
  {
    if b == [] {
      assert a + b == a;
    } else {
      var b' := b[..|b| - 1];
      assert (a + b)[..|a + b| - 1] == a + b';
      FoldConcat(k, a, b');
      MergeAssociative(k, Fold(k, a), Fold(k, b'), b[|b| - 1]);
    }
  }

  lemma {:induction false} NullCountConcat(a: seq<Cell>, b: seq<Cell>)
    ensures NullCount(a + b) == NullCount(a) + NullCount(b)
    decreases |b|
  {
    if b == [] {
      assert a + b == a;
    } else {
      assert (a + b)[..|a + b| - 1] == a + b[..|b| - 1];
      NullCountConcat(a, b[..|b| - 1]);
    }
  }

  /** The aggregate of two pieces from the aggregates of each. */
  lemma AggConcat(k: Kind, a: seq<Cell>, b: seq<Cell>)
    requires SecondKind(k).Some?
    ensures Agg(k, a + b) == Merge(SecondKind(k).value, Agg(k, a), Agg(k, b))
  {
    FoldConcat(k, a, b);
    NullCountConcat(a, b);
  }

  lemma {:induction false} SumNull(s: seq<Cell>)
    ensures Fold(Sum, s).Null? <==> NullCount(s) == |s|
  {
    if s != [] { SumNull(s[..|s| - 1]); }
  }

  /** MEAN is the quotient of SUM and COUNT_VALID, also where both are computed from partial results. */
  lemma MeanIsQuotient(s: seq<Cell>)
    ensures Agg(Mean, s) == Divide(Agg(Sum, s), Agg(CountValid, s))
  {
    SumNull(s);
  }

  lemma {:induction false} CellsConcat(e: Expr, a: Table, b: Table)
    ensures Cells(e, a + b) == Cells(e, a) + Cells(e, b)
    decreases |b|
  {
    if b == [] {
      assert a + b == a;
    } else {
      assert (a + b)[..|a + b| - 1] == a + b[..|b| - 1];
      CellsConcat(e, a, b[..|b| - 1]);
    }
  }

  lemma {:induction false} GroupConcat(keys: seq<Expr>, a: Table, b: Table, key: Row)
    ensures Group(keys, a + b, key) == Group(keys, a, key) + Group(keys, b, key)
    decreases |b|
  {
    if b == [] {
      assert a + b == a;
    } else {
      assert (a + b)[..|a + b| - 1] == a + b[..|b| - 1];
      GroupConcat(keys, a, b[..|b| - 1], key);
    }
  }

  // ---------- Reading partial results back ----------

  function Column(i: nat): Expr
  {
    (r: Row) => if i < |r| then r[i] else Null
  }

  function Quotient(i: nat, j: nat): Expr
  {
    (r: Row) => Divide(Column(i)(r), Column(j)(r))
  }

  lemma QuotientReads(i: nat, j: nat)
    ensures forall row: Row {:trigger Quotient(i, j)(row)} ::
              i < |row| && j < |row| ==> Quotient(i, j)(row) == Divide(row[i], row[j])
  {
    assert forall row: Row :: Quotient(i, j)(row) == Divide(Column(i)(row), Column(j)(row));
  }

  function KeyColumns(nk: nat): seq<Expr>
  {
    seq(nk, i requires 0 <= i < nk => Column(i))
  }

  lemma KeyColumnsRead(nk: nat, row: Row)
    requires nk <= |row|
    ensures Select(KeyColumns(nk), row) == row[..nk]
  {
  }

  /** In a grouping every key occurs once, so regrouping by the key columns finds at most one row. */
  lemma {:induction false} GroupOfGrouping(nk: nat, out: Table, key: Row)
    requires forall j :: 0 <= j < |out| ==> nk <= |out[j]|
    requires forall i, j :: 0 <= i < j < |out| ==> out[i][..nk] != out[j][..nk]
    ensures !Lists(nk, out, key) ==> Group(KeyColumns(nk), out, key) == []
    ensures forall j :: 0 <= j < |out| && HasKey(nk, out[j], key) ==> Group(KeyColumns(nk), out, key) == [out[j]]
  {
    if out != [] {
      var front, last := out[..|out| - 1], out[|out| - 1];
      GroupOfGrouping(nk, front, key);
      KeyColumnsRead(nk, last);
      assert HasKey(nk, last, key) ==> HasKey(nk, out[|out| - 1], key);
      forall j | 0 <= j < |front| && HasKey(nk, front[j], key)
        ensures HasKey(nk, out[j], key) && !HasKey(nk, last, key)
      {
      }
    }
  }

  /** The partial result rows for one key, partition by partition. */
  function Partials(keys: seq<Expr>, first: seq<Value>, parts: seq<Table>, key: Row): Table
  {
    if parts == [] then []
    else
      var p := parts[|parts| - 1];
      Partials(keys, first, parts[..|parts| - 1], key) +
      if Present(keys, p, key) then [OutRow(keys, first, p, key)] else []
  }

  ghost predicate AllAggregate(keys: seq<Expr>, first: seq<Value>, parts: seq<Table>, outs: seq<Table>)
  {
    |outs| == |parts| && forall i :: 0 <= i < |parts| ==> Aggregates(keys, first, parts[i], outs[i])
  }

  lemma GroupOfOutput(keys: seq<Expr>, first: seq<Value>, p: Table, out: Table, key: Row)
    requires Aggregates(keys, first, p, out) && |key| == |keys|
    ensures Group(KeyColumns(|keys|), out, key) == if Present(keys, p, key) then [OutRow(keys, first, p, key)] else []
  {
    forall j | 0 <= j < |out| ensures |keys| <= |out[j]| {
      assert RowOk(keys, first, p, out[j]);
    }
    GroupOfGrouping(|keys|, out, key);
    if Lists(|keys|, out, key) {
      var j :| 0 <= j < |out| && HasKey(|keys|, out[j], key);
      assert RowOk(keys, first, p, out[j]);
    }
  }

  lemma {:induction false} GroupIsPartials(keys: seq<Expr>, first: seq<Value>, parts: seq<Table>, outs: seq<Table>,
                                           key: Row)
    requires AllAggregate(keys, first, parts, outs) && |key| == |keys|
    ensures Group(KeyColumns(|keys|), Flatten(outs), key) == Partials(keys, first, parts, key)
  {
    if parts != [] {
      var n := |parts| - 1;
      GroupIsPartials(keys, first, parts[..n], outs[..n], key);
      GroupConcat(KeyColumns(|keys|), Flatten(outs[..n]), outs[n], key);
      GroupOfOutput(keys, first, parts[n], outs[n], key);
    }
  }

  lemma {:induction false} PartialsPresent(keys: seq<Expr>, first: seq<Value>, parts: seq<Table>, key: Row)
    requires |key| == |keys|
    ensures Partials(keys, first, parts, key) == [] ==>
              Group(keys, Flatten(parts), key) == [] && (keys == [] ==> parts == [])
    ensures Partials(keys, first, parts, key) != [] ==> Present(keys, Flatten(parts), key)
  {
    if parts != [] {
      var n := |parts| - 1;
      PartialsPresent(keys, first, parts[..n], key);
      GroupConcat(keys, Flatten(parts[..n]), parts[n], key);
    }
  }

  /** One aggregate over the rows with a given key. */
  function GroupAgg(keys: seq<Expr>, v: Value, rows: Table, key: Row): Cell
  {
    Agg(v.kind, Cells(v.e, Group(keys, rows, key)))
  }

  lemma GroupAggConcat(keys: seq<Expr>, v: Value, a: Table, b: Table, key: Row)
    requires SecondKind(v.kind).Some?
    ensures GroupAgg(keys, v, a + b, key)
         == Merge(SecondKind(v.kind).value, GroupAgg(keys, v, a, key), GroupAgg(keys, v, b, key))
  {
    GroupConcat(keys, a, b, key);
    CellsConcat(v.e, Group(keys, a, key), Group(keys, b, key));
    AggConcat(v.kind, Cells(v.e, Group(keys, a, key)), Cells(v.e, Group(keys, b, key)));
  }

  lemma FoldPush(k: Kind, e: Expr, rows: Table, row: Row)
    ensures Fold(k, Cells(e, rows + [row])) == Merge(k, Fold(k, Cells(e, rows)), e(row))
  {
  }

  lemma OutRowCell(keys: seq<Expr>, first: seq<Value>, p: Table, key: Row, c: nat)
    requires c < |first| && |key| == |keys|
    ensures Column(|keys| + c)(OutRow(keys, first, p, key)) == GroupAgg(keys, first[c], p, key)
  {
  }

  lemma GroupAfterEmpty(keys: seq<Expr>, v: Value, a: Table, b: Table, key: Row)
    requires Group(keys, a, key) == []
    ensures GroupAgg(keys, v, a + b, key) == GroupAgg(keys, v, b, key)
  {
    GroupConcat(keys, a, b, key);
    assert Group(keys, a + b, key) == Group(keys, b, key);
  }

  /** Aggregating column `c` of the partial rows. */
  function PartialAgg(keys: seq<Expr>, first: seq<Value>, parts: seq<Table>, key: Row, c: nat): Cell
    requires c < |first| && SecondKind(first[c].kind).Some?
  {
    Fold(SecondKind(first[c].kind).value, Cells(Column(|keys| + c), Partials(keys, first, parts, key)))
  }

  lemma PartialAggStep(keys: seq<Expr>, first: seq<Value>, parts: seq<Table>, key: Row, c: nat)
    requires c < |first| && SecondKind(first[c].kind).Some? && |key| == |keys| && parts != []
    ensures var p, front := parts[|parts| - 1], parts[..|parts| - 1];
            PartialAgg(keys, first, parts, key, c) ==
            if Present(keys, p, key)
            then Merge(SecondKind(first[c].kind).value, PartialAgg(keys, first, front, key, c),
                       GroupAgg(keys, first[c], p, key))
            else PartialAgg(keys, first, front, key, c)
  {
    var p, front := parts[|parts| - 1], parts[..|parts| - 1];
    var before, row := Partials(keys, first, front, key), OutRow(keys, first, p, key);
    assert Partials(keys, first, parts, key) == if Present(keys, p, key) then before + [row] else before;
    OutRowCell(keys, first, p, key, c);
    FoldPush(SecondKind(first[c].kind).value, Column(|keys| + c), before, row);
  }

  /** It gives the aggregate of the whole group. */
  lemma {:induction false} PartialsAggregate(keys: seq<Expr>, first: seq<Value>, parts: seq<Table>, key: Row, c: nat)
    requires c < |first| && SecondKind(first[c].kind).Some? && |key| == |keys|
    requires Partials(keys, first, parts, key) != []
    ensures PartialAgg(keys, first, parts, key, c) == GroupAgg(keys, first[c], Flatten(parts), key)
  {
    var p, front := parts[|parts| - 1], parts[..|parts| - 1];
    PartialAggStep(keys, first, parts, key, c);
    if Partials(keys, first, front, key) == [] {
      PartialsPresent(keys, first, front, key);
      GroupAfterEmpty(keys, first[c], Flatten(front), p, key);
    } else {
      PartialsAggregate(keys, first, front, key, c);
      if Present(keys, p, key) {
        GroupAggConcat(keys, first[c], Flatten(front), p, key);
      } else {
        GroupConcat(keys, Flatten(front), p, key);
        assert Group(keys, Flatten(parts), key) == Group(keys, Flatten(front), key);
      }
    }
  }

  // ---------- The plan the builder makes ----------

  datatype Plan = Plan(first: seq<Value>, second: seq<Value>, outputs: seq<Expr>)

  /** The plan reads the columns it should: value `i` occupies one column of the first aggregation, or two for MEAN. */
  ghost predicate PlanOk(nk: nat, values: seq<Value>, plan: Plan)
  {
    (forall c :: 0 <= c < |plan.first| ==> SecondKind(plan.first[c].kind).Some?) &&
    |plan.second| == |plan.first| && |plan.outputs| == nk + |values| &&
    (forall c :: 0 <= c < |plan.first| ==>
      plan.second[c].kind == SecondKind(plan.first[c].kind).value && ReadsColumn(plan.second[c].e, nk + c)) &&
    (forall i :: 0 <= i < nk ==> ReadsColumn(plan.outputs[i], i)) &&
    (forall i :: 0 <= i < |values| ==> OutputAt(nk, values, plan.first, plan.outputs, i))
  }

  ghost predicate ReadsColumn(e: Expr, c: nat)
  {
    forall row: Row {:trigger e(row)} :: c < |row| ==> e(row) == row[c]
  }

  ghost predicate OutputOk(nk: nat, v: Value, first: seq<Value>, e: Expr, c: nat)
  {
    if v.kind.Mean? then
      c + 1 < |first| && first[c] == Value(Sum, v.e) && first[c + 1] == Value(CountValid, v.e) &&
      forall row: Row {:trigger e(row)} :: nk + c + 1 < |row| ==> e(row) == Divide(row[nk + c], row[nk + c + 1])
    else
      c < |first| && first[c] == v && ReadsColumn(e, nk + c)
  }

  /** How many columns of the first aggregation belong to the first `i` values. */
  function Offset(values: seq<Value>, i: nat): nat
    requires i <= |values|
  {
    if i == 0 then 0 else Offset(values, i - 1) + if values[i - 1].kind.Mean? then 2 else 1
  }

  ghost predicate OutputAt(nk: nat, values: seq<Value>, first: seq<Value>, outputs: seq<Expr>, i: nat)
  {
    i < |values| && nk + i < |outputs| && OutputOk(nk, values[i], first, outputs[nk + i], Offset(values, i))
  }

  ghost predicate StartsAt(values: seq<Value>, first: seq<Value>, i: nat)
  {
    i < |values| && Starts(values[i], first, Offset(values, i))
  }

  ghost predicate Starts(v: Value, first: seq<Value>, c: nat)
  {
    if v.kind.Mean? then c + 1 < |first| && first[c] == Value(Sum, v.e) && first[c + 1] == Value(CountValid, v.e)
    else c < |first| && first[c] == v
  }

  method FirstAggregation(values: seq<Value>) returns (r: Attempt<seq<Value>>)
    ensures r.Returned? <==> forall i :: 0 <= i < |values| ==> !values[i].kind.OtherKind?
    ensures r.Returned? ==> forall c :: 0 <= c < |r.value| ==> SecondKind(r.value[c].kind).Some?
    ensures r.Returned? ==> forall j :: 0 <= j < |values| ==> StartsAt(values, r.value, j)
    ensures r.Returned? ==> |r.value| == Offset(values, |values|)
  {
    var first: seq<Value> := [];
    for i := 0 to |values|
      invariant forall j :: 0 <= j < i ==> !values[j].kind.OtherKind?
      invariant forall c :: 0 <= c < |first| ==> SecondKind(first[c].kind).Some?
      invariant |first| == Offset(values, i)
      invariant forall j :: 0 <= j < i ==> StartsAt(values, first, j)
    {
      var v := values[i];
      ghost var before := first;
      match v.kind {
        case OtherKind(_) => return Thrown;
        case Mean => first := first + [Value(Sum, v.e), Value(CountValid, v.e)];
        case _ => first := first + [v];
      }
      forall j | 0 <= j < i ensures StartsAt(values, first, j) {
        assert StartsAt(values, before, j);
      }
    }
    r := Returned(first);
  }

  method SecondAggregation(nk: nat, first: seq<Value>) returns (second: seq<Value>)
    requires forall c :: 0 <= c < |first| ==> SecondKind(first[c].kind).Some?
    ensures |second| == |first|
    ensures forall c :: 0 <= c < |first| ==>
              second[c].kind == SecondKind(first[c].kind).value && ReadsColumn(second[c].e, nk + c)
  {
    second := [];
    for c := 0 to |first|
      invariant |second| == c
      invariant forall j :: 0 <= j < c ==>
        second[j].kind == SecondKind(first[j].kind).value && ReadsColumn(second[j].e, nk + j)
    {
      second := second + [Value(SecondKind(first[c].kind).value, Column(nk + c))];
    }
  }

  /** The projection that ends the plan, with its running input column. */
  method PostProcess(nk: nat, values: seq<Value>, first: seq<Value>) returns (outputs: seq<Expr>)
    requires forall j :: 0 <= j < |values| ==> StartsAt(values, first, j)
    requires |first| == Offset(values, |values|)
    ensures |outputs| == nk + |values|
    ensures forall i :: 0 <= i < nk ==> ReadsColumn(outputs[i], i)
    ensures forall i :: 0 <= i < |values| ==> OutputAt(nk, values, first, outputs, i)
  {
    outputs := [];
    for c := 0 to nk
      invariant |outputs| == c
      invariant forall j :: 0 <= j < c ==> ReadsColumn(outputs[j], j)
    {
      outputs := outputs + [Column(c)];
    }
    var inIdx := nk;
    for i := 0 to |values|
      invariant |outputs| == nk + i
      invariant forall j :: 0 <= j < nk ==> ReadsColumn(outputs[j], j)
      invariant inIdx == nk + Offset(values, i)
      invariant forall j :: 0 <= j < i ==> OutputAt(nk, values, first, outputs, j)
    {
      assert StartsAt(values, first, i);
      ghost var before := outputs;
      if values[i].kind.Mean? {
        QuotientReads(inIdx, inIdx + 1);
        outputs := outputs + [Quotient(inIdx, inIdx + 1)];
        inIdx := inIdx + 2;
      } else {
        outputs := outputs + [Column(inIdx)];
        inIdx := inIdx + 1;
      }
      assert OutputOk(nk, values[i], first, outputs[nk + i], Offset(values, i));
      forall j | 0 <= j < i ensures OutputAt(nk, values, first, outputs, j) {
        assert OutputAt(nk, values, first, before, j);
      }
    }
    assert inIdx == nk + |first|;
  }

  method BuildPlan(nk: nat, values: seq<Value>) returns (r: Attempt<Plan>)
    ensures r.Returned? <==> forall i :: 0 <= i < |values| ==> !values[i].kind.OtherKind?
    ensures r.Returned? ==> PlanOk(nk, values, r.value)
  {
    var first := FirstAggregation(values);
    if first.Thrown? { return Thrown; }
    var second := SecondAggregation(nk, first.value);
    var outputs := PostProcess(nk, values, first.value);
    r := Returned(Plan(first.value, second, outputs));
  }

  // ---------- The plan computes the grouping of the whole table ----------

  function Project(outputs: seq<Expr>, rows: Table): Table
  {
    seq(|rows|, j requires 0 <= j < |rows| => Select(outputs, rows[j]))
  }

  lemma {:induction false} PartialsWidth(keys: seq<Expr>, first: seq<Value>, parts: seq<Table>, key: Row)
    requires |key| == |keys|
    ensures forall j :: 0 <= j < |Partials(keys, first, parts, key)| ==>
              |Partials(keys, first, parts, key)[j]| == |keys| + |first|
  {
    if parts != [] { PartialsWidth(keys, first, parts[..|parts| - 1], key); }
  }

  /** A column of the second aggregation holds the aggregate that the first one would give for the whole table. */
  lemma SecondCell(keys: seq<Expr>, first: seq<Value>, v: Value, parts: seq<Table>, rows: Table, key: Row, c: nat)
    requires c < |first| && SecondKind(first[c].kind).Some? && |key| == |keys|
    requires v.kind == SecondKind(first[c].kind).value && ReadsColumn(v.e, |keys| + c)
    requires Partials(keys, first, parts, key) != []
    requires Group(KeyColumns(|keys|), rows, key) == Partials(keys, first, parts, key)
    ensures GroupAgg(KeyColumns(|keys|), v, rows, key) == GroupAgg(keys, first[c], Flatten(parts), key)
  {
    PartialsWidth(keys, first, parts, key);
    SameAggregate(v, |keys| + c, Partials(keys, first, parts, key));
    PartialsAggregate(keys, first, parts, key, c);
  }

  lemma SameAggregate(v: Value, c: nat, rows: Table)
    requires (v.kind.Sum? || v.kind.Min? || v.kind.Max?) && ReadsColumn(v.e, c)
    requires forall j :: 0 <= j < |rows| ==> c < |rows[j]|
    ensures Agg(v.kind, Cells(v.e, rows)) == Fold(v.kind, Cells(Column(c), rows))
  {
  }

  lemma SecondRow(keys: seq<Expr>, values: seq<Value>, plan: Plan, parts: seq<Table>, rows: Table, key: Row)
    requires PlanOk(|keys|, values, plan) && |key| == |keys|
    requires Partials(keys, plan.first, parts, key) != []
    requires Group(KeyColumns(|keys|), rows, key) == Partials(keys, plan.first, parts, key)
    ensures OutRow(KeyColumns(|keys|), plan.second, rows, key) == OutRow(keys, plan.first, Flatten(parts), key)
  {
    forall c | 0 <= c < |plan.first|
      ensures GroupAgg(KeyColumns(|keys|), plan.second[c], rows, key)
           == GroupAgg(keys, plan.first[c], Flatten(parts), key)
    {
      SecondCell(keys, plan.first, plan.second[c], parts, rows, key, c);
    }
    SameRow(keys, plan.first, Flatten(parts), KeyColumns(|keys|), plan.second, rows, key);
  }

  lemma SameRow(keys: seq<Expr>, vals: seq<Value>, rows: Table, keys': seq<Expr>, vals': seq<Value>, rows': Table,
                key: Row)
    requires |vals'| == |vals|
    requires forall c :: 0 <= c < |vals| ==> GroupAgg(keys', vals'[c], rows', key) == GroupAgg(keys, vals[c], rows, key)
    ensures OutRow(keys', vals', rows', key) == OutRow(keys, vals, rows, key)
  {
  }

  /** The projection turns the first kinds of aggregates into the requested ones. */
  lemma ProjectedRow(keys: seq<Expr>, values: seq<Value>, plan: Plan, rows: Table, key: Row)
    requires PlanOk(|keys|, values, plan) && |key| == |keys|
    ensures Select(plan.outputs, OutRow(keys, plan.first, rows, key)) == OutRow(keys, values, rows, key)
  {
    var got, want := Select(plan.outputs, OutRow(keys, plan.first, rows, key)), OutRow(keys, values, rows, key);
    forall i | 0 <= i < |got| ensures got[i] == want[i] {
      if i < |keys| {
        assert ReadsColumn(plan.outputs[i], i);
      } else {
        ProjectedCell(keys, values, plan, rows, key, i - |keys|);
      }
    }
  }

  lemma ProjectedCell(keys: seq<Expr>, values: seq<Value>, plan: Plan, rows: Table, key: Row, i: nat)
    requires PlanOk(|keys|, values, plan) && |key| == |keys| && i < |values|
    ensures plan.outputs[|keys| + i](OutRow(keys, plan.first, rows, key)) == GroupAgg(keys, values[i], rows, key)
  {
    assert OutputAt(|keys|, values, plan.first, plan.outputs, i);
    var c := Offset(values, i);
    OutRowCell(keys, plan.first, rows, key, c);
    if values[i].kind.Mean? {
      OutRowCell(keys, plan.first, rows, key, c + 1);
      MeanIsQuotient(Cells(values[i].e, Group(keys, rows, key)));
    }
  }

  /** A key has partial rows exactly if it is a group of the whole table. */
  lemma PresentBoth(keys: seq<Expr>, values: seq<Value>, plan: Plan, parts: seq<Table>, outs: seq<Table>, key: Row)
    requires AllAggregate(keys, plan.first, parts, outs) && |parts| > 0
    ensures Present(KeyColumns(|keys|), Flatten(outs), key) <==> Present(keys, Flatten(parts), key)
    ensures Present(keys, Flatten(parts), key) ==> Partials(keys, plan.first, parts, key) != []
  {
    if |key| == |keys| {
      GroupIsPartials(keys, plan.first, parts, outs, key);
      PartialsPresent(keys, plan.first, parts, key);
    }
  }

  lemma ApplyConcatApply(keys: seq<Expr>, values: seq<Value>, plan: Plan, parts: seq<Table>, outs: seq<Table>,
                         out: Table)
    requires PlanOk(|keys|, values, plan) && |parts| > 0 && AllAggregate(keys, plan.first, parts, outs)
    requires Aggregates(KeyColumns(|keys|), plan.second, Flatten(outs), out)
    ensures Aggregates(keys, values, Flatten(parts), Project(plan.outputs, out))
  {
    var nk, final := |keys|, Project(plan.outputs, out);
    forall j | 0 <= j < |out|
      ensures final[j][..nk] == out[j][..nk] && RowOk(keys, values, Flatten(parts), final[j])
    {
      assert RowOk(KeyColumns(nk), plan.second, Flatten(outs), out[j]);
      PresentBoth(keys, values, plan, parts, outs, out[j][..nk]);
      GroupIsPartials(keys, plan.first, parts, outs, out[j][..nk]);
      SecondRow(keys, values, plan, parts, Flatten(outs), out[j][..nk]);
      ProjectedRow(keys, values, plan, Flatten(parts), out[j][..nk]);
    }
    forall key | Present(keys, Flatten(parts), key) ensures Lists(nk, final, key) {
      PresentBoth(keys, values, plan, parts, outs, key);
      var j :| 0 <= j < |out| && HasKey(nk, out[j], key);
      assert HasKey(nk, final[j], key);
    }
  }

  // ---------- With the mask, and with the case that throws ----------

  function Active(cond: Option<Row -> bool>, rows: Table): Table
  {
    if cond.None? then rows else Filter(cond.value, rows)
  }

  /** The mask keeps exactly the rows its condition holds for, with their multiplicity. */
  lemma ActiveRows(cond: Option<Row -> bool>, rows: Table, row: Row)
    ensures multiset(Active(cond, rows))[row] == if cond.None? || cond.value(row) then multiset(rows)[row] else 0
  {
    if cond.Some? { FilterCount(cond.value, rows, row); }
  }

  /** `aggregate_task::execute`: only the rows the condition holds for are aggregated. Without keys a non-empty mask
    column makes it throw. */
  ghost predicate TaskResult(keys: seq<Expr>, vals: seq<Value>, cond: Option<Row -> bool>, input: Table,
                             r: Attempt<Table>)
  {
    if keys == [] && cond.Some? && input != [] then r.Thrown?
    else r.Returned? && Aggregates(keys, vals, Active(cond, input), r.value)
  }

  lemma {:induction false} ActiveFlatten(cond: Option<Row -> bool>, inputs: seq<Table>, parts: seq<Table>)
    requires |parts| == |inputs| && forall i :: 0 <= i < |parts| ==> parts[i] == Active(cond, inputs[i])
    ensures Active(cond, Flatten(inputs)) == Flatten(parts)
  {
    if inputs != [] {
      var n := |inputs| - 1;
      ActiveFlatten(cond, inputs[..n], parts[..n]);
      if cond.Some? { FilterConcat(cond.value, Flatten(inputs[..n]), inputs[n]); }
    }
  }

  lemma {:induction false} FlattenEmpty<T>(parts: seq<seq<T>>)
    ensures Flatten(parts) == [] <==> forall i :: 0 <= i < |parts| ==> parts[i] == []
  {
    if parts != [] {
      var front := parts[..|parts| - 1];
      FlattenEmpty(front);
      assert forall i :: 0 <= i < |front| ==> front[i] == parts[i];
    }
  }

  ghost predicate PlanResult(keys: seq<Expr>, plan: Plan, cond: Option<Row -> bool>, inputs: seq<Table>,
                             firsts: seq<Attempt<Table>>, second: Attempt<Table>, r: Attempt<Table>)
  {
    |firsts| == |inputs| &&
    (forall i :: 0 <= i < |inputs| ==> TaskResult(keys, plan.first, cond, inputs[i], firsts[i])) &&
    if exists i :: 0 <= i < |firsts| && firsts[i].Thrown? then
      r.Thrown?
    else
      TaskResult(KeyColumns(|keys|), plan.second, None, Flatten(Values(firsts)), second) && second.Returned? &&
      r == Returned(Project(plan.outputs, second.value))
  }

  function Values(rs: seq<Attempt<Table>>): seq<Table>
  {
    seq(|rs|, i requires 0 <= i < |rs| => if rs[i].Returned? then rs[i].value else [])
  }

  /** For every split into partitions the plan has the outcome of one aggregation over the whole table, errors
    included. */
  lemma PlanIsOneAggregation(keys: seq<Expr>, values: seq<Value>, plan: Plan, cond: Option<Row -> bool>,
                             inputs: seq<Table>, firsts: seq<Attempt<Table>>, second: Attempt<Table>, r: Attempt<Table>)
    requires PlanOk(|keys|, values, plan) && inputs != []
    requires PlanResult(keys, plan, cond, inputs, firsts, second, r)
    ensures r.Thrown? <==> keys == [] && cond.Some? && Flatten(inputs) != []
    ensures r.Returned? ==> Aggregates(keys, values, Active(cond, Flatten(inputs)), r.value)
    ensures TaskResult(keys, values, cond, Flatten(inputs), r)
  {
    FlattenEmpty(inputs);
    forall i | 0 <= i < |inputs|
      ensures firsts[i].Thrown? <==> keys == [] && cond.Some? && inputs[i] != []
    {
      assert TaskResult(keys, plan.first, cond, inputs[i], firsts[i]);
    }
    if forall i :: 0 <= i < |firsts| ==> firsts[i].Returned? {
      FirstsReturn(keys, values, plan, cond, inputs, firsts, second.value);
    }
  }

  lemma FirstsReturn(keys: seq<Expr>, values: seq<Value>, plan: Plan, cond: Option<Row -> bool>,
                     inputs: seq<Table>, firsts: seq<Attempt<Table>>, second: Table)
    requires PlanOk(|keys|, values, plan) && inputs != [] && |firsts| == |inputs|
    requires forall i :: 0 <= i < |inputs| ==>
               firsts[i].Returned? && Aggregates(keys, plan.first, Active(cond, inputs[i]), firsts[i].value)
    requires Aggregates(KeyColumns(|keys|), plan.second, Flatten(Values(firsts)), second)
    ensures Aggregates(keys, values, Active(cond, Flatten(inputs)), Project(plan.outputs, second))
  {
    var parts := seq(|inputs|, i requires 0 <= i < |inputs| => Active(cond, inputs[i]));
    forall i | 0 <= i < |inputs| ensures Aggregates(keys, plan.first, parts[i], Values(firsts)[i]) {
    }
    ActiveFlatten(cond, inputs, parts);
    ApplyConcatApply(keys, values, plan, parts, Values(firsts), second);
  }

  type Reducer = seq<Cell> -> Cell

  type Reductions = nat -> Option<Reducer>

  /** The branch without keys: one result per value, each computed by its own reduction. `reductions` are cuDF's for the
    kinds that have no second phase. */
  method Reduce(reductions: Reductions, vals: seq<Value>, rows: Table) returns (r: Attempt<Table>)
    ensures r.Returned? <==>
              forall i :: 0 <= i < |vals| && vals[i].kind.OtherKind? ==> reductions(vals[i].kind.id).Some?
    ensures r.Returned? ==> |r.value| == 1 && |r.value[0]| == |vals| && forall i :: 0 <= i < |vals| ==>
              r.value[0][i] == if vals[i].kind.OtherKind? then reductions(vals[i].kind.id).value(Cells(vals[i].e, rows))
                               else Agg(vals[i].kind, Cells(vals[i].e, rows))
    ensures (forall i :: 0 <= i < |vals| ==> !vals[i].kind.OtherKind?) ==>
              r.Returned? && Aggregates([], vals, rows, r.value)
  {
    var cells: Row := [];
    for i := 0 to |vals|
      invariant |cells| == i
      invariant forall j :: 0 <= j < i && vals[j].kind.OtherKind? ==> reductions(vals[j].kind.id).Some?
      invariant forall j :: 0 <= j < i ==>
        cells[j] == if vals[j].kind.OtherKind? then reductions(vals[j].kind.id).value(Cells(vals[j].e, rows))
                    else Agg(vals[j].kind, Cells(vals[j].e, rows))
    {
      var column := Cells(vals[i].e, rows);
      match vals[i].kind {
        case CountValid => cells := cells + [Num((|column| - NullCount(column)) as real)];
        case CountAll => cells := cells + [Num(|column| as real)];
        case OtherKind(id) =>
          if reductions(id).None? { return Thrown; }
          cells := cells + [reductions(id).value(column)];
        case _ => cells := cells + [Agg(vals[i].kind, column)];
      }
    }
    r := Returned([cells]);
    if forall i :: 0 <= i < |vals| ==> !vals[i].kind.OtherKind? {
      WholeGroup(rows);
      assert cells == AggCells(vals, Group([], rows, []));
      assert RowOk([], vals, rows, cells);
      assert HasKey(0, [cells][0], []);
    }
  }

  lemma {:induction false} WholeGroup(rows: Table)
    ensures Group([], rows, []) == rows
  {
    if rows != [] { WholeGroup(rows[..|rows| - 1]); }
  }
}
