/** Tables of nullable values, split into partitions. */
module Relational {

  /** Numbers are exact: rounding of floating-point sums is not modelled. */
  datatype Cell = Null | Num(v: real)

  type Row = seq<Cell>

  type Table = seq<Row>

  /** `concatenate`: the partitions one after the other. */
  function Flatten<T>(parts: seq<seq<T>>): seq<T>
  {
    if parts == [] then [] else Flatten(parts[..|parts| - 1]) + parts[|parts| - 1]
  }

  lemma FlattenPush<T>(parts: seq<seq<T>>, p: seq<T>)
    ensures Flatten<T>([]) == [] && Flatten(parts + [p]) == Flatten(parts) + p
  {
  }

  /** The rows a filter keeps, in order. */
  function Filter<T>(p: T -> bool, s: seq<T>): seq<T>
  {
    if s == [] then []
    else Filter(p, s[..|s| - 1]) + if p(s[|s| - 1]) then [s[|s| - 1]] else []
  }

  lemma {:induction false} FilterConcat<T>(p: T -> bool, a: seq<T>, b: seq<T>)
    ensures Filter(p, a + b) == Filter(p, a) + Filter(p, b)
    decreases |b|
  {
    if b == [] {
      assert a + b == a;
    } else {
      var b' := b[..|b| - 1];
      assert (a + b)[..|a + b| - 1] == a + b';
      FilterConcat(p, a, b');
    }
  }

  lemma {:induction false} FilterCount<T>(p: T -> bool, s: seq<T>, l: T)
    ensures multiset(Filter(p, s))[l] == if p(l) then multiset(s)[l] else 0
  {
    if s != [] {
      FilterCount(p, s[..|s| - 1], l);
      assert s == s[..|s| - 1] + [s[|s| - 1]];
    }
  }
}
