/** Hash partitioning, the offsets it leaves behind, and the tasks that merge one slice of every input. */
module Shuffle {
  import opened Wrappers
  import opened Relational
  import opened Joins

  datatype PartitionExpr = ColumnRef(idx: nat) | OtherExpr

  /** A partition task's result: rows grouped by partition, and where each partition begins, with the end appended. */
  datatype Partitioned = Partitioned(table: Table, offsets: seq<nat>)

  function Pick(cols: seq<nat>, row: Row): Row
  {
    seq(|cols|, i requires 0 <= i < |cols| => if cols[i] < |row| then row[cols[i]] else Null)
  }

  /** The partition of a row depends on the hashed columns only. */
  function Bucket(hash: Row -> nat, cols: seq<nat>, n: nat): Row -> nat
    requires n > 0
  {
    row => hash(Pick(cols, row)) % n
  }

  ghost predicate HasSlice(p: Partitioned, i: nat)
  {
    i + 1 < |p.offsets| && p.offsets[i] <= p.offsets[i + 1] <= |p.table|
  }

  function Slice(p: Partitioned, i: nat): Table
    requires HasSlice(p, i)
  {
    p.table[p.offsets[i]..p.offsets[i + 1]]
  }

  ghost predicate SliceOk(h: Row -> nat, input: Table, p: Partitioned, i: nat)
  {
    HasSlice(p, i) &&
    forall l :: multiset(Slice(p, i))[l] == if h(l) == i then multiset(input)[l] else 0
  }

  function InBucket(h: Row -> nat, i: nat): Row -> bool
  {
    l => h(l) == i
  }

  lemma OldSlice(h: Row -> nat, input: Table, table: Table, offsets: seq<nat>, bucket: Table, j: nat)
    requires j < |offsets| && SliceOk(h, input, Partitioned(table, offsets + [|table|]), j)
    ensures SliceOk(h, input, Partitioned(table + bucket, offsets + [|table|] + [|table + bucket|]), j)
  {
    var before := Partitioned(table, offsets + [|table|]);
    var after := Partitioned(table + bucket, offsets + [|table|] + [|table + bucket|]);
    assert after.offsets[j] == before.offsets[j] && after.offsets[j + 1] == before.offsets[j + 1];
    assert Slice(after, j) == Slice(before, j);
  }

  /** Appending the next bucket. */
  lemma NextBucket(h: Row -> nat, input: Table, table: Table, offsets: seq<nat>, bucket: Table)
    requires bucket == Filter(InBucket(h, |offsets|), input)
    requires forall j :: 0 <= j < |offsets| ==> SliceOk(h, input, Partitioned(table, offsets + [|table|]), j)
    ensures forall j :: 0 <= j <= |offsets| ==>
              SliceOk(h, input, Partitioned(table + bucket, offsets + [|table|] + [|table + bucket|]), j)
  {
    var after := Partitioned(table + bucket, offsets + [|table|] + [|table + bucket|]);
    forall j | 0 <= j <= |offsets| ensures SliceOk(h, input, after, j) {
      if j < |offsets| {
        OldSlice(h, input, table, offsets, bucket, j);
      } else {
        NewSlice(h, input, table, offsets, bucket);
      }
    }
  }

  ghost predicate HoldsBelow(h: Row -> nat, input: Table, table: Table, i: nat)
  {
    forall l :: multiset(table)[l] == if h(l) < i then multiset(input)[l] else 0
  }

  lemma NextBelow(h: Row -> nat, input: Table, table: Table, i: nat)
    requires HoldsBelow(h, input, table, i)
    ensures HoldsBelow(h, input, table + Filter(InBucket(h, i), input), i + 1)
  {
    var bucket := Filter(InBucket(h, i), input);
    forall l ensures multiset(table + bucket)[l] == if h(l) < i + 1 then multiset(input)[l] else 0 {
      assert multiset(table + bucket)[l] == multiset(table)[l] + multiset(bucket)[l];
      FilterCount(InBucket(h, i), input, l);
    }
  }

  lemma NewSlice(h: Row -> nat, input: Table, table: Table, offsets: seq<nat>, bucket: Table)
    requires bucket == Filter(InBucket(h, |offsets|), input)
    ensures SliceOk(h, input, Partitioned(table + bucket, offsets + [|table|] + [|table + bucket|]), |offsets|)
  {
    var i, after := |offsets|, Partitioned(table + bucket, offsets + [|table|] + [|table + bucket|]);
    assert Slice(after, i) == bucket;
    forall l ensures multiset(bucket)[l] == if h(l) == i then multiset(input)[l] else 0 {
      FilterCount(InBucket(h, i), input, l);
    }
  }

  /** Stands for `cudf::hash_partition`. */
  method HashPartition(input: Table, h: Row -> nat, n: nat) returns (table: Table, offsets: seq<nat>)
    requires forall l :: h(l) < n
    ensures |offsets| == n && multiset(table) == multiset(input) && |table| == |input| && (n > 0 ==> offsets[0] == 0)
    ensures forall i :: 0 <= i < n ==> SliceOk(h, input, Partitioned(table, offsets + [|input|]), i)
  {
    table, offsets := [], [];
    for i := 0 to n
      invariant |offsets| == i && (i == 0 ==> table == []) && (i > 0 ==> offsets[0] == 0)
      invariant forall j :: 0 <= j < i ==> SliceOk(h, input, Partitioned(table, offsets + [|table|]), j)
      invariant HoldsBelow(h, input, table, i)
    {
      var bucket := Filter(InBucket(h, i), input);
      NextBucket(h, input, table, offsets, bucket);
      NextBelow(h, input, table, i);
      offsets := offsets + [|table|];
      table := table + bucket;
    }
    assert multiset(table) == multiset(input);
    assert |table| == |multiset(table)| == |multiset(input)| == |input|;
  }

  /** The cells of the row in the columns that are hashed. */
  ghost predicate HashedCells(exprs: seq<PartitionExpr>, row: Row, key: Row)
  {
    |key| == |exprs| &&
    forall i :: 0 <= i < |exprs| ==> exprs[i].ColumnRef? && exprs[i].idx < |row| && key[i] == row[exprs[i].idx]
  }

  lemma HashedIsPicked(exprs: seq<PartitionExpr>, cols: seq<nat>, row: Row, key: Row)
    requires |cols| == |exprs| && forall i :: 0 <= i < |exprs| ==> exprs[i].ColumnRef? && cols[i] == exprs[i].idx
    requires HashedCells(exprs, row, key)
    ensures Pick(cols, row) == key
  {
  }

  /** Position `k` of the result lies between the offsets of partition `i`. */
  ghost predicate InSlice(p: Partitioned, i: nat, k: nat)
  {
    i + 1 < |p.offsets| && p.offsets[i] <= k < p.offsets[i + 1]
  }

  lemma SliceRow(h: Row -> nat, input: Table, p: Partitioned, i: nat, k: nat)
    requires SliceOk(h, input, p, i) && InSlice(p, i, k)
    ensures k < |p.table| && h(p.table[k]) == i && p.table[k] in input
  {
    var slice := Slice(p, i);
    assert slice[k - p.offsets[i]] == p.table[k];
    assert p.table[k] in slice && p.table[k] in multiset(slice);
    assert multiset(input)[p.table[k]] > 0;
  }

  /** `partition_task::execute`. It throws unless there are partition columns and all are plain references to columns
    of the input. The result holds the rows of the input, and the rows of partition `i` are those whose cells in the
    partition columns hash to `i`. */
  method Partition(input: Table, width: nat, exprs: seq<PartitionExpr>, hash: Row -> nat, n: nat)
    returns (r: Attempt<Partitioned>, cols: seq<nat>)
    requires n > 0 && forall k :: 0 <= k < |input| ==> |input[k]| == width
    ensures r.Returned? <==>
              exprs != [] && forall i :: 0 <= i < |exprs| ==> exprs[i].ColumnRef? && exprs[i].idx < width
    ensures r.Returned? ==> multiset(r.value.table) == multiset(input)
    ensures r.Returned? ==> |r.value.offsets| == n + 1 && r.value.offsets[0] == 0 && r.value.offsets[n] == |input|
    ensures r.Returned? ==> forall i :: 0 <= i < n ==> r.value.offsets[i] <= r.value.offsets[i + 1]
    ensures r.Returned? ==> forall i: nat, k: nat, key: Row ::
              InSlice(r.value, i, k) && k < |r.value.table| && HashedCells(exprs, r.value.table[k], key) ==>
                hash(key) % n == i
    ensures r.Returned? ==> |cols| == |exprs| && forall i :: 0 <= i < |exprs| ==> cols[i] == exprs[i].idx
    ensures r.Returned? ==> forall i :: 0 <= i < n ==> SliceOk(Bucket(hash, cols, n), input, r.value, i)
  {
    cols := [];
    if exprs == [] { return Thrown, cols; }
    for i := 0 to |exprs|
      invariant |cols| == i
      invariant forall j :: 0 <= j < i ==> exprs[j].ColumnRef? && cols[j] == exprs[j].idx < width
    {
      if !exprs[i].ColumnRef? || exprs[i].idx >= width { return Thrown, cols; }
      cols := cols + [exprs[i].idx];
    }
    var table, offsets := HashPartition(input, Bucket(hash, cols, n), n);
    var part := Partitioned(table, offsets + [|input|]);
    forall i | 0 <= i < n ensures part.offsets[i] <= part.offsets[i + 1] {
      assert SliceOk(Bucket(hash, cols, n), input, part, i);
    }
    forall i: nat, k: nat, key: Row | InSlice(part, i, k) && k < |table| && HashedCells(exprs, table[k], key)
      ensures hash(key) % n == i
    {
      SliceRow(Bucket(hash, cols, n), input, part, i, k);
      HashedIsPicked(exprs, cols, table[k], key);
    }
    r := Returned(part);
  }

  /** What a merge task finds as an input. A partition task whose result was fetched from another rank has no
    offsets. */
  datatype MergeInput = PartitionTask(part: Partitioned) | OtherTask(table: Table)

  ghost predicate Mergeable(inputs: seq<MergeInput>, idx: nat)
  {
    forall k :: 0 <= k < |inputs| ==>
      inputs[k].PartitionTask? && idx + 1 < |inputs[k].part.offsets| &&
      inputs[k].part.offsets[idx] <= inputs[k].part.offsets[idx + 1] <= |inputs[k].part.table|
  }

  /** The pieces between the offsets of partition `idx`, one for each input. */
  ghost predicate ArePieces(inputs: seq<MergeInput>, idx: nat, pieces: seq<Table>)
    requires Mergeable(inputs, idx)
  {
    |pieces| == |inputs| &&
    forall k :: 0 <= k < |inputs| ==>
      pieces[k] == inputs[k].part.table[inputs[k].part.offsets[idx]..inputs[k].part.offsets[idx + 1]]
  }

  /** `partition_merge_task::execute`: slice `idx` of every input, concatenated. */
  method Merge(inputs: seq<MergeInput>, idx: nat) returns (r: Attempt<Table>, ghost pieces: seq<Table>)
    ensures r.Returned? <==> Mergeable(inputs, idx)
    ensures r.Returned? ==> ArePieces(inputs, idx, pieces) && r.value == Flatten(pieces)
  {
    var tables: seq<Table> := [];
    pieces := [];
    for k := 0 to |inputs|
      invariant Mergeable(inputs[..k], idx) && ArePieces(inputs[..k], idx, tables)
    {
      assert inputs[..k + 1][..k] == inputs[..k];
      if !inputs[k].PartitionTask? || idx + 1 >= |inputs[k].part.offsets| { return Thrown, pieces; }
      var start, end := inputs[k].part.offsets[idx], inputs[k].part.offsets[idx + 1];
      if start > end || end > |inputs[k].part.table| { return Thrown, pieces; }
      tables := tables + [inputs[k].part.table[start..end]];
    }
    assert inputs[..|inputs|] == inputs;
    pieces := tables;
    r := Returned(Flatten(tables));
  }

  /** So the result is the merge of the slices. */
  lemma MergeIs(parts: seq<Partitioned>, inputs: seq<MergeInput>, idx: nat, pieces: seq<Table>)
    requires |inputs| == |parts| && forall k :: 0 <= k < |parts| ==> inputs[k] == PartitionTask(parts[k])
    requires Mergeable(inputs, idx) && ArePieces(inputs, idx, pieces)
    ensures IsMerged(parts, idx, Flatten(pieces))
  {
    forall k | 0 <= k < |parts| ensures HasSlice(parts[k], idx) {
      assert inputs[k].part == parts[k];
    }
    assert Slices(parts, idx) == pieces;
  }

  ghost predicate AllHave(inputs: seq<Partitioned>, idx: nat)
  {
    forall k :: 0 <= k < |inputs| ==> HasSlice(inputs[k], idx)
  }

  ghost function Slices(inputs: seq<Partitioned>, idx: nat): seq<Table>
    requires AllHave(inputs, idx)
  {
    seq(|inputs|, k requires 0 <= k < |inputs| && HasSlice(inputs[k], idx) => Slice(inputs[k], idx))
  }

  ghost predicate IsMerged(inputs: seq<Partitioned>, idx: nat, merged: Table)
  {
    AllHave(inputs, idx) && merged == Flatten(Slices(inputs, idx))
  }

  ghost predicate AllPartitioned(h: Row -> nat, inputs: seq<Table>, parts: seq<Partitioned>, n: nat)
  {
    |parts| == |inputs| && forall k, i :: 0 <= k < |inputs| && 0 <= i < n ==> SliceOk(h, inputs[k], parts[k], i)
  }

  lemma {:induction false} MergedCount(h: Row -> nat, inputs: seq<Table>, parts: seq<Partitioned>, n: nat, i: nat,
                                       l: Row)
    requires AllPartitioned(h, inputs, parts, n) && i < n
    ensures AllHave(parts, i)
    ensures multiset(Flatten(Slices(parts, i)))[l] == if h(l) == i then multiset(Flatten(inputs))[l] else 0
  {
    forall k | 0 <= k < |parts| ensures HasSlice(parts[k], i) {
      assert SliceOk(h, inputs[k], parts[k], i);
    }
    if inputs != [] {
      var m := |inputs| - 1;
      MergedCount(h, inputs[..m], parts[..m], n, i, l);
      assert SliceOk(h, inputs[m], parts[m], i);
      assert Slices(parts, i)[..m] == Slices(parts[..m], i);
    }
  }

  /** Merging slice `i` of every input, for every `i`, splits the concatenated inputs by the hash: each input row is in
    exactly one merged table. */
  lemma MergedSplits(h: Row -> nat, inputs: seq<Table>, parts: seq<Partitioned>, merged: seq<Table>)
    requires AllPartitioned(h, inputs, parts, |merged|)
    requires forall i :: 0 <= i < |merged| ==> IsMerged(parts, i, merged[i])
    ensures SplitBy(h, Flatten(inputs), merged)
  {
    forall i, l | 0 <= i < |merged|
      ensures multiset(merged[i])[l] == if h(l) == i then multiset(Flatten(inputs))[l] else 0
    {
      MergedCount(h, inputs, parts, |merged|, i, l);
    }
  }

  /** The rows have the same cells in the columns that are hashed. */
  ghost predicate SameCells(leftCols: seq<nat>, l: Row, rightCols: seq<nat>, r: Row)
  {
    |leftCols| == |rightCols| &&
    forall i :: 0 <= i < |leftCols| ==> leftCols[i] < |l| && rightCols[i] < |r| && l[leftCols[i]] == r[rightCols[i]]
  }

  lemma SameHash(hash: Row -> nat, leftCols: seq<nat>, l: Row, rightCols: seq<nat>, r: Row, n: nat)
    requires SameCells(leftCols, l, rightCols, r) && n > 0
    ensures Bucket(hash, leftCols, n)(l) == Bucket(hash, rightCols, n)(r)
  {
    assert Pick(leftCols, l) == Pick(rightCols, r);
  }

  /** Rows with the same cells in the partition columns are in the same partition. */
  lemma SameKeySameSlice(hash: Row -> nat, cols: seq<nat>, n: nat, input: Table, p: Partitioned, i: nat, k: nat, j: nat,
                         m: nat)
    requires n > 0 && i < n && j < n && forall q :: 0 <= q < n ==> SliceOk(Bucket(hash, cols, n), input, p, q)
    requires InSlice(p, i, k) && InSlice(p, j, m) && k < |p.table| && m < |p.table|
    requires SameCells(cols, p.table[k], cols, p.table[m])
    ensures i == j
  {
    SliceRow(Bucket(hash, cols, n), input, p, i, k);
    SliceRow(Bucket(hash, cols, n), input, p, j, m);
    SameHash(hash, cols, p.table[k], cols, p.table[m], n);
  }

  /** Both sides partitioned, merged and joined: the join of the whole tables, provided the join condition implies equal
    hashed columns. */
  lemma ShuffledTablesJoin(t: JoinType, m: Match, hash: Row -> nat, leftCols: seq<nat>, rightCols: seq<nat>,
                           lefts: seq<Table>, rights: seq<Table>, leftParts: seq<Partitioned>,
                           rightParts: seq<Partitioned>, mergedLeft: seq<Table>, mergedRight: seq<Table>,
                           outs: seq<seq<Out>>)
    requires |outs| > 0 && |mergedLeft| == |mergedRight| == |outs|
    requires forall l, r :: l in Flatten(lefts) && r in Flatten(rights) && m(l, r) ==>
               SameCells(leftCols, l, rightCols, r)
    requires AllPartitioned(Bucket(hash, leftCols, |outs|), lefts, leftParts, |outs|)
    requires AllPartitioned(Bucket(hash, rightCols, |outs|), rights, rightParts, |outs|)
    requires forall i :: 0 <= i < |outs| ==>
      IsMerged(leftParts, i, mergedLeft[i]) && IsMerged(rightParts, i, mergedRight[i])
    requires forall i :: 0 <= i < |outs| ==> IsJoin(t, m, mergedLeft[i], mergedRight[i], outs[i])
    ensures IsJoin(t, m, Flatten(lefts), Flatten(rights), Flatten(outs))
  {
    var hl, hr := Bucket(hash, leftCols, |outs|), Bucket(hash, rightCols, |outs|);
    MergedSplits(hl, lefts, leftParts, mergedLeft);
    MergedSplits(hr, rights, rightParts, mergedRight);
    forall l, r | l in Flatten(lefts) && r in Flatten(rights) && m(l, r) ensures hl(l) == hr(r) {
      SameHash(hash, leftCols, l, rightCols, r, |outs|);
    }
    ShuffleJoin(t, m, hl, hr, Flatten(lefts), Flatten(rights), mergedLeft, mergedRight, outs);
  }
}
