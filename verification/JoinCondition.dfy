/** Splitting a join condition into equality keys, a null policy and a residual predicate. */
module JoinCondition {
  import opened Wrappers
  import opened Relational
  import opened Expressions
  import opened Evaluator

  // ---------- Conditions on pairs of rows ----------

  /** Two tables to be joined, stored by column, and the nodes of the condition. Column references of the condition
    count through the left table and then through the right one. */
  datatype Pairing = Pairing(e: seq<Node<Cell>>, sem: Sem<Cell>, typing: Typing, left: seq<seq<Cell>>, leftRows: nat,
                             right: seq<seq<Cell>>, rightRows: nat)

  function LeftEnv(x: Pairing): Env<Cell>
  {
    Env(x.e, x.sem, x.typing, x.left, x.leftRows, 0)
  }

  function RightEnv(x: Pairing): Env<Cell>
  {
    Env(x.e, x.sem, x.typing, x.right, x.rightRows, |x.left|)
  }

  /** Left row `i` beside right row `j`, as a table with one row. */
  function PairEnv(x: Pairing, i: nat, j: nat): Env<Cell>
  {
    Env(x.e, x.sem, x.typing,
        seq(|x.left| + |x.right|, c requires 0 <= c < |x.left| + |x.right| =>
          [if c < |x.left| then CellAt(LeftEnv(x), c, i) else CellAt(RightEnv(x), c - |x.left|, j)]), 1, 0)
  }

  predicate True(c: Cell)
  {
    c.Num? && c.v != 0.0
  }

  function Bool(b: bool): Cell
  {
    Num(if b then 1.0 else 0.0)
  }

  /** Three-valued conjunction: FALSE wins over NULL. */
  function ThreeAnd(a: Cell, b: Cell): Cell
  {
    if (a.Num? && !True(a)) || (b.Num? && !True(b)) then Bool(false)
    else if a.Null? || b.Null? then Null
    else Bool(true)
  }

  ghost predicate LogicOk(s: Sem<Cell>)
  {
    (forall a, b :: s.bin(Equal, a, b) == if a.Null? || b.Null? then Null else Bool(a == b)) &&
    (forall a, b :: s.bin(NullEquals, a, b) == Bool(a == b)) &&
    (forall a, b :: s.bin(NullAnd, a, b) == ThreeAnd(a, b)) &&
    (forall a, b :: s.bin(LogicalAnd, a, b) == if a.Null? || b.Null? then Null else ThreeAnd(a, b))
  }

  ghost predicate PairingOk(x: Pairing)
  {
    EnvOk(LeftEnv(x)) && EnvOk(RightEnv(x)) && LogicOk(x.sem)
  }

  lemma PairEnvOk(x: Pairing, i: nat, j: nat)
    requires PairingOk(x)
    ensures EnvOk(PairEnv(x, i, j))
  {
  }

  /** The condition's value on left row `i` and right row `j`. */
  ghost function PairVal(x: Pairing, n: nat, i: nat, j: nat): Cell
    requires PairingOk(x) && n < |x.e|
  {
    PairEnvOk(x, i, j);
    RowVal(PairEnv(x, i, j), n, 0)
  }

  // ---------- Expressions that use one side only ----------

  ghost predicate SameCells(x: Env<Cell>, i: nat, y: Env<Cell>, j: nat, n: nat)
    requires EnvOk(x) && EnvOk(y) && x.e == y.e && n < |x.e|
    decreases n
  {
    (x.e[n].ColRef? ==> CellAt(x, x.e[n].idx - x.offset, i) == CellAt(y, y.e[n].idx - y.offset, j)) &&
    forall k :: 0 <= k < |Children(x.e[n])| ==> SameCells(x, i, y, j, Children(x.e[n])[k])
  }

  lemma {:induction false} SameValue(x: Env<Cell>, i: nat, y: Env<Cell>, j: nat, n: nat)
    requires EnvOk(x) && EnvOk(y) && x.e == y.e && x.sem == y.sem && n < |x.e| && SameCells(x, i, y, j, n)
    ensures RowVal(x, n, i) == RowVal(y, n, j)
    decreases n
  {
    var kids := Children(x.e[n]);
    forall k | 0 <= k < |kids| ensures RowVal(x, kids[k], i) == RowVal(y, kids[k], j) {
      SameValue(x, i, y, j, kids[k]);
    }
    match x.e[n]
    case Unary(_, a) => assert kids[0] == a;
    case IsNull(a) => assert kids[0] == a;
    case Binary(_, a, b) => assert kids[0] == a && kids[1] == b;
    case IfThenElse(a, b, c) => assert kids[0] == a && kids[1] == b && kids[2] == c;
    case Cast(_, a) => assert kids[0] == a;
    case ScalarFn(_, a) => assert kids[0] == a;
    case _ =>
  }

  lemma {:induction false} LeftCells(x: Pairing, n: nat, i: nat, j: nat)
    requires PairingOk(x) && n < |x.e| && RefsOk(LeftEnv(x), n)
    ensures EnvOk(PairEnv(x, i, j)) && SameCells(LeftEnv(x), i, PairEnv(x, i, j), 0, n)
    decreases n
  {
    PairEnvOk(x, i, j);
    forall k | 0 <= k < |Children(x.e[n])| ensures SameCells(LeftEnv(x), i, PairEnv(x, i, j), 0, Children(x.e[n])[k]) {
      LeftCells(x, Children(x.e[n])[k], i, j);
    }
  }

  lemma {:induction false} RightCells(x: Pairing, n: nat, i: nat, j: nat)
    requires PairingOk(x) && n < |x.e| && RefsOk(RightEnv(x), n)
    ensures EnvOk(PairEnv(x, i, j)) && SameCells(RightEnv(x), j, PairEnv(x, i, j), 0, n)
    decreases n
  {
    PairEnvOk(x, i, j);
    forall k | 0 <= k < |Children(x.e[n])| ensures SameCells(RightEnv(x), j, PairEnv(x, i, j), 0, Children(x.e[n])[k]) {
      RightCells(x, Children(x.e[n])[k], i, j);
    }
  }

  // ---------- What parsing extracts ----------

  datatype Key = Key(left: nat, right: nat, nullsEqual: bool)

  ghost predicate IsAnd(node: Node<Cell>)
  {
    node.Binary? && (node.bop.NullAnd? || node.bop.LogicalAnd?)
  }

  ghost function Keys(x: Env<Cell>, n: nat): seq<Key>
    requires EnvOk(x) && n < |x.e|
    decreases n
  {
    if x.e[n].Binary? then
      assert Children(x.e[n])[0] == x.e[n].a && Children(x.e[n])[1] == x.e[n].b;
      match x.e[n].bop
      case Equal => [Key(x.e[n].a, x.e[n].b, false)]
      case NullEquals => [Key(x.e[n].a, x.e[n].b, true)]
      case NullAnd => Keys(x, x.e[n].a) + Keys(x, x.e[n].b)
      case LogicalAnd => Keys(x, x.e[n].a) + Keys(x, x.e[n].b)
      case _ => []
    else
      []
  }

  ghost function Residual(x: Env<Cell>, n: nat): seq<nat>
    requires EnvOk(x) && n < |x.e|
    ensures forall k :: 0 <= k < |Residual(x, n)| ==> Residual(x, n)[k] < |x.e|
    decreases n
  {
    if x.e[n].Binary? then
      assert Children(x.e[n])[0] == x.e[n].a && Children(x.e[n])[1] == x.e[n].b;
      match x.e[n].bop
      case Equal => []
      case NullEquals => []
      case NullAnd => Residual(x, x.e[n].a) + Residual(x, x.e[n].b)
      case LogicalAnd => Residual(x, x.e[n].a) + Residual(x, x.e[n].b)
      case _ => [n]
    else
      [n]
  }

  /** Node `m` is what is left of the condition `n` when its ANDs are taken apart. */
  ghost predicate Conjunct(x: Env<Cell>, n: nat, m: nat)
    requires EnvOk(x) && n < |x.e|
    decreases n
  {
    if IsAnd(x.e[n]) then
      assert Children(x.e[n])[0] == x.e[n].a && Children(x.e[n])[1] == x.e[n].b;
      Conjunct(x, x.e[n].a, m) || Conjunct(x, x.e[n].b, m)
    else
      m == n
  }

  /** The node is an equality that becomes a key. */
  ghost predicate IsKey(node: Node<Cell>, key: Key)
  {
    node.Binary? && key.left == node.a && key.right == node.b &&
    ((node.bop.Equal? && !key.nullsEqual) || (node.bop.NullEquals? && key.nullsEqual))
  }

  /** The keys are exactly the equalities among the conjuncts, left operand left; the residual predicates are exactly
    the other conjuncts. */
  lemma {:induction false} KeysMean(x: Env<Cell>, n: nat, key: Key, m: nat)
    requires EnvOk(x) && n < |x.e|
    ensures key in Keys(x, n) <==> exists k :: 0 <= k < |x.e| && Conjunct(x, n, k) && IsKey(x.e[k], key)
    ensures m in Residual(x, n) <==>
              m < |x.e| && Conjunct(x, n, m) && !(x.e[m].Binary? && (x.e[m].bop.Equal? || x.e[m].bop.NullEquals?))
    decreases n
  {
    if IsAnd(x.e[n]) {
      assert Children(x.e[n])[0] == x.e[n].a && Children(x.e[n])[1] == x.e[n].b;
      KeysMean(x, x.e[n].a, key, m);
      KeysMean(x, x.e[n].b, key, m);
    }
  }

  ghost predicate Uniform(policy: Option<bool>, keys: seq<Key>)
  {
    (forall k :: 0 <= k < |keys| && policy.Some? ==> keys[k].nullsEqual == policy.value) &&
    forall k, m :: 0 <= k < m < |keys| ==> keys[k].nullsEqual == keys[m].nullsEqual
  }

  ghost function PolicyAfter(policy: Option<bool>, keys: seq<Key>): Option<bool>
  {
    if keys == [] then policy else Some(keys[|keys| - 1].nullsEqual)
  }

  /** `join_keys_container`. */
  class JoinKeys {
    const x: Pairing
    var leftKeys: seq<nat>
    var rightKeys: seq<nat>
    var residual: seq<nat>
    var compareNulls: Option<bool>

    constructor (x: Pairing)
      ensures this.x == x && leftKeys == [] && rightKeys == [] && residual == [] && compareNulls == None
    {
      this.x := x;
      leftKeys, rightKeys, residual, compareNulls := [], [], [], None;
    }

    /** False when it throws: one condition mixes both null policies. */
    method UpdateNullEquality(policy: bool) returns (ok: bool)
      modifies `compareNulls
      ensures ok <==> (old(compareNulls.Some?) ==> old(compareNulls.value) == policy)
      ensures ok ==> compareNulls == Some(policy)
    {
      if compareNulls.Some? && compareNulls.value != policy { return false; }
      compareNulls := Some(policy);
      ok := true;
    }

    ghost function State(): Split
      reads this
    {
      Split(leftKeys, rightKeys, residual, compareNulls)
    }

    /** `parse_join_condition`. */
    method Parse(n: nat) returns (ok: bool)
      requires PairingOk(x) && n < |x.e|
      modifies this
      ensures ok <==> Uniform(old(compareNulls), Keys(LeftEnv(x), n))
      ensures ok ==> State() == Added(old(State()), Keys(LeftEnv(x), n), Residual(LeftEnv(x), n))
      decreases n, 1
    {
      if !x.e[n].Binary? {
        residual := residual + [n];
        return true;
      }
      var a, b := x.e[n].a, x.e[n].b;
      match x.e[n].bop
      case Equal =>
        UniformOne(compareNulls, Key(a, b, false));
        leftKeys, rightKeys := leftKeys + [a], rightKeys + [b];
        ok := UpdateNullEquality(false);
      case NullEquals =>
        UniformOne(compareNulls, Key(a, b, true));
        leftKeys, rightKeys := leftKeys + [a], rightKeys + [b];
        ok := UpdateNullEquality(true);
      case NullAnd =>
        ok := ParseBoth(n, a, b);
      case LogicalAnd =>
        ok := ParseBoth(n, a, b);
      case _ =>
        residual := residual + [n];
        ok := true;
    }

    method ParseBoth(n: nat, a: nat, b: nat) returns (ok: bool)
      requires PairingOk(x) && n < |x.e| && IsAnd(x.e[n]) && a == x.e[n].a && b == x.e[n].b
      modifies this
      ensures ok <==> Uniform(old(compareNulls), Keys(LeftEnv(x), n))
      ensures ok ==> State() == Added(old(State()), Keys(LeftEnv(x), n), Residual(LeftEnv(x), n))
      decreases n, 0
    {
      AndSplits(LeftEnv(x), n);
      ghost var s := State();
      AddedTwice(s, Keys(LeftEnv(x), a), Residual(LeftEnv(x), a), Keys(LeftEnv(x), b), Residual(LeftEnv(x), b));
      ok := Parse(a);
      if !ok { return; }
      ok := Parse(b);
    }
  }

  datatype Split = Split(leftKeys: seq<nat>, rightKeys: seq<nat>, residual: seq<nat>, compareNulls: Option<bool>)

  ghost function Added(s: Split, keys: seq<Key>, residual: seq<nat>): Split
  {
    Split(s.leftKeys + Lefts(keys), s.rightKeys + Rights(keys), s.residual + residual,
          PolicyAfter(s.compareNulls, keys))
  }

  lemma AndSplits(x: Env<Cell>, n: nat)
    requires EnvOk(x) && n < |x.e| && IsAnd(x.e[n])
    ensures x.e[n].a < n && x.e[n].b < n
    ensures Keys(x, n) == Keys(x, x.e[n].a) + Keys(x, x.e[n].b)
    ensures Residual(x, n) == Residual(x, x.e[n].a) + Residual(x, x.e[n].b)
  {
    assert Children(x.e[n])[0] == x.e[n].a && Children(x.e[n])[1] == x.e[n].b;
  }

  lemma AddedTwice(s: Split, a: seq<Key>, ra: seq<nat>, b: seq<Key>, rb: seq<nat>)
    ensures Added(Added(s, a, ra), b, rb) == Added(s, a + b, ra + rb)
    ensures Uniform(s.compareNulls, a + b) <==> Uniform(s.compareNulls, a) && Uniform(PolicyAfter(s.compareNulls, a), b)
  {
    UniformConcat(s.compareNulls, a, b);
    assert Lefts(a + b) == Lefts(a) + Lefts(b) && Rights(a + b) == Rights(a) + Rights(b);
  }

  ghost function Lefts(keys: seq<Key>): seq<nat>
  {
    seq(|keys|, k requires 0 <= k < |keys| => keys[k].left)
  }

  ghost function Rights(keys: seq<Key>): seq<nat>
  {
    seq(|keys|, k requires 0 <= k < |keys| => keys[k].right)
  }

  lemma UniformOne(policy: Option<bool>, key: Key)
    ensures Uniform(policy, [key]) <==> (policy.Some? ==> key.nullsEqual == policy.value)
  {
    assert [key][0] == key;
  }

  lemma UniformConcat(policy: Option<bool>, a: seq<Key>, b: seq<Key>)
    ensures Uniform(policy, a + b) <==> Uniform(policy, a) && Uniform(PolicyAfter(policy, a), b)
    ensures PolicyAfter(policy, a + b) == PolicyAfter(PolicyAfter(policy, a), b)
  {
    if Uniform(policy, a + b) {
      assert forall k :: 0 <= k < |a| ==> a[k] == (a + b)[k];
      assert forall k :: 0 <= k < |b| ==> b[k] == (a + b)[|a| + k];
    }
    if a != [] && Uniform(policy, a) && Uniform(PolicyAfter(policy, a), b) {
      forall k | 0 <= k < |a + b| ensures (a + b)[k].nullsEqual == a[|a| - 1].nullsEqual {
        if k >= |a| { assert (a + b)[k] == b[k - |a|]; }
      }
    }
  }

  // ---------- The split means the same as the condition ----------

  /** One equality under its own null policy. */
  ghost predicate KeyHolds(x: Pairing, key: Key, i: nat, j: nat)
    requires PairingOk(x)
  {
    key.left < |x.e| && key.right < |x.e| &&
    SameKey(key.nullsEqual, PairVal(x, key.left, i, j), PairVal(x, key.right, i, j))
  }

  predicate SameKey(nullsEqual: bool, a: Cell, b: Cell)
  {
    a == b && (nullsEqual || !a.Null?)
  }

  lemma BinaryVal(x: Pairing, n: nat, i: nat, j: nat)
    requires PairingOk(x) && n < |x.e| && x.e[n].Binary?
    ensures x.e[n].a < n && x.e[n].b < n
    ensures PairVal(x, n, i, j) == x.sem.bin(x.e[n].bop, PairVal(x, x.e[n].a, i, j), PairVal(x, x.e[n].b, i, j))
  {
    PairEnvOk(x, i, j);
    assert Children(x.e[n])[0] == x.e[n].a && Children(x.e[n])[1] == x.e[n].b;
  }

  ghost predicate AllKeysHold(x: Pairing, keys: seq<Key>, i: nat, j: nat)
    requires PairingOk(x)
  {
    forall k :: 0 <= k < |keys| ==> KeyHolds(x, keys[k], i, j)
  }

  ghost predicate AllTrue(x: Pairing, ns: seq<nat>, i: nat, j: nat)
    requires PairingOk(x)
  {
    forall k :: 0 <= k < |ns| ==> ns[k] < |x.e| && True(PairVal(x, ns[k], i, j))
  }

  lemma AllConcat(x: Pairing, a: seq<Key>, b: seq<Key>, ra: seq<nat>, rb: seq<nat>, i: nat, j: nat)
    requires PairingOk(x)
    ensures AllKeysHold(x, a + b, i, j) <==> AllKeysHold(x, a, i, j) && AllKeysHold(x, b, i, j)
    ensures AllTrue(x, ra + rb, i, j) <==> AllTrue(x, ra, i, j) && AllTrue(x, rb, i, j)
  {
    if AllKeysHold(x, a + b, i, j) {
      assert forall k :: 0 <= k < |a| ==> a[k] == (a + b)[k];
      assert forall k :: 0 <= k < |b| ==> b[k] == (a + b)[|a| + k];
    }
    if AllTrue(x, ra + rb, i, j) {
      assert forall k :: 0 <= k < |ra| ==> ra[k] == (ra + rb)[k];
      assert forall k :: 0 <= k < |rb| ==> rb[k] == (ra + rb)[|ra| + k];
    }
  }

  /** The condition is TRUE exactly if every extracted equality and every residual predicate is. */
  lemma {:induction false} SplitMeans(x: Pairing, n: nat, i: nat, j: nat)
    requires PairingOk(x) && n < |x.e|
    ensures True(PairVal(x, n, i, j)) <==>
              AllKeysHold(x, Keys(LeftEnv(x), n), i, j) && AllTrue(x, Residual(LeftEnv(x), n), i, j)
    decreases n
  {
    if IsAnd(x.e[n]) {
      BinaryVal(x, n, i, j);
      AndSplits(LeftEnv(x), n);
      SplitMeans(x, x.e[n].a, i, j);
      SplitMeans(x, x.e[n].b, i, j);
      AllConcat(x, Keys(LeftEnv(x), x.e[n].a), Keys(LeftEnv(x), x.e[n].b),
                Residual(LeftEnv(x), x.e[n].a), Residual(LeftEnv(x), x.e[n].b), i, j);
    } else if x.e[n].Binary? && (x.e[n].bop.Equal? || x.e[n].bop.NullEquals?) {
      EqualityMeans(x, n, i, j);
    } else {
      assert Keys(LeftEnv(x), n) == [] && Residual(LeftEnv(x), n) == [n];
      assert AllTrue(x, [n], i, j) <==> True(PairVal(x, [n][0], i, j));
    }
  }

  lemma EqualityMeans(x: Pairing, n: nat, i: nat, j: nat)
    requires PairingOk(x) && n < |x.e| && x.e[n].Binary? && (x.e[n].bop.Equal? || x.e[n].bop.NullEquals?)
    ensures True(PairVal(x, n, i, j)) <==> AllKeysHold(x, Keys(LeftEnv(x), n), i, j)
    ensures Residual(LeftEnv(x), n) == []
  {
    BinaryVal(x, n, i, j);
    var key := Key(x.e[n].a, x.e[n].b, x.e[n].bop.NullEquals?);
    assert Keys(LeftEnv(x), n) == [key];
    assert True(PairVal(x, n, i, j)) <==> KeyHolds(x, key, i, j);
    assert AllKeysHold(x, [key], i, j) <==> KeyHolds(x, [key][0], i, j);
  }

  // ---------- Key columns and the residual expression ----------

  datatype KeyColumns = KeyColumns(left: seq<seq<Cell>>, right: seq<seq<Cell>>, compareNulls: Option<bool>,
                                   residual: seq<nat>)

  /** The hash join's test: all key columns agree under the one recorded null policy. */
  predicate KeysMatch(k: KeyColumns, i: nat, j: nat)
    requires |k.left| == |k.right|
    requires forall c :: 0 <= c < |k.left| ==> i < |k.left[c]| && j < |k.right[c]|
  {
    forall c :: 0 <= c < |k.left| ==> SameKey(k.compareNulls == Some(true), k.left[c][i], k.right[c][j])
  }

  /** References inside larger key expressions lie in the table the key is evaluated on; bare references may not. */
  ghost predicate KeysInside(x: Pairing, keys: seq<Key>)
    requires PairingOk(x)
  {
    forall k :: 0 <= k < |keys| ==>
      keys[k].left < |x.e| && keys[k].right < |x.e| &&
      (x.e[keys[k].left].ColRef? || RefsOk(LeftEnv(x), keys[k].left)) &&
      (x.e[keys[k].right].ColRef? || RefsOk(RightEnv(x), keys[k].right))
  }

  /** Each equality compares an expression of the left table with one of the right table, and both can be evaluated. */
  ghost predicate SidesOk(x: Pairing, keys: seq<Key>)
    requires PairingOk(x)
  {
    KeysInside(x, keys) &&
    forall k :: 0 <= k < |keys| ==> Evaluates(LeftEnv(x), keys[k].left) && Evaluates(RightEnv(x), keys[k].right)
  }

  /** `add_join_condition`: parse, then evaluate the keys of each side on its own table. */
  method AddJoinCondition(x: Pairing, n: nat) returns (r: Attempt<KeyColumns>)
    requires PairingOk(x) && n < |x.e| && KeysInside(x, Keys(LeftEnv(x), n))
    ensures r.Returned? <==> Uniform(None, Keys(LeftEnv(x), n)) && SidesOk(x, Keys(LeftEnv(x), n))
    ensures r.Returned? ==> ColumnsFit(x, n, r.value)
  {
    var container := new JoinKeys(x);
    var ok := container.Parse(n);
    if !ok { return Thrown; }
    var columns := EvaluateKeys(x, container.leftKeys, container.rightKeys, Keys(LeftEnv(x), n));
    if columns.Thrown? { return Thrown; }
    r := Returned(KeyColumns(columns.value.0, columns.value.1, container.compareNulls, container.residual));
  }

  /** The columns of the keys of both sides. */
  method EvaluateKeys(x: Pairing, lefts: seq<nat>, rights: seq<nat>, ghost keys: seq<Key>)
    returns (r: Attempt<(seq<seq<Cell>>, seq<seq<Cell>>)>)
    requires PairingOk(x) && KeysInside(x, keys) && lefts == Lefts(keys) && rights == Rights(keys)
    ensures r.Returned? <==> SidesOk(x, keys)
    ensures r.Returned? ==> ColumnsOf(x, keys, r.value.0, r.value.1)
  {
    var left := EvaluateExpressions(LeftEnv(x), lefts);
    if left.Thrown? {
      ghost var k :| 0 <= k < |lefts| && !Evaluates(LeftEnv(x), lefts[k]);
      assert lefts[k] == keys[k].left;
      return Thrown;
    }
    var right := EvaluateExpressions(RightEnv(x), rights);
    if right.Thrown? {
      ghost var k :| 0 <= k < |rights| && !Evaluates(RightEnv(x), rights[k]);
      assert rights[k] == keys[k].right;
      return Thrown;
    }
    forall k | 0 <= k < |keys| ensures Evaluates(LeftEnv(x), keys[k].left) && Evaluates(RightEnv(x), keys[k].right) {
      assert lefts[k] == keys[k].left && rights[k] == keys[k].right;
    }
    r := Returned((left.value, right.value));
  }

  ghost predicate ColumnsOf(x: Pairing, keys: seq<Key>, left: seq<seq<Cell>>, right: seq<seq<Cell>>)
    requires PairingOk(x)
  {
    |left| == |right| == |keys| &&
    forall c :: 0 <= c < |keys| ==>
      |left[c]| == x.leftRows && |right[c]| == x.rightRows && keys[c].left < |x.e| && keys[c].right < |x.e| &&
      (forall i :: 0 <= i < x.leftRows ==> left[c][i] == RowVal(LeftEnv(x), keys[c].left, i)) &&
      (forall j :: 0 <= j < x.rightRows ==> right[c][j] == RowVal(RightEnv(x), keys[c].right, j))
  }

  ghost predicate ColumnsFit(x: Pairing, n: nat, k: KeyColumns)
    requires PairingOk(x) && n < |x.e|
  {
    var keys := Keys(LeftEnv(x), n);
    ColumnsOf(x, keys, k.left, k.right) && k.compareNulls == PolicyAfter(None, keys) &&
    k.residual == Residual(LeftEnv(x), n)
  }

  /** The key columns agree on a pair of rows exactly if the extracted equalities hold for it. */
  lemma KeysMatchMeans(x: Pairing, n: nat, k: KeyColumns, i: nat, j: nat)
    requires PairingOk(x) && n < |x.e| && SidesOk(x, Keys(LeftEnv(x), n)) && Uniform(None, Keys(LeftEnv(x), n))
    requires ColumnsFit(x, n, k) && i < x.leftRows && j < x.rightRows
    ensures KeysMatch(k, i, j) <==> AllKeysHold(x, Keys(LeftEnv(x), n), i, j)
  {
    var keys := Keys(LeftEnv(x), n);
    forall c | 0 <= c < |keys|
      ensures SameKey(k.compareNulls == Some(true), k.left[c][i], k.right[c][j]) <==> KeyHolds(x, keys[c], i, j)
    {
      assert RefsOk(LeftEnv(x), keys[c].left) && RefsOk(RightEnv(x), keys[c].right);
      LeftCells(x, keys[c].left, i, j);
      SameValue(LeftEnv(x), i, PairEnv(x, i, j), 0, keys[c].left);
      RightCells(x, keys[c].right, i, j);
      SameValue(RightEnv(x), j, PairEnv(x, i, j), 0, keys[c].right);
      assert keys[c].nullsEqual == keys[|keys| - 1].nullsEqual;
    }
  }
}
