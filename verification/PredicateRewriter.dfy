/** Turning the residual join condition into an expression over two tables. */
module PredicateRewriter {
  import opened Arith
  import opened Casts
  import opened Wrappers
  import opened Relational
  import opened Expressions
  import opened JoinCondition

  datatype PairAst =
    | LeftCol(c: int)
    | RightCol(c: int)
    | PairLit(v: Cell)
    | Pair1(op: AstOp, a: PairAst)
    | Pair2(op: AstOp, a: PairAst, b: PairAst)

  /** `Floating` stands for floating-point and fixed-point targets. */
  datatype CastClass = Integer(bits: nat, signed: bool) | Boolean | Floating | Neither

  /** What the rewriter asks about types: the class of a cast's target, and which literals are 8-bit integers. `holds`
    says which numbers a floating-point or fixed-point target represents. */
  datatype Kinds = Kinds(class_: nat -> CastClass, byteLiteral: nat -> bool, holds: (TypeId, real) -> bool)

  function ClassOf(kinds: Kinds, to: TypeId): CastClass
  {
    match to
    case Int64 => Integer(64, true)
    case UInt64 => Integer(64, false)
    case Float64 => Floating
    case OtherType(id) => kinds.class_(id)
  }

  predicate Integral(c: CastClass)
  {
    c.Integer? || c.Boolean?
  }

  /** `predicate_rewriter`: None when visiting a node throws. */
  function Rewrite(x: Pairing, kinds: Kinds, n: nat): Option<PairAst>
    requires PairingOk(x) && n < |x.e|
    decreases n
  {
    assert EnvOk(LeftEnv(x));
    match x.e[n]
    case ColRef(i) => Some(if i < |x.left| then LeftCol(i) else RightCol(i - |x.left|))
    case Literal(v) => if kinds.byteLiteral(n) then None else Some(PairLit(v))
    case Binary(op, a, b) =>
      assert Children(x.e[n])[0] == a && Children(x.e[n])[1] == b;
      var left, right := Rewrite(x, kinds, a), Rewrite(x, kinds, b);
      if left.None? || right.None? || BinaryAst(op).None? then None
      else Some(Pair2(BinaryAst(op).value, left.value, right.value))
    case Unary(op, a) =>
      assert Children(x.e[n])[0] == a;
      var child := Rewrite(x, kinds, a);
      if child.None? || UnaryAst(op).None? then None else Some(Pair1(UnaryAst(op).value, child.value))
    case Cast(to, a) =>
      assert Children(x.e[n])[0] == a;
      var child := Rewrite(x, kinds, a);
      if child.None? || ClassOf(kinds, to).Neither? then None
      else Some(Pair1(if Integral(ClassOf(kinds, to)) then CastToInt64 else CastToFloat64, child.value))
    case _ => None
  }

  /** What makes the rewriter throw: 8-bit literals, operators that cuDF's AST does not have, casts to other than
    arithmetic types, and every other kind of node. */
  lemma RewriteMay(x: Pairing, kinds: Kinds, n: nat)
    requires PairingOk(x) && n < |x.e|
    ensures x.e[n].ColRef? ==> Rewrite(x, kinds, n).Some?
    ensures x.e[n].Literal? ==> (Rewrite(x, kinds, n).Some? <==> !kinds.byteLiteral(n))
    ensures x.e[n].Binary? ==>
              x.e[n].a < n && x.e[n].b < n &&
              (Rewrite(x, kinds, n).Some? <==>
                 Rewrite(x, kinds, x.e[n].a).Some? && Rewrite(x, kinds, x.e[n].b).Some? &&
                 x.e[n].bop != LogicalAnd && !x.e[n].bop.OtherBinary?)
    ensures x.e[n].Unary? ==>
              x.e[n].a < n &&
              (Rewrite(x, kinds, n).Some? <==> Rewrite(x, kinds, x.e[n].a).Some? && x.e[n].uop == Not)
    ensures x.e[n].Cast? ==>
              x.e[n].a < n &&
              (Rewrite(x, kinds, n).Some? <==>
                 Rewrite(x, kinds, x.e[n].a).Some? && ClassOf(kinds, x.e[n].to) != Neither)
    ensures x.e[n].IsNull? || x.e[n].IfThenElse? || x.e[n].ScalarFn? || x.e[n].Subquery? ==>
              Rewrite(x, kinds, n).None?
  {
    assert EnvOk(LeftEnv(x));
    var kids := Children(x.e[n]);
    match x.e[n]
    case Binary(_, a, b) => assert kids[0] == a && kids[1] == b;
    case Unary(_, a) => assert kids[0] == a;
    case Cast(_, a) => assert kids[0] == a;
    case _ =>
  }

  /** What cuDF's conditional join computes for left row `i` and right row `j`. */
  function RunPair(x: Pairing, ast: PairAst, i: nat, j: nat): Cell
  {
    match ast
    case LeftCol(c) => CellAt(LeftEnv(x), c, i)
    case RightCol(c) => CellAt(RightEnv(x), c, j)
    case PairLit(v) => v
    case Pair1(op, a) => Apply1(x.sem, op, RunPair(x, a, i, j))
    case Pair2(op, a, b) => Apply2(x.sem, op, RunPair(x, a, i, j), RunPair(x, b, i, j))
  }

  function Widened(kinds: Kinds, to: TypeId): TypeId
  {
    if Integral(ClassOf(kinds, to)) then Int64 else Float64
  }

  // ---------- What casts do ----------

  /** C++ defines the cast: an integer of at most 64 bits, or a number that truncates into the range of the target. */
  ghost predicate Defined(c: CastClass, v: real)
  {
    match c
    case Integer(bits, signed) => 0 < bits <= 64 && (Whole(v) || InRange(bits, signed, Trunc(v)))
    case Boolean => true
    case _ => false
  }

  ghost predicate Whole(v: real)
  {
    v == v.Floor as real && (InRange(64, true, v.Floor) || InRange(64, false, v.Floor))
  }

  function CastInt(c: CastClass, v: real): int
    requires c.Integer? ==> c.bits > 0
  {
    match c
    case Integer(bits, signed) => Wrap(bits, signed, Trunc(v))
    case _ => if v == 0.0 then 0 else 1
  }

  /** The value lies between two numbers that the target represents. */
  ghost predicate Spanned(kinds: Kinds, to: TypeId, v: real)
  {
    exists a, b :: kinds.holds(to, a) && kinds.holds(to, b) && a <= v <= b
  }

  /** Integral casts truncate and keep the value modulo a power of two; casts to a boolean compare with zero; the others
    round to a number that the target represents, and keep the value if it does; a cast of NULL is NULL. */
  ghost predicate CastOk(s: Sem<Cell>, kinds: Kinds, to: TypeId, v: Cell)
  {
    (v.Null? ==> s.cast(to, v) == Null) &&
    (v.Num? && Defined(ClassOf(kinds, to), v.v) ==> s.cast(to, v) == Num(CastInt(ClassOf(kinds, to), v.v) as real)) &&
    (v.Num? && ClassOf(kinds, to).Floating? && Spanned(kinds, to, v.v) ==> RoundOk(s, kinds, to, v))
  }

  ghost predicate RoundOk(s: Sem<Cell>, kinds: Kinds, to: TypeId, v: Cell)
    requires v.Num?
  {
    var w := s.cast(to, v);
    w.Num? && kinds.holds(to, w.v) && (kinds.holds(to, v.v) ==> w == v)
  }

  ghost predicate CastsOk(s: Sem<Cell>, kinds: Kinds)
  {
    forall to: TypeId, v: Cell :: CastOk(s, kinds, to, v)
  }

  /** Read as an INT64, the value lies in the range of the integral target; or the other target represents it. */
  ghost predicate Fits(kinds: Kinds, to: TypeId, v: real)
  {
    match ClassOf(kinds, to)
    case Integer(bits, signed) => bits > 0 && InRange(bits, signed, Wrap(64, true, Trunc(v)))
    case Boolean => v == 0.0 || Trunc(v) == 1
    case _ => kinds.holds(to, v)
  }

  /** The value is one that both casts are defined for; FLOAT64 represents it if the rewriter casts to that. */
  ghost predicate Castable(kinds: Kinds, to: TypeId, v: real)
  {
    var c := ClassOf(kinds, to);
    if Integral(c) then Defined(c, v) && Defined(Integer(64, true), v)
    else c.Floating? && kinds.holds(Float64, v) && Spanned(kinds, to, v)
  }

  lemma BooleanIff(v: real)
    requires Defined(Integer(64, true), v)
    ensures Wrap(64, true, Trunc(v)) == CastInt(Boolean, v) <==> v == 0.0 || Trunc(v) == 1
  {
    var n := Trunc(v);
    if InRange(64, true, n) {
      WrapKeeps(64, true, n);
    } else {
      WrapCarries(n);
    }
  }

  /** A value that only an unsigned 64-bit integer holds becomes negative. */
  lemma WrapCarries(n: int)
    requires !InRange(64, true, n) && InRange(64, false, n)
    ensures Wrap(64, true, n) < 0
  {
    assert n % Pow2(64) == n by { ModIs(n, Pow2(64), 0, n); }
  }

  /** Casting to INT64 or FLOAT64 instead of the target keeps the value exactly if it fits. */
  lemma CastWidenedIff(s: Sem<Cell>, kinds: Kinds, to: TypeId, v: real)
    requires CastsOk(s, kinds) && Castable(kinds, to, v)
    ensures s.cast(Widened(kinds, to), Num(v)) == s.cast(to, Num(v)) <==> Fits(kinds, to, v)
  {
    var c := ClassOf(kinds, to);
    assert CastOk(s, kinds, to, Num(v)) && CastOk(s, kinds, Widened(kinds, to), Num(v));
    match c
    case Integer(bits, signed) => WidenedIff(bits, signed, Trunc(v));
    case Boolean => BooleanIff(v);
    case Floating => assert Spanned(kinds, Float64, v);
  }

  /** The rewriter leaves the cast as it is, or the operand is NULL, or it fits the target. */
  ghost predicate CastFits(x: Pairing, kinds: Kinds, n: nat, i: nat, j: nat)
    requires PairingOk(x) && n < |x.e| && x.e[n].Cast?
  {
    x.e[n].a < |x.e| &&
    var to, v := x.e[n].to, PairVal(x, x.e[n].a, i, j);
    Widened(kinds, to) == to || v.Null? || (Castable(kinds, to, v.v) && Fits(kinds, to, v.v))
  }

  /** So for every cast below node `n`. */
  ghost predicate CastsFit(x: Pairing, kinds: Kinds, n: nat, i: nat, j: nat)
    requires PairingOk(x) && n < |x.e|
    decreases n
  {
    (forall k :: 0 <= k < |Children(x.e[n])| ==>
      Children(x.e[n])[k] < n && CastsFit(x, kinds, Children(x.e[n])[k], i, j)) &&
    (x.e[n].Cast? ==> CastFits(x, kinds, n, i, j))
  }

  lemma FittingCast(x: Pairing, kinds: Kinds, n: nat, i: nat, j: nat)
    requires PairingOk(x) && CastsOk(x.sem, kinds) && n < |x.e| && x.e[n].Cast? && CastFits(x, kinds, n, i, j)
    ensures var v := PairVal(x, x.e[n].a, i, j); x.sem.cast(Widened(kinds, x.e[n].to), v) == x.sem.cast(x.e[n].to, v)
  {
    var to, v := x.e[n].to, PairVal(x, x.e[n].a, i, j);
    if v.Null? {
      assert CastOk(x.sem, kinds, to, v) && CastOk(x.sem, kinds, Widened(kinds, to), v);
    } else if Widened(kinds, to) != to {
      CastWidenedIff(x.sem, kinds, to, v.v);
    }
  }

  lemma OneVal(x: Pairing, n: nat, i: nat, j: nat)
    requires PairingOk(x) && n < |x.e| && (x.e[n].Unary? || x.e[n].Cast?)
    ensures x.e[n].a < n
    ensures PairVal(x, n, i, j) == if x.e[n].Unary? then x.sem.un(x.e[n].uop, PairVal(x, x.e[n].a, i, j))
                                   else x.sem.cast(x.e[n].to, PairVal(x, x.e[n].a, i, j))
  {
    PairEnvOk(x, i, j);
    assert Children(x.e[n])[0] == x.e[n].a;
  }

  lemma LeafVal(x: Pairing, n: nat, i: nat, j: nat)
    requires PairingOk(x) && n < |x.e| && (x.e[n].ColRef? || x.e[n].Literal?)
    ensures x.e[n].ColRef? ==> PairVal(x, n, i, j) == if x.e[n].idx < |x.left| then CellAt(LeftEnv(x), x.e[n].idx, i)
                                                      else CellAt(RightEnv(x), x.e[n].idx - |x.left|, j)
    ensures x.e[n].Literal? ==> PairVal(x, n, i, j) == x.e[n].v
    ensures x.e[n].ColRef? && 0 <= x.e[n].idx < |x.left| && i < x.leftRows ==>
              PairVal(x, n, i, j) == x.left[x.e[n].idx][i]
    ensures x.e[n].ColRef? && |x.left| <= x.e[n].idx < |x.left| + |x.right| && j < x.rightRows ==>
              PairVal(x, n, i, j) == x.right[x.e[n].idx - |x.left|][j]
  {
  }

  // ---------- The rewritten predicate ----------

  /** Columns are re-addressed correctly and operators keep their meaning, wherever the casts fit. */
  lemma {:induction false} RewriteMeans(x: Pairing, kinds: Kinds, n: nat, i: nat, j: nat)
    requires PairingOk(x) && CastsOk(x.sem, kinds) && n < |x.e| && Rewrite(x, kinds, n).Some?
    requires CastsFit(x, kinds, n, i, j)
    ensures RunPair(x, Rewrite(x, kinds, n).value, i, j) == PairVal(x, n, i, j)
    decreases n
  {
    var kids := Children(x.e[n]);
    match x.e[n]
    case ColRef(_) => LeafVal(x, n, i, j);
    case Literal(_) => LeafVal(x, n, i, j);
    case Binary(_, a, b) =>
      assert kids[0] == a && kids[1] == b;
      RewriteMeans(x, kinds, a, i, j);
      RewriteMeans(x, kinds, b, i, j);
      RewriteBinary(x, kinds, n, i, j);
    case Unary(_, a) =>
      assert kids[0] == a;
      RewriteMeans(x, kinds, a, i, j);
      RewriteOne(x, kinds, n, i, j);
    case Cast(_, a) =>
      assert kids[0] == a;
      RewriteMeans(x, kinds, a, i, j);
      FittingCast(x, kinds, n, i, j);
      RewriteOne(x, kinds, n, i, j);
  }

  lemma RewriteBinary(x: Pairing, kinds: Kinds, n: nat, i: nat, j: nat)
    requires PairingOk(x) && n < |x.e| && Rewrite(x, kinds, n).Some? && x.e[n].Binary? && x.e[n].a < n && x.e[n].b < n
    requires Rewrite(x, kinds, x.e[n].a).Some? && Rewrite(x, kinds, x.e[n].b).Some?
    requires RunPair(x, Rewrite(x, kinds, x.e[n].a).value, i, j) == PairVal(x, x.e[n].a, i, j)
    requires RunPair(x, Rewrite(x, kinds, x.e[n].b).value, i, j) == PairVal(x, x.e[n].b, i, j)
    ensures RunPair(x, Rewrite(x, kinds, n).value, i, j) == PairVal(x, n, i, j)
  {
  }

  lemma RewriteOne(x: Pairing, kinds: Kinds, n: nat, i: nat, j: nat)
    requires PairingOk(x) && n < |x.e| && Rewrite(x, kinds, n).Some? && (x.e[n].Unary? || x.e[n].Cast?) && x.e[n].a < n
    requires Rewrite(x, kinds, x.e[n].a).Some?
    requires var v := PairVal(x, x.e[n].a, i, j);
      x.e[n].Cast? ==> x.sem.cast(Widened(kinds, x.e[n].to), v) == x.sem.cast(x.e[n].to, v)
    requires RunPair(x, Rewrite(x, kinds, x.e[n].a).value, i, j) == PairVal(x, x.e[n].a, i, j)
    ensures RunPair(x, Rewrite(x, kinds, n).value, i, j) == PairVal(x, n, i, j)
  {
  }

  /** A rewritten cast keeps its value exactly if the operand fits the target. */
  lemma CastKeptIff(x: Pairing, kinds: Kinds, n: nat, i: nat, j: nat)
    requires PairingOk(x) && CastsOk(x.sem, kinds) && n < |x.e| && x.e[n].Cast? && Rewrite(x, kinds, n).Some?
    requires x.e[n].a < |x.e| && CastsFit(x, kinds, x.e[n].a, i, j)
    requires var v := PairVal(x, x.e[n].a, i, j); v.Num? && Castable(kinds, x.e[n].to, v.v)
    ensures RunPair(x, Rewrite(x, kinds, n).value, i, j) == PairVal(x, n, i, j) <==>
              Fits(kinds, x.e[n].to, PairVal(x, x.e[n].a, i, j).v)
  {
    assert Children(x.e[n])[0] == x.e[n].a;
    RewriteMeans(x, kinds, x.e[n].a, i, j);
    OneVal(x, n, i, j);
    CastWidenedIff(x.sem, kinds, x.e[n].to, PairVal(x, x.e[n].a, i, j).v);
  }

  // ---------- The residual conjunction ----------

  ghost predicate AllRewrite(x: Pairing, kinds: Kinds, ns: seq<nat>)
    requires PairingOk(x)
  {
    forall k :: 0 <= k < |ns| ==> ns[k] < |x.e| && Rewrite(x, kinds, ns[k]).Some?
  }

  /** The predicates joined by NULL_LOGICAL_AND, first one innermost. */
  ghost function Chain(x: Pairing, kinds: Kinds, ns: seq<nat>): PairAst
    requires PairingOk(x) && ns != [] && AllRewrite(x, kinds, ns)
  {
    var last := Rewrite(x, kinds, ns[|ns| - 1]).value;
    if |ns| == 1 then last else Pair2(AstNullAnd, Chain(x, kinds, ns[..|ns| - 1]), last)
  }

  /** `parse_predicates`. */
  method ParsePredicates(x: Pairing, kinds: Kinds, ns: seq<nat>) returns (r: Attempt<PairAst>)
    requires PairingOk(x) && ns != [] && forall k :: 0 <= k < |ns| ==> ns[k] < |x.e|
    ensures r.Returned? <==> AllRewrite(x, kinds, ns)
    ensures r.Returned? ==> r.value == Chain(x, kinds, ns)
  {
    var first := Rewrite(x, kinds, ns[0]);
    if first.None? { return Thrown; }
    var ast := first.value;
    for k := 1 to |ns|
      invariant AllRewrite(x, kinds, ns[..k]) && ast == Chain(x, kinds, ns[..k])
    {
      var next := Rewrite(x, kinds, ns[k]);
      if next.None? { return Thrown; }
      ast := Pair2(AstNullAnd, ast, next.value);
      assert ns[..k + 1][..k] == ns[..k] && ns[..k + 1][k] == ns[k];
    }
    assert ns[..|ns|] == ns;
    r := Returned(ast);
  }

  lemma {:induction false} ChainMeans(x: Pairing, kinds: Kinds, ns: seq<nat>, i: nat, j: nat)
    requires PairingOk(x) && ns != [] && AllRewrite(x, kinds, ns)
    requires CastsOk(x.sem, kinds) && forall k :: 0 <= k < |ns| ==> CastsFit(x, kinds, ns[k], i, j)
    ensures True(RunPair(x, Chain(x, kinds, ns), i, j)) <==> AllTrue(x, ns, i, j)
  {
    var n := |ns| - 1;
    RewriteMeans(x, kinds, ns[n], i, j);
    LastTrue(x, ns, i, j);
    if n > 0 { ChainMeans(x, kinds, ns[..n], i, j); }
  }

  lemma LastTrue(x: Pairing, ns: seq<nat>, i: nat, j: nat)
    requires PairingOk(x) && ns != [] && ns[|ns| - 1] < |x.e|
    ensures AllTrue(x, ns, i, j) <==> AllTrue(x, ns[..|ns| - 1], i, j) && True(PairVal(x, ns[|ns| - 1], i, j))
  {
  }

  /** The hash join on the key columns filtered by the residual expression joins exactly the pairs of rows on which the
    condition is TRUE, wherever the casts of the residual predicates fit. */
  lemma ConditionSplit(x: Pairing, kinds: Kinds, n: nat, k: KeyColumns, i: nat, j: nat)
    requires PairingOk(x) && n < |x.e| && SidesOk(x, Keys(LeftEnv(x), n)) && Uniform(None, Keys(LeftEnv(x), n))
    requires ColumnsFit(x, n, k) && AllRewrite(x, kinds, k.residual) && i < x.leftRows && j < x.rightRows
    requires CastsOk(x.sem, kinds) && forall m :: 0 <= m < |k.residual| ==> CastsFit(x, kinds, k.residual[m], i, j)
    ensures True(PairVal(x, n, i, j)) <==>
              KeysMatch(k, i, j) && (k.residual == [] || True(RunPair(x, Chain(x, kinds, k.residual), i, j)))
  {
    SplitMeans(x, n, i, j);
    KeysMatchMeans(x, n, k, i, j);
    if k.residual != [] { ChainMeans(x, kinds, k.residual, i, j); }
  }

  // ---------- A cast that does not fit ----------

  /** The condition CAST(column AS INT32) > 0 on a left table with the one value 2^31. */
  function Overflowing(sem: Sem<Cell>, typing: Typing): Pairing
  {
    Pairing([ColRef(0), Cast(OtherType(32), 0), Literal(Num(0.0)), Binary(Greater, 1, 2)], sem, typing,
            [[Num(2147483648.0)]], 1, [], 1)
  }

  lemma OverflowCasts(sem: Sem<Cell>, kinds: Kinds)
    requires CastsOk(sem, kinds) && kinds.class_(32) == Integer(32, true)
    ensures sem.cast(OtherType(32), Num(2147483648.0)) == Num(-2147483648.0)
    ensures sem.cast(Int64, Num(2147483648.0)) == Num(2147483648.0)
  {
    var v, n := 2147483648.0, 2147483648;
    PowersOfTwo();
    assert v.Floor == n && Trunc(v) == n && InRange(64, true, n) && Whole(v);
    WrapKeeps(64, true, n);
    assert Wrap(32, true, n) == -2147483648;
    assert CastOk(sem, kinds, OtherType(32), Num(v)) && CastOk(sem, kinds, Int64, Num(v));
  }

  lemma OverflowOk(sem: Sem<Cell>, typing: Typing)
    requires LogicOk(sem)
    ensures PairingOk(Overflowing(sem, typing))
    ensures var x := Overflowing(sem, typing); Keys(LeftEnv(x), 3) == [] && Residual(LeftEnv(x), 3) == [3]
  {
    var x := Overflowing(sem, typing);
    assert x.left[0] == [Num(2147483648.0)];
  }

  lemma OverflowValue(sem: Sem<Cell>, typing: Typing)
    requires PairingOk(Overflowing(sem, typing))
    ensures PairVal(Overflowing(sem, typing), 3, 0, 0)
         == sem.bin(Greater, sem.cast(OtherType(32), Num(2147483648.0)), Num(0.0))
  {
    var x := Overflowing(sem, typing);
    BinaryVal(x, 3, 0, 0);
    OneVal(x, 1, 0, 0);
    LeafVal(x, 0, 0, 0);
    LeafVal(x, 2, 0, 0);
  }

  lemma OverflowRewritten(x: Pairing, kinds: Kinds)
    requires PairingOk(x) && x == Overflowing(x.sem, x.typing)
    requires kinds.class_(32) == Integer(32, true) && !kinds.byteLiteral(2)
    ensures AllRewrite(x, kinds, [3])
    ensures Chain(x, kinds, [3]) == Pair2(AstGreater, Pair1(CastToInt64, LeftCol(0)), PairLit(Num(0.0)))
  {
    assert Rewrite(x, kinds, 0) == Some(LeftCol(0)) && Rewrite(x, kinds, 2) == Some(PairLit(Num(0.0)));
    assert Rewrite(x, kinds, 1) == Some(Pair1(CastToInt64, LeftCol(0)));
    assert [3][0] == 3 && |[3]| == 1;
  }

  lemma OverflowRun(sem: Sem<Cell>, typing: Typing)
    ensures RunPair(Overflowing(sem, typing),
                    Pair2(AstGreater, Pair1(CastToInt64, LeftCol(0)), PairLit(Num(0.0))), 0, 0)
         == sem.bin(Greater, sem.cast(Int64, Num(2147483648.0)), Num(0.0))
  {
    var x := Overflowing(sem, typing);
    assert RunPair(x, LeftCol(0), 0, 0) == Num(2147483648.0);
    assert RunPair(x, Pair1(CastToInt64, LeftCol(0)), 0, 0) == sem.cast(Int64, Num(2147483648.0));
  }

  /** Its value is not TRUE, because 2^31 is negative as an INT32, and yet the pair of rows is joined. */
  lemma OverflowJoins(sem: Sem<Cell>, typing: Typing, kinds: Kinds)
    requires LogicOk(sem) && CastsOk(sem, kinds) && kinds.class_(32) == Integer(32, true) && !kinds.byteLiteral(2)
    requires forall a: Cell, b: Cell :: a.Num? && b.Num? ==> sem.bin(Greater, a, b) == Bool(a.v > b.v)
    ensures var x := Overflowing(sem, typing);
      PairingOk(x) && Keys(LeftEnv(x), 3) == [] && Residual(LeftEnv(x), 3) == [3] && AllRewrite(x, kinds, [3])
    ensures !True(PairVal(Overflowing(sem, typing), 3, 0, 0))
    ensures True(RunPair(Overflowing(sem, typing), Chain(Overflowing(sem, typing), kinds, [3]), 0, 0))
  {
    OverflowOk(sem, typing);
    OverflowCasts(sem, kinds);
    OverflowValue(sem, typing);
    OverflowRewritten(Overflowing(sem, typing), kinds);
    OverflowRun(sem, typing);
    assert sem.bin(Greater, Num(-2147483648.0), Num(0.0)) == Bool(false);
  }

  // ---------- A cast that rounds ----------

  /** The condition CAST(column AS FLOAT32) <> column on a left table with the one value 2^24 + 1. */
  function Rounding(sem: Sem<Cell>, typing: Typing): Pairing
  {
    Pairing([ColRef(0), Cast(OtherType(9), 0), Binary(NotEqual, 1, 0)], sem, typing, [[Num(16777217.0)]], 1, [], 1)
  }

  /** The targets are the floating-point formats of IEEE 754. */
  ghost predicate FloatsOk(kinds: Kinds)
  {
    kinds.class_(9) == Floating &&
    forall v: real :: (kinds.holds(OtherType(9), v) <==> FloatHolds(24, -149, 104, v)) &&
                      (kinds.holds(Float64, v) <==> FloatHolds(53, -1074, 971, v))
  }

  lemma RoundingCasts(sem: Sem<Cell>, kinds: Kinds)
    requires CastsOk(sem, kinds) && FloatsOk(kinds)
    ensures sem.cast(Float64, Num(16777217.0)) == Num(16777217.0)
    ensures sem.cast(OtherType(9), Num(16777217.0)).Num? && sem.cast(OtherType(9), Num(16777217.0)).v != 16777217.0
  {
    var v := 16777217.0;
    OddFloats();
    assert kinds.holds(OtherType(9), 0.0) && kinds.holds(OtherType(9), 33554432.0) && kinds.holds(Float64, v);
    assert Spanned(kinds, OtherType(9), v) && Spanned(kinds, Float64, v);
    assert CastOk(sem, kinds, OtherType(9), Num(v)) && CastOk(sem, kinds, Float64, Num(v));
  }

  lemma RoundingOk(sem: Sem<Cell>, typing: Typing)
    requires LogicOk(sem)
    ensures PairingOk(Rounding(sem, typing))
    ensures var x := Rounding(sem, typing); Keys(LeftEnv(x), 2) == [] && Residual(LeftEnv(x), 2) == [2]
  {
    var x := Rounding(sem, typing);
    assert x.left[0] == [Num(16777217.0)];
  }

  lemma RoundingRewritten(x: Pairing, kinds: Kinds)
    requires PairingOk(x) && x == Rounding(x.sem, x.typing) && kinds.class_(9) == Floating
    ensures AllRewrite(x, kinds, [2])
    ensures Chain(x, kinds, [2]) == Pair2(AstNotEqual, Pair1(CastToFloat64, LeftCol(0)), LeftCol(0))
  {
    assert Rewrite(x, kinds, 0) == Some(LeftCol(0));
    assert Rewrite(x, kinds, 1) == Some(Pair1(CastToFloat64, LeftCol(0)));
    assert [2][0] == 2 && |[2]| == 1;
  }

  lemma RoundingValue(sem: Sem<Cell>, typing: Typing)
    requires PairingOk(Rounding(sem, typing))
    ensures PairVal(Rounding(sem, typing), 2, 0, 0)
         == sem.bin(NotEqual, sem.cast(OtherType(9), Num(16777217.0)), Num(16777217.0))
  {
    var x := Rounding(sem, typing);
    BinaryVal(x, 2, 0, 0);
    OneVal(x, 1, 0, 0);
    LeafVal(x, 0, 0, 0);
  }

  lemma RoundingRun(sem: Sem<Cell>, typing: Typing)
    ensures RunPair(Rounding(sem, typing), Pair2(AstNotEqual, Pair1(CastToFloat64, LeftCol(0)), LeftCol(0)), 0, 0)
         == sem.bin(NotEqual, sem.cast(Float64, Num(16777217.0)), Num(16777217.0))
  {
    var x := Rounding(sem, typing);
    assert RunPair(x, LeftCol(0), 0, 0) == Num(16777217.0);
    assert RunPair(x, Pair1(CastToFloat64, LeftCol(0)), 0, 0) == sem.cast(Float64, Num(16777217.0));
  }

  lemma RoundingJoins(sem: Sem<Cell>, typing: Typing, kinds: Kinds)
    requires LogicOk(sem) && kinds.class_(9) == Floating
    ensures var x := Rounding(sem, typing);
      PairingOk(x) && Keys(LeftEnv(x), 2) == [] && Residual(LeftEnv(x), 2) == [2] && AllRewrite(x, kinds, [2])
    ensures var x := Rounding(sem, typing);
      RunPair(x, Chain(x, kinds, [2]), 0, 0) == sem.bin(NotEqual, sem.cast(Float64, Num(16777217.0)), Num(16777217.0))
  {
    RoundingOk(sem, typing);
    RoundingRewritten(Rounding(sem, typing), kinds);
    RoundingRun(sem, typing);
  }

  /** Its value is TRUE, because 2^24 + 1 is rounded as a FLOAT32, and yet the pair of rows is not joined. */
  lemma RoundingIsLost(sem: Sem<Cell>, typing: Typing, kinds: Kinds)
    requires LogicOk(sem) && CastsOk(sem, kinds) && FloatsOk(kinds)
    requires forall a: Cell, b: Cell :: a.Num? && b.Num? ==> sem.bin(NotEqual, a, b) == Bool(a != b)
    ensures var x := Rounding(sem, typing);
      PairingOk(x) && Keys(LeftEnv(x), 2) == [] && Residual(LeftEnv(x), 2) == [2] && AllRewrite(x, kinds, [2]) &&
      True(PairVal(x, 2, 0, 0)) && !True(RunPair(x, Chain(x, kinds, [2]), 0, 0))
  {
    RoundingCasts(sem, kinds);
    RoundingJoins(sem, typing, kinds);
    RoundingValue(sem, typing);
  }
}
