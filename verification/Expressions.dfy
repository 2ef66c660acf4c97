/** Scalar expressions as a graph with sharing, the two ways cuDF can compute them, and their row-by-row meaning. */
module Expressions {
  import opened Wrappers

  datatype UnaryOp = Not | OtherUnary(id: nat)

  datatype BinaryOp =
    | Add | Sub | Mul | TrueDiv | NullAnd | NullOr | Equal | NotEqual | Less | Greater | LessEqual | GreaterEqual
    | NullEquals | LogicalAnd | OtherBinary(id: nat)

  datatype TypeId = Int64 | UInt64 | Float64 | OtherType(id: nat)

  datatype Fn =
    | Like(ignoreCase: bool, pattern: string)
    | Substr(start: int, length: int)
    | DatePart(part: nat)
    | OtherFn

  /** Operands are the numbers of earlier nodes; two parents may name the same node. */
  datatype Node<V> =
    | ColRef(idx: int)
    | Literal(v: V)
    | Unary(uop: UnaryOp, a: nat)
    | IsNull(a: nat)
    | Binary(bop: BinaryOp, a: nat, b: nat)
    | IfThenElse(a: nat, b: nat, c: nat)
    | Cast(to: TypeId, a: nat)
    | ScalarFn(fn: Fn, a: nat)
    | Subquery

  /** What cuDF computes for one row; `subquery` and `missing` are never consulted by an evaluation that succeeds. */
  datatype Sem<!V> = Sem(un: (UnaryOp, V) -> V, bin: (BinaryOp, V, V) -> V, isNull: V -> V, ite: (V, V, V) -> V,
                         cast: (TypeId, V) -> V, fn: (Fn, V) -> V, subquery: nat -> V, missing: V)

  /** What the type checks of the evaluator find for each node. */
  datatype Typing = Typing(fixed: nat -> bool, sameTypes: nat -> bool, boolCondition: nat -> bool,
                           sameBranches: nat -> bool)

  datatype Env<!V> = Env(e: seq<Node<V>>, sem: Sem<V>, typing: Typing, table: seq<seq<V>>, rows: nat, offset: int)

  function Children<V>(node: Node<V>): seq<nat>
  {
    match node
    case Unary(_, a) => [a]
    case IsNull(a) => [a]
    case Binary(_, a, b) => [a, b]
    case IfThenElse(a, b, c) => [a, b, c]
    case Cast(_, a) => [a]
    case ScalarFn(_, a) => [a]
    case _ => []
  }

  ghost predicate EnvOk<V>(x: Env<V>)
  {
    (forall n, i :: 0 <= n < |x.e| && 0 <= i < |Children(x.e[n])| ==> Children(x.e[n])[i] < n) &&
    (forall c :: 0 <= c < |x.table| ==> |x.table[c]| == x.rows) &&
    (forall n :: 0 <= n < |x.e| && (x.e[n].IsNull? || (x.e[n].Cast? && CastAst(x.e[n].to).Some?)) ==> x.typing.fixed(n))
  }

  function CellAt<V>(x: Env<V>, c: int, row: nat): V
  {
    if 0 <= c < |x.table| && row < |x.table[c]| then x.table[c][row] else x.sem.missing
  }

  /** The meaning of node `n` on one row: column references are shifted by the offset. */
  ghost function RowVal<V>(x: Env<V>, n: nat, row: nat): V
    requires EnvOk(x) && n < |x.e|
    decreases n
  {
    assert forall i :: 0 <= i < |Children(x.e[n])| ==> Children(x.e[n])[i] < n;
    match x.e[n]
    case ColRef(i) => CellAt(x, i - x.offset, row)
    case Literal(v) => v
    case Unary(op, a) => assert Children(x.e[n])[0] == a; x.sem.un(op, RowVal(x, a, row))
    case IsNull(a) => assert Children(x.e[n])[0] == a; x.sem.isNull(RowVal(x, a, row))
    case Binary(op, a, b) =>
      assert Children(x.e[n])[0] == a && Children(x.e[n])[1] == b;
      x.sem.bin(op, RowVal(x, a, row), RowVal(x, b, row))
    case IfThenElse(a, b, c) =>
      assert Children(x.e[n])[0] == a && Children(x.e[n])[1] == b && Children(x.e[n])[2] == c;
      x.sem.ite(RowVal(x, a, row), RowVal(x, b, row), RowVal(x, c, row))
    case Cast(to, a) => assert Children(x.e[n])[0] == a; x.sem.cast(to, RowVal(x, a, row))
    case ScalarFn(fn, a) => assert Children(x.e[n])[0] == a; x.sem.fn(fn, RowVal(x, a, row))
    case Subquery => x.sem.subquery(n)
  }

  /** The meaning of every kind of node in terms of its operands, first operand first. */
  lemma NodeMeans<V>(x: Env<V>, n: nat, row: nat)
    requires EnvOk(x) && n < |x.e| && row < x.rows
    ensures x.e[n].ColRef? && 0 <= x.e[n].idx - x.offset < |x.table| ==>
              RowVal(x, n, row) == x.table[x.e[n].idx - x.offset][row]
    ensures x.e[n].Literal? ==> RowVal(x, n, row) == x.e[n].v
    ensures x.e[n].Unary? ==> x.e[n].a < n && RowVal(x, n, row) == x.sem.un(x.e[n].uop, RowVal(x, x.e[n].a, row))
    ensures x.e[n].IsNull? ==> x.e[n].a < n && RowVal(x, n, row) == x.sem.isNull(RowVal(x, x.e[n].a, row))
    ensures x.e[n].Binary? ==>
              x.e[n].a < n && x.e[n].b < n &&
              RowVal(x, n, row) == x.sem.bin(x.e[n].bop, RowVal(x, x.e[n].a, row), RowVal(x, x.e[n].b, row))
    ensures x.e[n].IfThenElse? ==>
              x.e[n].a < n && x.e[n].b < n && x.e[n].c < n &&
              RowVal(x, n, row)
              == x.sem.ite(RowVal(x, x.e[n].a, row), RowVal(x, x.e[n].b, row), RowVal(x, x.e[n].c, row))
    ensures x.e[n].Cast? ==> x.e[n].a < n && RowVal(x, n, row) == x.sem.cast(x.e[n].to, RowVal(x, x.e[n].a, row))
    ensures x.e[n].ScalarFn? ==> x.e[n].a < n && RowVal(x, n, row) == x.sem.fn(x.e[n].fn, RowVal(x, x.e[n].a, row))
  {
    var kids := Children(x.e[n]);
    match x.e[n]
    case Unary(_, a) => assert kids[0] == a;
    case IsNull(a) => assert kids[0] == a;
    case Binary(_, a, b) => assert kids[0] == a && kids[1] == b;
    case IfThenElse(a, b, c) => assert kids[0] == a && kids[1] == b && kids[2] == c;
    case Cast(_, a) => assert kids[0] == a;
    case ScalarFn(_, a) => assert kids[0] == a;
    case _ =>
  }

  ghost predicate RefsOk<V>(x: Env<V>, n: nat)
    requires EnvOk(x) && n < |x.e|
    decreases n
  {
    (x.e[n].ColRef? ==> 0 <= x.e[n].idx - x.offset < |x.table|) &&
    forall i :: 0 <= i < |Children(x.e[n])| ==> RefsOk(x, Children(x.e[n])[i])
  }

  // ---------- cuDF's AST expressions ----------

  datatype AstOp =
    | AstAdd | AstSub | AstMul | AstTrueDiv | AstNullAnd | AstNullOr | AstEqual | AstNotEqual | AstLess | AstGreater
    | AstLessEqual | AstGreaterEqual | AstNullEqual | AstNot | AstIsNull | CastToInt64 | CastToUInt64 | CastToFloat64

  datatype Ast<V> = Ref(col: nat) | Lit(v: V) | Op1(op: AstOp, a: Ast<V>) | Op2(op: AstOp, a: Ast<V>, b: Ast<V>)

  /** `cudf_to_ast_operator`. */
  function BinaryAst(op: BinaryOp): Option<AstOp>
  {
    match op
    case Add => Some(AstAdd)
    case Sub => Some(AstSub)
    case Mul => Some(AstMul)
    case TrueDiv => Some(AstTrueDiv)
    case NullAnd => Some(AstNullAnd)
    case NullOr => Some(AstNullOr)
    case Equal => Some(AstEqual)
    case NotEqual => Some(AstNotEqual)
    case Less => Some(AstLess)
    case Greater => Some(AstGreater)
    case LessEqual => Some(AstLessEqual)
    case GreaterEqual => Some(AstGreaterEqual)
    case NullEquals => Some(AstNullEqual)
    case LogicalAnd => None
    case OtherBinary(_) => None
  }

  function UnaryAst(op: UnaryOp): Option<AstOp>
  {
    match op
    case Not => Some(AstNot)
    case OtherUnary(_) => None
  }

  function CastAst(to: TypeId): Option<AstOp>
  {
    match to
    case Int64 => Some(CastToInt64)
    case UInt64 => Some(CastToUInt64)
    case Float64 => Some(CastToFloat64)
    case OtherType(_) => None
  }

  function Apply1<V>(s: Sem<V>, op: AstOp, v: V): V
  {
    match op
    case AstNot => s.un(Not, v)
    case AstIsNull => s.isNull(v)
    case CastToInt64 => s.cast(Int64, v)
    case CastToUInt64 => s.cast(UInt64, v)
    case CastToFloat64 => s.cast(Float64, v)
    case _ => s.missing
  }

  function Apply2<V>(s: Sem<V>, op: AstOp, v: V, w: V): V
  {
    match op
    case AstAdd => s.bin(Add, v, w)
    case AstSub => s.bin(Sub, v, w)
    case AstMul => s.bin(Mul, v, w)
    case AstTrueDiv => s.bin(TrueDiv, v, w)
    case AstNullAnd => s.bin(NullAnd, v, w)
    case AstNullOr => s.bin(NullOr, v, w)
    case AstEqual => s.bin(Equal, v, w)
    case AstNotEqual => s.bin(NotEqual, v, w)
    case AstLess => s.bin(Less, v, w)
    case AstGreater => s.bin(Greater, v, w)
    case AstLessEqual => s.bin(LessEqual, v, w)
    case AstGreaterEqual => s.bin(GreaterEqual, v, w)
    case AstNullEqual => s.bin(NullEquals, v, w)
    case _ => s.missing
  }

  /** Every column an AST reads lies below `m`. */
  ghost predicate Below<V>(ast: Ast<V>, m: nat)
  {
    match ast
    case Ref(c) => c < m
    case Lit(_) => true
    case Op1(_, a) => Below(a, m)
    case Op2(_, a, b) => Below(a, m) && Below(b, m)
  }

  /** `cudf::compute_column`, one row. */
  function RunAst<V>(s: Sem<V>, cols: seq<seq<V>>, ast: Ast<V>, row: nat): V
    requires Below(ast, |cols|) && forall c :: 0 <= c < |cols| ==> row < |cols[c]|
  {
    match ast
    case Ref(c) => cols[c][row]
    case Lit(v) => v
    case Op1(op, a) => Apply1(s, op, RunAst(s, cols, a, row))
    case Op2(op, a, b) => Apply2(s, op, RunAst(s, cols, a, row), RunAst(s, cols, b, row))
  }

  // ---------- What the evaluator supports ----------

  /** The node is turned into an AST rather than computed column by column. */
  predicate UsesAst<V>(x: Env<V>, n: nat)
    requires n < |x.e|
  {
    match x.e[n]
    case ColRef(_) => true
    case Literal(_) => true
    case Unary(_, _) => x.typing.fixed(n)
    case IsNull(_) => true
    case Binary(_, _, _) => x.typing.fixed(n) && x.typing.sameTypes(n)
    case Cast(to, _) => CastAst(to).Some?
    case _ => false
  }

  /** Visiting the node itself does not throw. */
  ghost predicate VisitOk<V>(x: Env<V>, n: nat)
    requires EnvOk(x) && n < |x.e|
  {
    match x.e[n]
    case Unary(op, _) => x.typing.fixed(n) ==> UnaryAst(op).Some?
    case Binary(op, a, b) =>
      assert Children(x.e[n])[0] == a && Children(x.e[n])[1] == b;
      if UsesAst(x, n) then BinaryAst(op).Some? else !(x.e[a].Literal? && x.e[b].Literal?)
    case IfThenElse(_, _, _) => x.typing.boolCondition(n) && x.typing.sameBranches(n)
    case Subquery => false
    case _ => true
  }

  /** Computing the node's column does not throw. */
  predicate RunOk<V>(node: Node<V>)
  {
    node.ScalarFn? ==> !node.fn.OtherFn? && (node.fn.Like? ==> !node.fn.ignoreCase)
  }

  ghost predicate Compilable<V>(x: Env<V>, n: nat)
    requires EnvOk(x) && n < |x.e|
    decreases n
  {
    VisitOk(x, n) && forall i :: 0 <= i < |Children(x.e[n])| ==> Compilable(x, Children(x.e[n])[i])
  }

  /** Neither compiling nor running any node below `n` throws. */
  ghost predicate Supported<V>(x: Env<V>, n: nat)
    requires EnvOk(x) && n < |x.e|
    decreases n
  {
    VisitOk(x, n) && RunOk(x.e[n]) && forall i :: 0 <= i < |Children(x.e[n])| ==> Supported(x, Children(x.e[n])[i])
  }

  /** What makes an evaluation throw: a subquery; an operator on fixed-width columns that cuDF's AST does not have; a
    binary operation on two literals outside of an AST; a conditional with mismatched types; LIKE without regard to case
    or an unknown function. */
  ghost predicate Refused<V>(x: Env<V>, n: nat)
    requires n < |x.e|
  {
    x.e[n].Subquery? || (x.e[n].Unary? && x.typing.fixed(n) && x.e[n].uop != Not) ||
    (x.e[n].Binary? && x.typing.fixed(n) && x.typing.sameTypes(n) &&
     (x.e[n].bop == LogicalAnd || x.e[n].bop.OtherBinary?)) ||
    (x.e[n].Binary? && !(x.typing.fixed(n) && x.typing.sameTypes(n)) && x.e[n].a < |x.e| && x.e[n].b < |x.e| &&
     x.e[x.e[n].a].Literal? && x.e[x.e[n].b].Literal?) ||
    (x.e[n].IfThenElse? && !(x.typing.boolCondition(n) && x.typing.sameBranches(n))) ||
    (x.e[n].ScalarFn? && (x.e[n].fn.OtherFn? || (x.e[n].fn.Like? && x.e[n].fn.ignoreCase)))
  }

  /** An evaluation succeeds exactly if no node below is refused. */
  lemma SupportedMeans<V>(x: Env<V>, n: nat)
    requires EnvOk(x) && n < |x.e|
    ensures Supported(x, n) <==>
              (forall i :: 0 <= i < |Children(x.e[n])| ==> Supported(x, Children(x.e[n])[i])) && !Refused(x, n)
  {
    if x.e[n].Binary? {
      assert Children(x.e[n])[0] == x.e[n].a && Children(x.e[n])[1] == x.e[n].b;
    }
  }

  lemma {:induction false} SupportedCompilable<V>(x: Env<V>, n: nat)
    requires EnvOk(x) && n < |x.e| && Supported(x, n)
    ensures Compilable(x, n)
    decreases n
  {
    forall i | 0 <= i < |Children(x.e[n])| ensures Compilable(x, Children(x.e[n])[i]) {
      SupportedCompilable(x, Children(x.e[n])[i]);
    }
  }
}
