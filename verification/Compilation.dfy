/** The state the expression evaluator builds, what is true of it throughout, and why each update keeps it true. */
module Compilation {
  import opened Wrappers
  import opened Expressions

  /** An operand of a rewritten node: a column to read, or the operand node itself. */
  datatype Arg = Col(c: nat) | Child(n: nat)

  datatype Context<V> = Context(args: seq<Arg>, ast: Option<Ast<V>>, scalar: Option<V>, column: Option<nat>)

  type Contexts<V> = map<nat, Context<V>>

  /** What column `c` holds for one row once all `tasks` have run. */
  ghost function ColVal<V>(x: Env<V>, tasks: seq<nat>, c: nat, row: nat): V
    requires EnvOk(x)
  {
    if c < |x.table| then CellAt(x, c, row)
    else if c - |x.table| < |tasks| && tasks[c - |x.table|] < |x.e| then RowVal(x, tasks[c - |x.table|], row)
    else x.sem.missing
  }

  ghost function AstVal<V>(x: Env<V>, tasks: seq<nat>, ast: Ast<V>, row: nat): V
    requires EnvOk(x)
    decreases ast
  {
    match ast
    case Ref(c) => ColVal(x, tasks, c, row)
    case Lit(v) => v
    case Op1(op, a) => Apply1(x.sem, op, AstVal(x, tasks, a, row))
    case Op2(op, a, b) => Apply2(x.sem, op, AstVal(x, tasks, a, row), AstVal(x, tasks, b, row))
  }

  lemma {:induction false} AstValStable<V>(x: Env<V>, tasks: seq<nat>, n: nat, ast: Ast<V>, row: nat)
    requires EnvOk(x) && Below(ast, |x.table| + |tasks|)
    ensures AstVal(x, tasks + [n], ast, row) == AstVal(x, tasks, ast, row)
    decreases ast
  {
    match ast
    case Ref(_) =>
    case Lit(_) =>
    case Op1(_, a) => AstValStable(x, tasks, n, a, row);
    case Op2(_, a, b) => AstValStable(x, tasks, n, a, row); AstValStable(x, tasks, n, b, row);
  }

  lemma {:induction false} BelowMore<V>(ast: Ast<V>, m: nat, k: nat)
    requires Below(ast, m) && m <= k
    ensures Below(ast, k)
    decreases ast
  {
    match ast
    case Ref(_) =>
    case Lit(_) =>
    case Op1(_, a) => BelowMore(a, m, k);
    case Op2(_, a, b) => BelowMore(a, m, k); BelowMore(b, m, k);
  }

  /** Column `c` is where node `n` can be read. */
  ghost predicate ColumnOf<V>(x: Env<V>, tasks: seq<nat>, c: nat, n: nat)
    requires n < |x.e|
  {
    match x.e[n]
    case ColRef(i) => c == i - x.offset && c < |x.table|
    case _ => |x.table| <= c < |x.table| + |tasks| && tasks[c - |x.table|] == n
  }

  ghost predicate AstOk<V>(x: Env<V>, tasks: seq<nat>, ast: Ast<V>, n: nat)
    requires EnvOk(x) && n < |x.e|
  {
    Below(ast, |x.table| + |tasks|) &&
    forall row :: 0 <= row < x.rows ==> AstVal(x, tasks, ast, row) == RowVal(x, n, row)
  }

  /** The operands of a node that is computed column by column: columns, or literals where cuDF takes scalars. */
  ghost predicate ArgOk<V>(x: Env<V>, tasks: seq<nat>, node: Node<V>, i: nat, arg: Arg)
    requires i < |Children(node)|
  {
    Children(node)[i] < |x.e| &&
    match arg
    case Col(c) => ColumnOf(x, tasks, c, Children(node)[i])
    case Child(m) => m == Children(node)[i] && x.e[m].Literal? && (node.Binary? || (node.IfThenElse? && i > 0))
  }

  ghost predicate ArgsOk<V>(x: Env<V>, tasks: seq<nat>, node: Node<V>, args: seq<Arg>)
  {
    |args| == |Children(node)| && forall i :: 0 <= i < |args| ==> ArgOk(x, tasks, node, i, args[i])
  }

  ghost predicate Closed<V>(ctx: Contexts<V>, open: set<nat>, n: nat)
  {
    n in ctx && n !in open
  }

  ghost predicate ChildrenClosed<V>(x: Env<V>, ctx: Contexts<V>, open: set<nat>, n: nat)
    requires n < |x.e|
  {
    forall i :: 0 <= i < |Children(x.e[n])| ==> Closed(ctx, open, Children(x.e[n])[i])
  }

  /** The content of a finished context. In particular it has a column or an AST. */
  ghost predicate ContentOk<V>(x: Env<V>, tasks: seq<nat>, n: nat, c: Context<V>)
    requires EnvOk(x) && n < |x.e|
  {
    c.scalar == (if x.e[n].Literal? then Some(x.e[n].v) else None) &&
    (c.ast.Some? <==> UsesAst(x, n)) &&
    (c.ast.Some? ==> AstOk(x, tasks, c.ast.value, n)) &&
    (c.ast.None? ==> c.column.Some? && ArgsOk(x, tasks, x.e[n], c.args)) &&
    (x.e[n].ColRef? ==> c.column.Some?) &&
    (c.column.Some? ==> ColumnOf(x, tasks, c.column.value, n))
  }

  ghost predicate ContextOk<V>(x: Env<V>, ctx: Contexts<V>, tasks: seq<nat>, open: set<nat>, n: nat)
    requires EnvOk(x)
  {
    n < |x.e| && (Closed(ctx, open, n) ==>
      VisitOk(x, n) && ChildrenClosed(x, ctx, open, n) && ContentOk(x, tasks, n, ctx[n]))
  }

  /** The columns the task reads when it runs. */
  ghost predicate ReadsBelow<V>(c: Context<V>, m: nat)
  {
    if c.ast.Some? then Below(c.ast.value, m) else forall i :: 0 <= i < |c.args| && c.args[i].Col? ==> c.args[i].c < m
  }

  /** Task `k` writes column `num_columns + k` and reads earlier columns only. */
  ghost predicate TaskOk<V>(x: Env<V>, ctx: Contexts<V>, tasks: seq<nat>, open: set<nat>, k: nat)
    requires k < |tasks|
  {
    Closed(ctx, open, tasks[k]) && tasks[k] < |x.e| && !x.e[tasks[k]].ColRef? &&
    ctx[tasks[k]].column == Some(|x.table| + k) && ReadsBelow(ctx[tasks[k]], |x.table| + k)
  }

  /** `open` are the nodes whose visit is still under way. */
  ghost predicate Good<V>(x: Env<V>, ctx: Contexts<V>, tasks: seq<nat>, open: set<nat>)
  {
    EnvOk(x) &&
    (forall n :: n in ctx ==> ContextOk(x, ctx, tasks, open, n)) &&
    (forall k :: 0 <= k < |tasks| ==> TaskOk(x, ctx, tasks, open, k))
  }

  lemma ContentStable<V>(x: Env<V>, tasks: seq<nat>, n: nat, c: Context<V>, t: nat)
    requires EnvOk(x) && n < |x.e| && ContentOk(x, tasks, n, c)
    ensures ContentOk(x, tasks + [t], n, c)
  {
    if c.ast.Some? {
      BelowMore(c.ast.value, |x.table| + |tasks|, |x.table| + |tasks| + 1);
      forall row | 0 <= row < x.rows ensures AstVal(x, tasks + [t], c.ast.value, row) == RowVal(x, n, row) {
        AstValStable(x, tasks, t, c.ast.value, row);
      }
    } else {
      forall i | 0 <= i < |c.args| ensures ArgOk(x, tasks + [t], x.e[n], i, c.args[i]) {
        assert ArgOk(x, tasks, x.e[n], i, c.args[i]);
      }
    }
  }

  lemma EmplaceKeeps<V>(x: Env<V>, ctx: Contexts<V>, tasks: seq<nat>, open: set<nat>, n: nat, c: Context<V>)
    requires Good(x, ctx, tasks, open) && n !in ctx && n < |x.e|
    ensures Good(x, ctx[n := c], tasks, open + {n})
  {
    var ctx', open' := ctx[n := c], open + {n};
    forall m | m in ctx' ensures ContextOk(x, ctx', tasks, open', m) {
      if m != n {
        assert ContextOk(x, ctx, tasks, open, m);
        if Closed(ctx, open, m) {
          assert ChildrenClosed(x, ctx, open, m);
        }
      }
    }
    forall k | 0 <= k < |tasks| ensures TaskOk(x, ctx', tasks, open', k) {
      assert TaskOk(x, ctx, tasks, open, k);
    }
  }

  /** Changing an open context. */
  lemma RewriteKeeps<V>(x: Env<V>, ctx: Contexts<V>, tasks: seq<nat>, open: set<nat>, n: nat, c: Context<V>)
    requires Good(x, ctx, tasks, open) && n in ctx && n in open
    ensures Good(x, ctx[n := c], tasks, open)
  {
    var ctx' := ctx[n := c];
    forall m | m in ctx ensures ContextOk(x, ctx', tasks, open, m) {
      assert ContextOk(x, ctx, tasks, open, m);
      if Closed(ctx, open, m) {
        assert ChildrenClosed(x, ctx, open, m);
      }
    }
    forall k | 0 <= k < |tasks| ensures TaskOk(x, ctx', tasks, open, k) {
      assert TaskOk(x, ctx, tasks, open, k);
    }
  }

  /** Finishing a visit. */
  lemma CloseKeeps<V>(x: Env<V>, ctx: Contexts<V>, tasks: seq<nat>, open: set<nat>, n: nat)
    requires Good(x, ctx, tasks, open) && n in ctx && n in open
    requires VisitOk(x, n) && ChildrenClosed(x, ctx, open, n) && ContentOk(x, tasks, n, ctx[n])
    ensures Good(x, ctx, tasks, open - {n})
  {
    var open' := open - {n};
    forall m | m in ctx ensures ContextOk(x, ctx, tasks, open', m) {
      assert ContextOk(x, ctx, tasks, open, m);
      if Closed(ctx, open, m) || m == n {
        assert ChildrenClosed(x, ctx, open, m);
      }
    }
    forall k | 0 <= k < |tasks| ensures TaskOk(x, ctx, tasks, open', k) {
      assert TaskOk(x, ctx, tasks, open, k);
    }
  }

  /** Giving a finished context a column of its own. */
  lemma DispatchKeeps<V>(x: Env<V>, ctx: Contexts<V>, tasks: seq<nat>, open: set<nat>, n: nat)
    requires Good(x, ctx, tasks, open) && Closed(ctx, open, n) && ctx[n].column.None?
    ensures Good(x, ctx[n := ctx[n].(column := Some(|x.table| + |tasks|))], tasks + [n], open)
  {
    var c := ctx[n].(column := Some(|x.table| + |tasks|));
    assert ContextOk(x, ctx, tasks, open, n) && open - {n} == open;
    AppendKeeps(x, ctx, tasks, open, n, c);
  }

  /** Giving the context that is being finished a column of its own, when it has no AST. */
  lemma CloseDispatchKeeps<V>(x: Env<V>, ctx: Contexts<V>, tasks: seq<nat>, open: set<nat>, n: nat)
    requires Good(x, ctx, tasks, open) && n in ctx && n in open && ctx[n] == Context(ctx[n].args, None, None, None)
    requires VisitOk(x, n) && ChildrenClosed(x, ctx, open, n) && !UsesAst(x, n) && ArgsOk(x, tasks, x.e[n], ctx[n].args)
    ensures Good(x, ctx[n := ctx[n].(column := Some(|x.table| + |tasks|))], tasks + [n], open - {n})
  {
    var c := ctx[n].(column := Some(|x.table| + |tasks|));
    forall i | 0 <= i < |c.args| && c.args[i].Col? ensures c.args[i].c < |x.table| + |tasks| {
      assert ArgOk(x, tasks, x.e[n], i, c.args[i]);
    }
    forall i | 0 <= i < |c.args| ensures ArgOk(x, tasks + [n], x.e[n], i, c.args[i]) {
      assert ArgOk(x, tasks, x.e[n], i, c.args[i]);
    }
    assert ContentOk(x, tasks + [n], n, c);
    AppendKeeps(x, ctx, tasks, open, n, c);
  }

  lemma AppendKeeps<V>(x: Env<V>, ctx: Contexts<V>, tasks: seq<nat>, open: set<nat>, n: nat, c: Context<V>)
    requires Good(x, ctx, tasks, open) && n in ctx && n < |x.e| && ctx[n].column.None?
    requires c.column == Some(|x.table| + |tasks|) && ReadsBelow(c, |x.table| + |tasks|)
    requires VisitOk(x, n) && ChildrenClosed(x, ctx, open, n) && !x.e[n].ColRef?
    requires ContentOk(x, tasks, n, c.(column := None)) || ContentOk(x, tasks + [n], n, c)
    ensures Good(x, ctx[n := c], tasks + [n], open - {n})
  {
    var ctx', tasks', open' := ctx[n := c], tasks + [n], open - {n};
    if ContentOk(x, tasks, n, c.(column := None)) {
      ContentStable(x, tasks, n, c.(column := None), n);
    }
    forall m | m in ctx' ensures ContextOk(x, ctx', tasks', open', m) {
      assert ContextOk(x, ctx, tasks, open, m);
      if m != n && Closed(ctx, open, m) {
        assert ChildrenClosed(x, ctx, open, m);
        ContentStable(x, tasks, m, ctx[m], n);
      }
    }
    forall k | 0 <= k < |tasks'| ensures TaskOk(x, ctx', tasks', open', k) {
      if k < |tasks| {
        assert TaskOk(x, ctx, tasks, open, k);
      }
    }
  }

  /** What a parent that is turned into an AST uses for operand `a`: its column if it has one, else its own AST. */
  function Operand<V>(ctx: Contexts<V>, a: nat): Ast<V>
    requires a in ctx && (ctx[a].column.Some? || ctx[a].ast.Some?)
  {
    if ctx[a].column.Some? then Ref(ctx[a].column.value) else ctx[a].ast.value
  }

  lemma OperandOk<V>(x: Env<V>, ctx: Contexts<V>, tasks: seq<nat>, open: set<nat>, a: nat)
    requires Good(x, ctx, tasks, open) && Closed(ctx, open, a)
    ensures a < |x.e| && (ctx[a].column.Some? || ctx[a].ast.Some?) && AstOk(x, tasks, Operand(ctx, a), a)
  {
  }

  /** The AST operator of a node with one operand. */
  function OneOp<V>(node: Node<V>): Option<AstOp>
  {
    match node
    case Unary(op, _) => UnaryAst(op)
    case IsNull(_) => Some(AstIsNull)
    case Cast(to, _) => CastAst(to)
    case _ => None
  }

  lemma RowOp1<V>(x: Env<V>, n: nat, a: nat, row: nat)
    requires EnvOk(x) && n < |x.e| && a < |x.e| && Children(x.e[n]) == [a] && OneOp(x.e[n]).Some?
    ensures RowVal(x, n, row) == Apply1(x.sem, OneOp(x.e[n]).value, RowVal(x, a, row))
  {
  }

  lemma Op1Ok<V>(x: Env<V>, ctx: Contexts<V>, tasks: seq<nat>, open: set<nat>, n: nat, a: nat)
    requires Good(x, ctx, tasks, open) && Closed(ctx, open, a) && n < |x.e| && Children(x.e[n]) == [a]
    requires OneOp(x.e[n]).Some?
    ensures ctx[a].column.Some? || ctx[a].ast.Some?
    ensures AstOk(x, tasks, Op1(OneOp(x.e[n]).value, Operand(ctx, a)), n)
  {
    OperandOk(x, ctx, tasks, open, a);
    var ast := Op1(OneOp(x.e[n]).value, Operand(ctx, a));
    forall row | 0 <= row < x.rows ensures AstVal(x, tasks, ast, row) == RowVal(x, n, row) {
      RowOp1(x, n, a, row);
    }
  }

  lemma RowOp2<V>(x: Env<V>, n: nat, row: nat)
    requires EnvOk(x) && n < |x.e| && x.e[n].Binary? && x.e[n].a < |x.e| && x.e[n].b < |x.e|
    requires BinaryAst(x.e[n].bop).Some?
    ensures RowVal(x, n, row)
         == Apply2(x.sem, BinaryAst(x.e[n].bop).value, RowVal(x, x.e[n].a, row), RowVal(x, x.e[n].b, row))
  {
  }

  lemma Op2Ok<V>(x: Env<V>, ctx: Contexts<V>, tasks: seq<nat>, open: set<nat>, n: nat)
    requires Good(x, ctx, tasks, open) && n < |x.e| && x.e[n].Binary? && BinaryAst(x.e[n].bop).Some?
    requires Closed(ctx, open, x.e[n].a) && Closed(ctx, open, x.e[n].b)
    ensures ctx[x.e[n].a].column.Some? || ctx[x.e[n].a].ast.Some?
    ensures ctx[x.e[n].b].column.Some? || ctx[x.e[n].b].ast.Some?
    ensures AstOk(x, tasks, Op2(BinaryAst(x.e[n].bop).value, Operand(ctx, x.e[n].a), Operand(ctx, x.e[n].b)), n)
  {
    OperandOk(x, ctx, tasks, open, x.e[n].a);
    OperandOk(x, ctx, tasks, open, x.e[n].b);
    var ast := Op2(BinaryAst(x.e[n].bop).value, Operand(ctx, x.e[n].a), Operand(ctx, x.e[n].b));
    forall row | 0 <= row < x.rows ensures AstVal(x, tasks, ast, row) == RowVal(x, n, row) {
      RowOp2(x, n, row);
    }
  }

  /** How the state may change while something below `n` is visited: contexts and tasks are only added, open contexts
    are left alone, and whatever is added lies below `n`. */
  ghost predicate Grows<V>(x: Env<V>, n: nat, ctx: Contexts<V>, tasks: seq<nat>, open: set<nat>, ctx': Contexts<V>,
                           tasks': seq<nat>)
    requires EnvOk(x) && n < |x.e|
  {
    tasks <= tasks' &&
    (forall m :: m in ctx ==> m in ctx') &&
    (forall m :: m in open && m in ctx ==> ctx'[m] == ctx[m]) &&
    (Supported(x, n) ==> forall m :: m in ctx' && m !in ctx ==> m < |x.e| && Supported(x, m))
  }

  lemma GrowsChild<V>(x: Env<V>, n: nat, i: nat, ctx: Contexts<V>, tasks: seq<nat>, open: set<nat>,
                      ctx1: Contexts<V>, tasks1: seq<nat>, ctx2: Contexts<V>, tasks2: seq<nat>)
    requires EnvOk(x) && n < |x.e| && i < |Children(x.e[n])|
    requires Grows(x, n, ctx, tasks, open, ctx1, tasks1)
    requires Grows(x, Children(x.e[n])[i], ctx1, tasks1, open, ctx2, tasks2)
    ensures Grows(x, n, ctx, tasks, open, ctx2, tasks2)
  {
  }

  lemma GrowsAgain<V>(x: Env<V>, n: nat, ctx: Contexts<V>, tasks: seq<nat>, open: set<nat>,
                      ctx1: Contexts<V>, tasks1: seq<nat>, ctx2: Contexts<V>, tasks2: seq<nat>)
    requires EnvOk(x) && n < |x.e|
    requires Grows(x, n, ctx, tasks, open, ctx1, tasks1) && Grows(x, n, ctx1, tasks1, open, ctx2, tasks2)
    ensures Grows(x, n, ctx, tasks, open, ctx2, tasks2)
  {
  }

  /** The first `|args|` operands of `n` have been visited and made readable. */
  ghost predicate Prepared<V>(x: Env<V>, ctx: Contexts<V>, tasks: seq<nat>, open: set<nat>, n: nat, args: seq<Arg>)
    requires EnvOk(x) && n < |x.e|
  {
    |args| <= |Children(x.e[n])| &&
    forall i :: 0 <= i < |args| ==>
      Closed(ctx, open, Children(x.e[n])[i]) && ArgOk(x, tasks, x.e[n], i, args[i]) &&
      Compilable(x, Children(x.e[n])[i])
  }

  lemma PreparedMore<V>(x: Env<V>, ctx: Contexts<V>, tasks: seq<nat>, open: set<nat>, ctx': Contexts<V>,
                        tasks': seq<nat>, n: nat, args: seq<Arg>, arg: Arg)
    requires EnvOk(x) && n < |x.e| && Grows(x, n, ctx, tasks, open, ctx', tasks')
    requires Prepared(x, ctx, tasks, open, n, args)
    requires |args| < |Children(x.e[n])| && Compilable(x, Children(x.e[n])[|args|])
    requires Closed(ctx', open, Children(x.e[n])[|args|]) && ArgOk(x, tasks', x.e[n], |args|, arg)
    ensures Prepared(x, ctx', tasks', open, n, args + [arg])
  {
  }

  lemma {:induction false} ClosedCompilable<V>(x: Env<V>, ctx: Contexts<V>, tasks: seq<nat>, open: set<nat>, n: nat)
    requires Good(x, ctx, tasks, open) && Closed(ctx, open, n)
    ensures n < |x.e| && Compilable(x, n)
    decreases n
  {
    assert ContextOk(x, ctx, tasks, open, n);
    forall i | 0 <= i < |Children(x.e[n])| ensures Compilable(x, Children(x.e[n])[i]) {
      ClosedCompilable(x, ctx, tasks, open, Children(x.e[n])[i]);
    }
  }

  /** If every task can run, nothing below a visited node is unsupported. */
  lemma {:induction false} TasksSupport<V>(x: Env<V>, ctx: Contexts<V>, tasks: seq<nat>, open: set<nat>, n: nat)
    requires Good(x, ctx, tasks, open) && Closed(ctx, open, n)
    requires forall k :: 0 <= k < |tasks| && tasks[k] < |x.e| ==> RunOk(x.e[tasks[k]])
    ensures n < |x.e| && Supported(x, n)
    decreases n
  {
    assert ContextOk(x, ctx, tasks, open, n);
    forall i | 0 <= i < |Children(x.e[n])| ensures Supported(x, Children(x.e[n])[i]) {
      TasksSupport(x, ctx, tasks, open, Children(x.e[n])[i]);
    }
  }

  /** Once the first `k` tasks have run, an AST reading only their columns computes what it denotes. */
  lemma {:induction false} RunAstIsAstVal<V>(x: Env<V>, tasks: seq<nat>, cols: seq<seq<V>>, ast: Ast<V>, row: nat)
    requires EnvOk(x) && Below(ast, |cols|) && row < x.rows && ColumnsOk(x, tasks, cols)
    ensures RunAst(x.sem, cols, ast, row) == AstVal(x, tasks, ast, row)
    decreases ast
  {
    match ast
    case Ref(c) => assert ColumnOk(x, tasks, cols[c], c);
    case Lit(_) =>
    case Op1(_, a) => RunAstIsAstVal(x, tasks, cols, a, row);
    case Op2(_, a, b) => RunAstIsAstVal(x, tasks, cols, a, row); RunAstIsAstVal(x, tasks, cols, b, row);
  }

  ghost predicate ColumnOk<V>(x: Env<V>, tasks: seq<nat>, col: seq<V>, c: nat)
    requires EnvOk(x)
  {
    |col| == x.rows && forall row :: 0 <= row < x.rows ==> col[row] == ColVal(x, tasks, c, row)
  }

  ghost predicate ColumnsOk<V>(x: Env<V>, tasks: seq<nat>, cols: seq<seq<V>>)
    requires EnvOk(x)
  {
    (forall c :: 0 <= c < |cols| ==> |cols[c]| == x.rows) &&
    forall c :: 0 <= c < |cols| ==> ColumnOk(x, tasks, cols[c], c)
  }

  /** The value operand `i` of task `n` has for one row. */
  lemma OperandRead<V>(x: Env<V>, tasks: seq<nat>, cols: seq<seq<V>>, n: nat, args: seq<Arg>, i: nat, row: nat)
    requires EnvOk(x) && n < |x.e| && ArgsOk(x, tasks, x.e[n], args) && i < |args| && row < x.rows
    requires ColumnsOk(x, tasks, cols) && (args[i].Col? ==> args[i].c < |cols|)
    ensures Children(x.e[n])[i] < |x.e|
    ensures args[i].Col? ==> row < |cols[args[i].c]| && cols[args[i].c][row] == RowVal(x, Children(x.e[n])[i], row)
    ensures args[i].Child? ==>
              args[i].n < |x.e| && x.e[args[i].n] == Literal(RowVal(x, Children(x.e[n])[i], row))
  {
  }
}
