/** `expression_evaluator`: compiles an expression graph into a list of column tasks and runs them. */
module Evaluator {
  import opened Wrappers
  import opened Expressions
  import opened Compilation

  /** The column is what node `n` evaluates to. */
  ghost predicate Evaluated<V>(x: Env<V>, n: nat, column: seq<V>)
    requires EnvOk(x)
  {
    n < |x.e| && |column| == x.rows && forall row :: 0 <= row < x.rows ==> column[row] == RowVal(x, n, row)
  }

  class Evaluator<!V> {
    const x: Env<V>
    const root: nat
    var contexts: Contexts<V>
    var tasks: seq<nat>
    var nextTask: nat
    /** The nodes whose visit has begun and not ended. */
    ghost var open: set<nat>

    ghost predicate Valid()
      reads this
    {
      Good(x, contexts, tasks, open) && nextTask == |x.table| + |tasks| && root < |x.e|
    }

    constructor (x: Env<V>, root: nat)
      requires EnvOk(x) && root < |x.e|
      ensures this.x == x && this.root == root
      ensures Valid() && contexts == map[] && tasks == [] && open == {}
    {
      this.x := x;
      this.root := root;
      contexts := map[];
      tasks := [];
      nextTask := |x.table|;
      open := {};
    }

    /** `dispatch_task`: the node's column, allocated the first time it is asked for. */
    method DispatchTask(n: nat) returns (c: nat)
      requires Valid() && Closed(contexts, open, n)
      modifies `contexts, `tasks, `nextTask
      ensures Valid() && n < |x.e| && ColumnOf(x, tasks, c, n)
      ensures contexts == old(contexts)[n := old(contexts[n]).(column := Some(c))]
      ensures tasks == if old(contexts[n].column.Some?) then old(tasks) else old(tasks) + [n]
    {
      assert ContextOk(x, contexts, tasks, open, n);
      if contexts[n].column.Some? {
        c := contexts[n].column.value;
      } else {
        DispatchKeeps(x, contexts, tasks, open, n);
        c := nextTask;
        nextTask := nextTask + 1;
        contexts := contexts[n := contexts[n].(column := Some(c))];
        tasks := tasks + [n];
      }
    }

    /** Ends the visit of a node that has an AST. */
    method FinishAst(n: nat, args: seq<Arg>, ast: Ast<V>, scalar: Option<V>, column: Option<nat>)
      requires Valid() && n in contexts && n in open && n < |x.e|
      requires VisitOk(x, n) && ChildrenClosed(x, contexts, open, n)
      requires ContentOk(x, tasks, n, Context(args, Some(ast), scalar, column))
      modifies `contexts, `open
      ensures Valid() && contexts == old(contexts)[n := Context(args, Some(ast), scalar, column)]
      ensures open == old(open) - {n}
    {
      RewriteKeeps(x, contexts, tasks, open, n, Context(args, Some(ast), scalar, column));
      contexts := contexts[n := Context(args, Some(ast), scalar, column)];
      CloseKeeps(x, contexts, tasks, open, n);
      open := open - {n};
    }

    /** Ends the visit of a node that is computed column by column: it becomes a task at once. */
    method FinishFallback(n: nat, args: seq<Arg>)
      requires Valid() && n in contexts && n in open && n < |x.e|
      requires contexts[n] == Context(contexts[n].args, None, None, None)
      requires VisitOk(x, n) && ChildrenClosed(x, contexts, open, n) && !UsesAst(x, n) && ArgsOk(x, tasks, x.e[n], args)
      modifies this
      ensures Valid() && contexts == old(contexts)[n := Context(args, None, None, Some(old(nextTask)))]
      ensures open == old(open) - {n} && tasks == old(tasks) + [n]
    {
      RewriteKeeps(x, contexts, tasks, open, n, Context(args, None, None, None));
      contexts := contexts[n := Context(args, None, None, None)];
      CloseDispatchKeeps(x, contexts, tasks, open, n);
      contexts := contexts[n := contexts[n].(column := Some(nextTask))];
      tasks := tasks + [n];
      nextTask := nextTask + 1;
      open := open - {n};
    }

    /** The `visit` methods. False when one of them throws. */
    method Visit(n: nat) returns (ok: bool)
      requires Valid() && n < |x.e| && RefsOk(x, n) && forall o :: o in open ==> n < o
      modifies this
      ensures ok <==> Compilable(x, n)
      ensures ok ==> Valid() && open == old(open) && Closed(contexts, open, n)
      ensures ok ==> Grows(x, n, old(contexts), old(tasks), open, contexts, tasks)
      ensures ok && n !in old(contexts) ==> LastIfColumn(n)
      decreases n, 5
    {
      if n in contexts {
        ClosedCompilable(x, contexts, tasks, open, n);
        return true;
      }
      EmplaceKeeps(x, contexts, tasks, open, n, Context([], None, None, None));
      contexts := contexts[n := Context([], None, None, None)];
      open := open + {n};
      ok := VisitNew(n);
      assert old(open) + {n} - {n} == old(open);
    }

    ghost predicate LastIfColumn(n: nat)
      requires n < |x.e|
      reads this
    {
      n in contexts && contexts[n].column.Some? && !x.e[n].ColRef? ==> tasks != [] && tasks[|tasks| - 1] == n
    }

    ghost predicate Fresh(n: nat)
      reads this
    {
      Valid() && n < |x.e| && n in open && n in contexts && contexts[n] == Context([], None, None, None) &&
      RefsOk(x, n) && forall o :: o in open ==> n <= o
    }

    method VisitNew(n: nat) returns (ok: bool)
      requires Fresh(n)
      modifies this
      ensures ok <==> Compilable(x, n)
      ensures ok ==> Valid() && open == old(open) - {n} && Closed(contexts, open, n)
      ensures ok ==> Grows(x, n, old(contexts), old(tasks), open, contexts, tasks) && LastIfColumn(n)
      decreases n, 4
    {
      match x.e[n]
      case ColRef(i) =>
        FinishAst(n, [], Ref(i - x.offset), None, Some(i - x.offset));
        ok := true;
      case Literal(v) =>
        FinishAst(n, [], Lit(v), Some(v), None);
        ok := true;
      case Unary(_, a) =>
        ok := VisitOne(n, a);
      case IsNull(a) =>
        ok := VisitOne(n, a);
      case Binary(_, _, _) =>
        ok := VisitBinary(n);
      case IfThenElse(_, _, _) =>
        ok := VisitIfThenElse(n);
      case Cast(_, a) =>
        ok := VisitOne(n, a);
      case ScalarFn(_, a) =>
        ok := VisitOne(n, a);
      case Subquery =>
        ok := false;
    }

    /** Visits an operand of `n` while the visit of `n` is under way. */
    method VisitChild(n: nat, i: nat) returns (ok: bool)
      requires Fresh(n) && i < |Children(x.e[n])|
      modifies this
      ensures ok <==> Compilable(x, Children(x.e[n])[i])
      ensures ok ==> Fresh(n) && open == old(open) && Closed(contexts, open, Children(x.e[n])[i])
      ensures ok ==> Grows(x, n, old(contexts), old(tasks), open, contexts, tasks)
      decreases n, 0
    {
      ok := Visit(Children(x.e[n])[i]);
      if !ok { return; }
      GrowsChild(x, n, i, old(contexts), old(tasks), open, old(contexts), old(tasks), contexts, tasks);
    }

    /** Nodes with one operand. */
    method VisitOne(n: nat, a: nat) returns (ok: bool)
      requires Fresh(n) && Children(x.e[n]) == [a]
      modifies this
      ensures ok <==> Compilable(x, n)
      ensures ok ==> Valid() && open == old(open) - {n} && Closed(contexts, open, n)
      ensures ok ==> Grows(x, n, old(contexts), old(tasks), open, contexts, tasks) && LastIfColumn(n)
      decreases n, 1
    {
      ok := VisitChild(n, 0);
      if !ok { return; }
      ghost var ctx1, tasks1 := contexts, tasks;
      ok := FinishOne(n, a);
      if !ok { return; }
      GrowsAgain(x, n, old(contexts), old(tasks), open, ctx1, tasks1, contexts, tasks);
    }

    method FinishOne(n: nat, a: nat) returns (ok: bool)
      requires Fresh(n) && Children(x.e[n]) == [a] && Closed(contexts, open, a)
      modifies this
      ensures ok <==> VisitOk(x, n)
      ensures ok ==> Valid() && open == old(open) - {n} && Closed(contexts, open, n)
      ensures ok ==> Grows(x, n, old(contexts), old(tasks), open, contexts, tasks) && LastIfColumn(n)
    {
      if UsesAst(x, n) {
        if OneOp(x.e[n]).None? { return false; }
        Op1Ok(x, contexts, tasks, open, n, a);
        FinishAst(n, [AstArg(a)], Op1(OneOp(x.e[n]).value, Operand(contexts, a)), None, None);
      } else {
        var c := DispatchTask(a);
        FinishFallback(n, [Col(c)]);
      }
      ok := true;
    }

    /** The rewritten operand of a node with an AST. */
    function AstArg(a: nat): Arg
      requires a in contexts
      reads this
    {
      if contexts[a].column.Some? then Col(contexts[a].column.value) else Child(a)
    }

    method VisitBinary(n: nat) returns (ok: bool)
      requires Fresh(n) && x.e[n].Binary?
      modifies this
      ensures ok <==> Compilable(x, n)
      ensures ok ==> Valid() && open == old(open) - {n} && Closed(contexts, open, n)
      ensures ok ==> Grows(x, n, old(contexts), old(tasks), open, contexts, tasks) && LastIfColumn(n)
      decreases n, 2
    {
      assert Children(x.e[n]) == [x.e[n].a, x.e[n].b];
      ok := VisitOperands(n);
      if !ok { return; }
      ghost var ctx1, tasks1 := contexts, tasks;
      if x.typing.fixed(n) && x.typing.sameTypes(n) {
        if BinaryAst(x.e[n].bop).None? { return false; }
        FinishBinaryAst(n, x.e[n].a, x.e[n].b);
      } else {
        ok := FinishBinaryFallback(n, x.e[n].a, x.e[n].b);
        if !ok { return; }
      }
      GrowsAgain(x, n, old(contexts), old(tasks), open, ctx1, tasks1, contexts, tasks);
    }

    /** Both operands of a binary operation, the left one first. */
    method VisitOperands(n: nat) returns (ok: bool)
      requires Fresh(n) && x.e[n].Binary?
      modifies this
      ensures ok <==> Compilable(x, Children(x.e[n])[0]) && Compilable(x, Children(x.e[n])[1])
      ensures ok ==> Fresh(n) && open == old(open)
      ensures ok ==> Closed(contexts, open, Children(x.e[n])[0]) && Closed(contexts, open, Children(x.e[n])[1])
      ensures ok ==> Grows(x, n, old(contexts), old(tasks), open, contexts, tasks)
      decreases n, 1
    {
      ok := VisitChild(n, 0);
      if !ok { return; }
      ghost var ctx1, tasks1 := contexts, tasks;
      ok := VisitChild(n, 1);
      if !ok { return; }
      GrowsAgain(x, n, old(contexts), old(tasks), open, ctx1, tasks1, contexts, tasks);
    }

    method FinishBinaryAst(n: nat, a: nat, b: nat)
      requires Fresh(n) && x.e[n].Binary? && a == x.e[n].a && b == x.e[n].b
      requires Closed(contexts, open, a) && Closed(contexts, open, b) && UsesAst(x, n) && VisitOk(x, n)
      modifies this
      ensures Valid() && open == old(open) - {n} && Closed(contexts, open, n)
      ensures Grows(x, n, old(contexts), old(tasks), open, contexts, tasks) && LastIfColumn(n)
    {
      Op2Ok(x, contexts, tasks, open, n);
      FinishAst(n, [AstArg(a), AstArg(b)],
                Op2(BinaryAst(x.e[n].bop).value, Operand(contexts, a), Operand(contexts, b)), None, None);
    }

    method FinishBinaryFallback(n: nat, a: nat, b: nat) returns (ok: bool)
      requires Fresh(n) && x.e[n].Binary? && a == x.e[n].a && b == x.e[n].b
      requires Closed(contexts, open, a) && Closed(contexts, open, b) && !UsesAst(x, n)
      modifies this
      ensures ok <==> VisitOk(x, n)
      ensures ok ==> Valid() && open == old(open) - {n} && Closed(contexts, open, n)
      ensures ok ==> Grows(x, n, old(contexts), old(tasks), open, contexts, tasks) && LastIfColumn(n)
    {
      assert ContextOk(x, contexts, tasks, open, a) && ContextOk(x, contexts, tasks, open, b);
      if contexts[a].scalar.Some? && contexts[b].scalar.Some? { return false; }
      var args := PrepareOperands(n);
      ghost var ctx1, tasks1 := contexts, tasks;
      FinishWith(n, args);
      GrowsAgain(x, n, old(contexts), old(tasks), open, ctx1, tasks1, contexts, tasks);
      ok := true;
    }

    method PrepareOperands(n: nat) returns (args: seq<Arg>)
      requires Fresh(n) && x.e[n].Binary? && ChildrenClosed(x, contexts, open, n)
      modifies `contexts, `tasks, `nextTask
      ensures Fresh(n) && ChildrenClosed(x, contexts, open, n) && ArgsOk(x, tasks, x.e[n], args)
      ensures Grows(x, n, old(contexts), old(tasks), open, contexts, tasks)
    {
      var left := ColumnOrScalar(n, 0);
      ghost var ctx1, tasks1 := contexts, tasks;
      var right := ColumnOrScalar(n, 1);
      GrowsAgain(x, n, old(contexts), old(tasks), open, ctx1, tasks1, contexts, tasks);
      assert ArgOk(x, tasks1, x.e[n], 0, left);
      args := [left, right];
    }

    /** Ends the visit of a node whose operands have been prepared. */
    method FinishWith(n: nat, args: seq<Arg>)
      requires Fresh(n) && VisitOk(x, n) && ChildrenClosed(x, contexts, open, n) && !UsesAst(x, n)
      requires ArgsOk(x, tasks, x.e[n], args)
      modifies this
      ensures Valid() && open == old(open) - {n} && Closed(contexts, open, n)
      ensures Grows(x, n, old(contexts), old(tasks), open, contexts, tasks) && LastIfColumn(n)
    {
      FinishFallback(n, args);
    }

    /** A literal operand is left to be passed as a scalar; any other is read from a column. */
    method ColumnOrScalar(n: nat, i: nat) returns (arg: Arg)
      requires Fresh(n) && i < |Children(x.e[n])| && Closed(contexts, open, Children(x.e[n])[i])
      requires x.e[n].Binary? || (x.e[n].IfThenElse? && i > 0)
      modifies `contexts, `tasks, `nextTask
      ensures Fresh(n) && contexts.Keys == old(contexts.Keys) && ArgOk(x, tasks, x.e[n], i, arg)
      ensures Grows(x, n, old(contexts), old(tasks), open, contexts, tasks)
    {
      var a := Children(x.e[n])[i];
      assert ContextOk(x, contexts, tasks, open, a);
      if contexts[a].scalar.Some? {
        arg := Child(a);
      } else {
        var c := DispatchTask(a);
        arg := Col(c);
      }
    }

    method VisitIfThenElse(n: nat) returns (ok: bool)
      requires Fresh(n) && x.e[n].IfThenElse?
      modifies this
      ensures ok <==> Compilable(x, n)
      ensures ok ==> Valid() && open == old(open) - {n} && Closed(contexts, open, n)
      ensures ok ==> Grows(x, n, old(contexts), old(tasks), open, contexts, tasks) && LastIfColumn(n)
      decreases n, 3
    {
      if !x.typing.boolCondition(n) { return false; }
      if !x.typing.sameBranches(n) { return false; }
      var args;
      ok, args := VisitBranches(n);
      if !ok { return; }
      ghost var ctx1, tasks1 := contexts, tasks;
      FinishWith(n, args);
      GrowsAgain(x, n, old(contexts), old(tasks), open, ctx1, tasks1, contexts, tasks);
    }

    /** IF, THEN and ELSE in this order, each visited and made readable before the next is looked at. */
    method VisitBranches(n: nat) returns (ok: bool, args: seq<Arg>)
      requires Fresh(n) && x.e[n].IfThenElse?
      modifies this
      ensures !ok ==> !Compilable(x, n)
      ensures ok ==> Fresh(n) && open == old(open) && |args| == 3 && Prepared(x, contexts, tasks, open, n, args)
      ensures ok ==> Grows(x, n, old(contexts), old(tasks), open, contexts, tasks)
      decreases n, 2
    {
      args := [];
      for i := 0 to 3
        invariant Fresh(n) && open == old(open) && |args| == i && Prepared(x, contexts, tasks, open, n, args)
        invariant Grows(x, n, old(contexts), old(tasks), open, contexts, tasks)
      {
        ghost var ctx1, tasks1 := contexts, tasks;
        var arg;
        ok, arg := VisitBranch(n, i);
        if !ok { return; }
        GrowsAgain(x, n, old(contexts), old(tasks), open, ctx1, tasks1, contexts, tasks);
        PreparedMore(x, ctx1, tasks1, open, contexts, tasks, n, args, arg);
        args := args + [arg];
      }
      ok := true;
    }

    /** One of IF, THEN and ELSE; the condition always becomes a column. */
    method VisitBranch(n: nat, i: nat) returns (ok: bool, arg: Arg)
      requires Fresh(n) && x.e[n].IfThenElse? && i < |Children(x.e[n])|
      modifies this
      ensures ok <==> Compilable(x, Children(x.e[n])[i])
      ensures ok ==> Fresh(n) && open == old(open) && Closed(contexts, open, Children(x.e[n])[i])
      ensures ok ==> ArgOk(x, tasks, x.e[n], i, arg) && Grows(x, n, old(contexts), old(tasks), open, contexts, tasks)
      decreases n, 1
    {
      var a := Children(x.e[n])[i];
      arg := Child(a);
      ok := VisitChild(n, i);
      if !ok { return; }
      ghost var ctx1, tasks1 := contexts, tasks;
      if i == 0 {
        var c := DispatchTask(a);
        arg := Col(c);
      } else {
        arg := ColumnOrScalar(n, i);
      }
      GrowsAgain(x, n, old(contexts), old(tasks), open, ctx1, tasks1, contexts, tasks);
    }

    /** The constructor's work: visit the root, then make it the last task. */
    method Compile() returns (ok: bool)
      requires Valid() && contexts == map[] && tasks == [] && open == {}
      requires RefsOk(x, root) && !x.e[root].ColRef?
      modifies this
      ensures ok <==> Compilable(x, root)
      ensures ok ==> Compiled()
    {
      ok := Visit(root);
      if !ok { return; }
      var _ := DispatchTask(root);
      if forall k :: 0 <= k < |tasks| && tasks[k] < |x.e| ==> RunOk(x.e[tasks[k]]) {
        TasksSupport(x, contexts, tasks, open, root);
      }
      forall k | 0 <= k < |tasks| ensures tasks[k] < |x.e| && (Supported(x, root) ==> RunOk(x.e[tasks[k]])) {
        assert TaskOk(x, contexts, tasks, open, k);
      }
    }

    ghost predicate Compiled()
      reads this
    {
      Valid() && open == {} && tasks != [] && tasks[|tasks| - 1] == root &&
      (Supported(x, root) <==> forall k :: 0 <= k < |tasks| ==> tasks[k] < |x.e| && RunOk(x.e[tasks[k]]))
    }

    /** Computes the column of one task from the columns present so far. */
    method RunTask(k: nat, cols: seq<seq<V>>) returns (r: Attempt<seq<V>>)
      requires Valid() && open == {} && k < |tasks| && |cols| == |x.table| + k && ColumnsOk(x, tasks, cols)
      ensures tasks[k] < |x.e|
      ensures r.Thrown? <==>
                x.e[tasks[k]].ScalarFn? &&
                (x.e[tasks[k]].fn.OtherFn? || (x.e[tasks[k]].fn.Like? && x.e[tasks[k]].fn.ignoreCase))
      ensures r.Returned? ==> Evaluated(x, tasks[k], r.value)
    {
      assert TaskOk(x, contexts, tasks, open, k) && ContextOk(x, contexts, tasks, open, tasks[k]);
      var n := tasks[k];
      var context := contexts[n];
      if context.ast.Some? && x.typing.fixed(n) {
        forall row | 0 <= row < x.rows
          ensures RunAst(x.sem, cols, context.ast.value, row) == RowVal(x, n, row)
        {
          RunAstIsAstVal(x, tasks, cols, context.ast.value, row);
        }
        r := Returned(seq(x.rows, row requires 0 <= row < x.rows => RunAst(x.sem, cols, context.ast.value, row)));
      } else if x.e[n].Literal? {
        r := Returned(seq(x.rows, _ => context.scalar.value));
      } else {
        r := RunFallback(k, cols);
      }
    }

    /** An operand of a cuDF call is a column or a scalar. */
    predicate Readable(cols: seq<seq<V>>, arg: Arg)
      reads this
    {
      match arg
      case Col(c) => c < |cols| && |cols[c]| == x.rows
      case Child(m) => m in contexts && contexts[m].scalar.Some?
    }

    function Read(cols: seq<seq<V>>, arg: Arg, row: nat): V
      requires Readable(cols, arg) && row < x.rows
      reads this
    {
      if arg.Col? then cols[arg.c][row] else contexts[arg.n].scalar.value
    }

    /** Every operand of a task without an AST can be read, and holds the operand's value. */
    lemma OperandsRead(k: nat, cols: seq<seq<V>>, i: nat)
      requires Valid() && open == {} && k < |tasks| && |cols| == |x.table| + k && ColumnsOk(x, tasks, cols)
      requires tasks[k] in contexts && contexts[tasks[k]].ast.None?
      requires tasks[k] < |x.e| && i < |Children(x.e[tasks[k]])|
      ensures |contexts[tasks[k]].args| == |Children(x.e[tasks[k]])| && Children(x.e[tasks[k]])[i] < |x.e|
      ensures Readable(cols, contexts[tasks[k]].args[i])
      ensures forall row :: 0 <= row < x.rows ==>
                Read(cols, contexts[tasks[k]].args[i], row) == RowVal(x, Children(x.e[tasks[k]])[i], row)
      ensures ArgOk(x, tasks, x.e[tasks[k]], i, contexts[tasks[k]].args[i])
    {
      var n := tasks[k];
      var args := contexts[n].args;
      assert TaskOk(x, contexts, tasks, open, k) && ContextOk(x, contexts, tasks, open, n);
      assert ArgOk(x, tasks, x.e[n], i, args[i]);
      if args[i].Child? {
        assert Closed(contexts, open, Children(x.e[n])[i]);
        assert ContextOk(x, contexts, tasks, open, Children(x.e[n])[i]);
      }
      forall row | 0 <= row < x.rows ensures Read(cols, args[i], row) == RowVal(x, Children(x.e[n])[i], row) {
        OperandRead(x, tasks, cols, n, args, i, row);
      }
    }

    /** The operations cuDF's AST does not offer, each with its own kernel. */
    method RunFallback(k: nat, cols: seq<seq<V>>) returns (r: Attempt<seq<V>>)
      requires Valid() && open == {} && k < |tasks| && |cols| == |x.table| + k && ColumnsOk(x, tasks, cols)
      requires tasks[k] in contexts && contexts[tasks[k]].ast.None? && tasks[k] < |x.e|
      ensures r.Returned? <==> RunOk(x.e[tasks[k]])
      ensures r.Returned? ==> ColumnOk(x, tasks, r.value, |cols|)
    {
      assert ContextOk(x, contexts, tasks, open, tasks[k]);
      var node := x.e[tasks[k]];
      var args := contexts[tasks[k]].args;
      if node.Binary? {
        r := RunBinary(k, cols, node.bop, args);
      } else if node.IfThenElse? {
        r := RunIfThenElse(k, cols, args);
      } else {
        OperandsRead(k, cols, 0);
        r := RunOne(k, cols, args[0]);
      }
    }

    method RunOne(k: nat, cols: seq<seq<V>>, arg: Arg) returns (r: Attempt<seq<V>>)
      requires Valid() && k < |tasks| && |cols| == |x.table| + k && Readable(cols, arg) && tasks[k] < |x.e|
      requires x.e[tasks[k]].Unary? || x.e[tasks[k]].Cast? || x.e[tasks[k]].ScalarFn?
      requires x.e[tasks[k]].a < |x.e| && arg.Col?
      requires forall row :: 0 <= row < x.rows ==> Read(cols, arg, row) == RowVal(x, x.e[tasks[k]].a, row)
      ensures r.Returned? <==> RunOk(x.e[tasks[k]])
      ensures r.Returned? ==> ColumnOk(x, tasks, r.value, |cols|)
    {
      var col := cols[arg.c];
      assert forall row :: 0 <= row < x.rows ==> col[row] == Read(cols, arg, row);
      match x.e[tasks[k]]
      case Unary(op, _) =>
        r := Returned(seq(x.rows, row requires 0 <= row < |col| => x.sem.un(op, col[row])));
      case Cast(to, _) =>
        r := Returned(seq(x.rows, row requires 0 <= row < |col| => x.sem.cast(to, col[row])));
      case ScalarFn(fn, _) =>
        if (fn.Like? && fn.ignoreCase) || fn.OtherFn? {
          r := Thrown;
        } else {
          r := Returned(seq(x.rows, row requires 0 <= row < |col| => x.sem.fn(fn, col[row])));
        }
    }

    method RunBinary(k: nat, cols: seq<seq<V>>, op: BinaryOp, args: seq<Arg>) returns (r: Attempt<seq<V>>)
      requires Valid() && open == {} && k < |tasks| && |cols| == |x.table| + k && ColumnsOk(x, tasks, cols)
      requires tasks[k] in contexts && contexts[tasks[k]].ast.None? && tasks[k] < |x.e|
      requires x.e[tasks[k]].Binary? && op == x.e[tasks[k]].bop && args == contexts[tasks[k]].args
      ensures r.Returned? && ColumnOk(x, tasks, r.value, |cols|)
    {
      OperandsRead(k, cols, 0);
      OperandsRead(k, cols, 1);
      assert ContextOk(x, contexts, tasks, open, tasks[k]);
      if args[0].Child? && args[1].Child? {
        r := Thrown;
      } else {
        r := Returned(seq(x.rows, row requires 0 <= row < x.rows && Readable(cols, args[0]) && Readable(cols, args[1])
                                      reads this => x.sem.bin(op, Read(cols, args[0], row), Read(cols, args[1], row))));
      }
    }

    method RunIfThenElse(k: nat, cols: seq<seq<V>>, args: seq<Arg>) returns (r: Attempt<seq<V>>)
      requires Valid() && open == {} && k < |tasks| && |cols| == |x.table| + k && ColumnsOk(x, tasks, cols)
      requires tasks[k] in contexts && contexts[tasks[k]].ast.None? && tasks[k] < |x.e|
      requires x.e[tasks[k]].IfThenElse? && args == contexts[tasks[k]].args
      ensures r.Returned? && ColumnOk(x, tasks, r.value, |cols|)
    {
      OperandsRead(k, cols, 0);
      OperandsRead(k, cols, 1);
      OperandsRead(k, cols, 2);
      if !args[0].Col? {
        r := Thrown;
      } else {
        var condition := cols[args[0].c];
        assert forall row :: 0 <= row < x.rows ==> condition[row] == Read(cols, args[0], row);
        r := Returned(seq(x.rows, row requires 0 <= row < |condition| == x.rows &&
                                               Readable(cols, args[1]) && Readable(cols, args[2])
                                      reads this =>
                                        x.sem.ite(condition[row], Read(cols, args[1], row), Read(cols, args[2], row))));
      }
    }

    /** `evaluate`: runs the tasks in order, each appending one column; the last column is the answer. */
    method Evaluate() returns (r: Attempt<seq<V>>)
      requires Compiled()
      ensures r.Returned? <==> Supported(x, root)
      ensures r.Returned? ==> Evaluated(x, root, r.value)
    {
      var table := x.table;
      for k := 0 to |tasks|
        invariant |table| == |x.table| + k && ColumnsOk(x, tasks, table)
        invariant forall j :: 0 <= j < k ==> tasks[j] < |x.e| && RunOk(x.e[tasks[j]])
      {
        var result := RunTask(k, table);
        if result.Thrown? { return Thrown; }
        table := table + [result.value];
      }
      assert ColumnOk(x, tasks, table[|table| - 1], |table| - 1);
      r := Returned(table[|table| - 1]);
    }
  }

  /** What evaluating a conditional gives: row by row what evaluating THEN gives where the condition is true, and what
    evaluating ELSE gives elsewhere. */
  lemma ConditionalMeans<V(!new)>(x: Env<V>, n: nat, isTrue: V -> bool, condition: seq<V>, then_: seq<V>, else_: seq<V>,
                                  out: seq<V>)
    requires EnvOk(x) && n < |x.e| && x.e[n].IfThenElse?
    requires forall c, t, e :: x.sem.ite(c, t, e) == if isTrue(c) then t else e
    requires Evaluated(x, x.e[n].a, condition) && Evaluated(x, x.e[n].b, then_) && Evaluated(x, x.e[n].c, else_)
    requires Evaluated(x, n, out)
    ensures |out| == |condition| == |then_| == |else_|
    ensures forall row :: 0 <= row < |out| ==> out[row] == if isTrue(condition[row]) then then_[row] else else_[row]
  {
    forall row | 0 <= row < x.rows
      ensures out[row] == if isTrue(condition[row]) then then_[row] else else_[row]
    {
      NodeMeans(x, n, row);
    }
  }

  /** What evaluating an operation gives: the operation applied row by row to what evaluating its operands gives. */
  lemma OperationMeans<V>(x: Env<V>, n: nat, first: seq<V>, second: seq<V>, out: seq<V>, row: nat)
    requires EnvOk(x) && n < |x.e| && Evaluated(x, n, out) && row < x.rows
    requires x.e[n].Unary? || x.e[n].IsNull? || x.e[n].Binary? || x.e[n].Cast? || x.e[n].ScalarFn?
    requires Evaluated(x, x.e[n].a, first) && (x.e[n].Binary? ==> Evaluated(x, x.e[n].b, second))
    ensures row < |out| && row < |first| && (x.e[n].Binary? ==> row < |second|)
    ensures x.e[n].Unary? ==> out[row] == x.sem.un(x.e[n].uop, first[row])
    ensures x.e[n].IsNull? ==> out[row] == x.sem.isNull(first[row])
    ensures x.e[n].Binary? ==> out[row] == x.sem.bin(x.e[n].bop, first[row], second[row])
    ensures x.e[n].Cast? ==> out[row] == x.sem.cast(x.e[n].to, first[row])
    ensures x.e[n].ScalarFn? ==> out[row] == x.sem.fn(x.e[n].fn, first[row])
  {
    NodeMeans(x, n, row);
  }

  /** A root that is a bare column reference is looked up; the others are evaluated unless the table has no rows. */
  ghost predicate Evaluates<V>(x: Env<V>, n: nat)
    requires EnvOk(x) && n < |x.e|
  {
    if x.e[n].ColRef? then 0 <= x.e[n].idx - x.offset < |x.table| else x.rows == 0 || Supported(x, n)
  }

  method EvaluateExpressions<V>(x: Env<V>, exprs: seq<nat>) returns (r: Attempt<seq<seq<V>>>)
    requires EnvOk(x)
    requires forall i :: 0 <= i < |exprs| ==> exprs[i] < |x.e| && (!x.e[exprs[i]].ColRef? ==> RefsOk(x, exprs[i]))
    ensures r.Returned? <==> forall i :: 0 <= i < |exprs| ==>
              if x.e[exprs[i]].ColRef? then 0 <= x.e[exprs[i]].idx - x.offset < |x.table|
              else x.rows == 0 || Supported(x, exprs[i])
    ensures r.Returned? ==> |r.value| == |exprs| && forall i :: 0 <= i < |exprs| ==> Evaluated(x, exprs[i], r.value[i])
  {
    var results: seq<seq<V>> := [];
    for i := 0 to |exprs|
      invariant |results| == i
      invariant forall j :: 0 <= j < i ==> Evaluates(x, exprs[j]) && |results[j]| == x.rows
      invariant forall j, row :: 0 <= j < i && 0 <= row < x.rows ==> results[j][row] == RowVal(x, exprs[j], row)
    {
      var n := exprs[i];
      if x.e[n].ColRef? {
        var c := x.e[n].idx - x.offset;
        if c < 0 || c >= |x.table| { return Thrown; }
        results := results + [x.table[c]];
      } else if x.rows == 0 {
        results := results + [[]];
      } else {
        var evaluator := new Evaluator(x, n);
        var ok := evaluator.Compile();
        if !ok {
          if Supported(x, n) { SupportedCompilable(x, n); }
          return Thrown;
        }
        var result := evaluator.Evaluate();
        if result.Thrown? { return Thrown; }
        results := results + [result.value];
      }
    }
    r := Returned(results);
  }
}
