/**
 One program through all stages: a function that calls itself for the sum of the first
 numbers.  Its text compiles, and its byte code ends with that sum.
 */
module Sum {
  import opened Values
  import opened Source
  import opened Build
  import opened BuildScope
  import opened BuildText
  import opened Capacity
  import opened Compiler
  import Plain
  import B = Bytecode

  const SUM: Name := 0
  const N: Name := 1

  const LESS := Binary(Lt, Ident(N), IntLit(1))
  const FEWER := Arg(Binary(Sub, Ident(N), IntLit(1)), Args.NoArgs)
  const CALL := Expr.Call(Ident(SUM), FEWER)
  const REST := Binary(Add, Ident(N), CALL)
  const ZERO := Block(Seq(Stmt.Return(Some(IntLit(0))), Done))
  const TEST := If(LESS, ZERO, None)
  const LIST := Seq(TEST, Seq(Stmt.Return(Some(REST)), Done))
  const PROGRAM := Program([FuncDecl(SUM, [N], Block(LIST))])

  lemma SumIsPlain()
    ensures Plain.PlainProgram(PROGRAM) && ScopedProgram(PROGRAM)
  {
    hide GlobalsOf, ScopedProgram, Plain.PlainStmt, Plain.CallsPass;
    assert forall d <- PROGRAM.funcs :: d == PROGRAM.funcs[0];
    assert Plain.FunctionNames(PROGRAM) == {SUM} by { assert PROGRAM.funcs[0] in PROGRAM.funcs; }
    assert Plain.Elements([N]) == {N};
    ListIsPlain();
    Plain.ScopedIff(PROGRAM);
  }

  lemma ListIsPlain()
    requires Plain.FunctionNames(PROGRAM) == {SUM}
    ensures Plain.PlainStmt(PROGRAM, {N}, Block(LIST)) && Plain.CallsPass(Block(LIST))
  {
    hide Plain.FunctionNames;
    assert Plain.Mentions(CALL) == {SUM, N} && Plain.Passes(CALL);
    assert Plain.PlainStmt(PROGRAM, {N}, ZERO) && Plain.CallsPass(ZERO);
    assert Plain.PlainStmt(PROGRAM, {N}, TEST) && Plain.CallsPass(TEST);
    assert Plain.PlainStmts(PROGRAM, {N}, Seq(Stmt.Return(Some(REST)), Done));
    assert Plain.CallsPassIn(Seq(Stmt.Return(Some(REST)), Done));
    assert Plain.PlainStmts(PROGRAM, {N}, LIST) && Plain.CallsPassIn(LIST);
  }

  lemma SumTable()
    ensures GlobalsOf(PROGRAM.funcs) == map[SUM := 0] && Visible(PROGRAM) == {SUM}
  {
    assert PROGRAM.funcs[..0] == [];
  }

  lemma SumCosts()
    ensures RegistersIn({N}, LIST) == 9 && RowsIn({N}, LIST) == 12
  {
    assert ExprCost({N}, LESS) == 2;
    assert ArgsCost({N}, Args.NoArgs) == 0 && ArgCount(Args.NoArgs) == 0;
    assert ExprCost({N}, FEWER.first) == 2 && ArgsCost({N}, FEWER) == 2 && ArgCount(FEWER) == 1;
    assert ExprCost({N}, CALL) == 5;
    assert ExprCost({N}, REST) == 6;
    assert RowsIn({N}, Done) == 0 && RegistersIn({N}, Done) == 0;
    assert Rows({N}, ZERO) == 2 && Registers({N}, ZERO) == 1;
    assert Rows({N}, TEST) == 5 && Registers({N}, TEST) == 3;
    assert Rows({N}, Stmt.Return(Some(REST))) == 7 && Registers({N}, Stmt.Return(Some(REST))) == 6;
    assert NamesAfter({N}, TEST) == {N};
  }

  lemma SumBuilds()
    ensures BuildableIn({SUM}, {N}, false, LIST)
  {
    assert NamedArgs({SUM}, {N}, Args.NoArgs);
    assert NamedArgs({SUM}, {N}, FEWER);
    assert Named({SUM}, {N}, CALL);
    assert Named({SUM}, {N}, REST);
    assert Buildable({SUM}, {N}, false, ZERO);
    assert Buildable({SUM}, {N}, false, TEST);
    assert NamesAfter({N}, TEST) == {N};
  }

  lemma SumCompiles()
    ensures Compile(PROGRAM).Some?
  {
    hide Compile, GlobalsOf, RegistersIn, RowsIn, BuildableIn;
    SumTable();
    SumCosts();
    SumBuilds();
    assert forall d <- PROGRAM.funcs :: d == PROGRAM.funcs[0];
    assert Params(PROGRAM.funcs[0]) == {N};
    CompilesIff(PROGRAM);
  }

  function UpTo(n: nat): nat {
    if n == 0 then 0 else n + UpTo(n - 1)
  }

  lemma {:induction false} UpToIs(n: nat)
    ensures 2 * UpTo(n) == n * (n + 1)
  {
    if n > 0 { UpToIs(n - 1); }
  }

  /** The interpreter needs one call more than the number says. */
  lemma {:induction false} SumInterpreted(n: nat, depth: nat)
    requires n < depth && n <= 1000
    ensures CallFunction(PROGRAM, 0, [Int(n)], Fuel(0, depth)) == Result(Int(UpTo(n)))
    decreases n
  {
    hide ExecStmt, EvalExpr, GlobalsOf;
    var env: Env, fuel := map[N := Int(n)], Fuel(0, depth - 1);
    assert BindParams([N], [Int(n)]) == env;
    TestRuns(n, fuel);
    if n > 0 {
      SumInterpreted(n - 1, depth - 1);
      RestRuns(n, fuel);
    }
    BodyRuns(env, fuel);
  }

  /** The list returns what its test or its last statement returns. */
  lemma BodyRuns(env: Env, fuel: Fuel)
    ensures var t := ExecStmt(PROGRAM, env, TEST, fuel);
            t == Normal(env) || t.Returned? ==>
              ExecStmt(PROGRAM, env, Block(LIST), fuel) ==
              if t.Returned? then t else ExecStmt(PROGRAM, env, Stmt.Return(Some(REST)), fuel)
  {
    hide EvalExpr, GlobalsOf;
    var last := ExecStmt(PROGRAM, env, Stmt.Return(Some(REST)), fuel);
    assert ExecStmts(PROGRAM, env, Seq(Stmt.Return(Some(REST)), Done), fuel) == last;
    var t := ExecStmt(PROGRAM, env, TEST, fuel);
    if t == Normal(env) { assert ExecStmts(PROGRAM, env, LIST, fuel) == last; }
  }

  lemma TestRuns(n: nat, fuel: Fuel)
    ensures ExecStmt(PROGRAM, map[N := Int(n)], TEST, fuel) ==
            if n == 0 then Returned(Int(0)) else Normal(map[N := Int(n)])
  {
    hide GlobalsOf;
    var env: Env := map[N := Int(n)];
    assert EvalExpr(PROGRAM, env, Ident(N), fuel) == Val(Int(n));
    assert EvalExpr(PROGRAM, env, LESS, fuel) == Val(Bool(n < 1));
    assert ExecStmt(PROGRAM, env, Stmt.Return(Some(IntLit(0))), fuel) == Returned(Int(0));
    assert ExecStmts(PROGRAM, env, Seq(Stmt.Return(Some(IntLit(0))), Done), fuel) == Returned(Int(0));
    assert ExecStmt(PROGRAM, env, ZERO, fuel) == Returned(Int(0));
  }

  lemma RestRuns(n: nat, fuel: Fuel)
    requires 0 < n <= 1000 && CallFunction(PROGRAM, 0, [Int(n - 1)], fuel) == Result(Int(UpTo(n - 1)))
    ensures ExecStmt(PROGRAM, map[N := Int(n)], Stmt.Return(Some(REST)), fuel) == Returned(Int(UpTo(n)))
  {
    hide GlobalsOf, CallFunction, UpTo;
    var env: Env := map[N := Int(n)];
    SumTable();
    UpToIs(n);
    UpToSmall(n);
    assert EvalExpr(PROGRAM, env, Ident(N), fuel) == Val(Int(n));
    assert EvalExpr(PROGRAM, env, Ident(SUM), fuel) == Val(Function(0));
    assert EvalExpr(PROGRAM, env, FEWER.first, fuel) == Val(Int(n - 1));
    assert EvalArgs(PROGRAM, env, Args.NoArgs, fuel) == Vals([]);
    assert EvalArgs(PROGRAM, env, FEWER, fuel) == Vals([Int(n - 1)]);
    assert EvalExpr(PROGRAM, env, CALL, fuel) == Val(Int(UpTo(n - 1)));
    assert EvalExpr(PROGRAM, env, REST, fuel) == Val(Int(UpTo(n)));
  }

  lemma {:induction false} UpToSmall(n: nat)
    requires n <= 1000
    ensures UpTo(n) <= 1000 * n && (n > 0 ==> UpTo(n) == n + UpTo(n - 1))
  {
    if n > 0 { UpToSmall(n - 1); }
  }

  /** Compiled and started on a number up to 30, the function ends with the sum, and every run that
      ends, ends so. */
  lemma SumEnds(n: nat, v: B.Vm) returns (k: nat)
    requires n <= 30 && Starts(PROGRAM, v, 0) && v.state.stack[0] == Int(n)
    ensures Compile(PROGRAM).Some?
    ensures B.Run(Compile(PROGRAM).value, v, k).state.Halted?
    ensures forall j: nat ::
              var st := B.Run(Compile(PROGRAM).value, v, j).state;
              st.Halted? ==> st.end.Finished? && st.end.v.Int? && 2 * st.end.v.i == n * (n + 1)
  {
    hide Compile, GlobalsOf, B.Run, CallFunction, UpTo, ScopedProgram;
    SumIsPlain();
    SumCompiles();
    SumInterpreted(n, 31);
    UpToIs(n);
    assert Arguments(PROGRAM, v, 0) == [Int(n)];
    k := WithinLimits(PROGRAM, v, 0, 0);
  }
}
