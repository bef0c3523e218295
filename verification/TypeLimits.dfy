/**
 What the type checker lets pass although it is not safe to run, and the exact conditions:
 equality and compound assignment of anything but integers, values of unknown type where a
 type is relied on, and functions that fall off their end.  Parameter and result types are
 optional, so that unknown types are common.
 */
module TypeLimits {
  import opened Values
  import opened Source
  import opened TypeSound
  import T = TypeCheck

  // ----- exact conditions -----

  ghost predicate Inhabited(p: Program, g: T.Globals, t: Type) {
    exists v :: HasType(p, g, v, t)
  }

  /** Some values of these types trip the VM's operand guard. */
  ghost predicate Trips(p: Program, g: T.Globals, op: BinOp, lt: Type, rt: Type) {
    exists l, r :: HasType(p, g, l, lt) && HasType(p, g, r, rt) && ApplyBin(op, l, r) == Err(OperandType)
  }

  lemma TripsWith(p: Program, g: T.Globals, op: BinOp, l: Value, r: Value, lt: Type, rt: Type)
    requires HasType(p, g, l, lt) && HasType(p, g, r, rt) && ApplyBin(op, l, r) == Err(OperandType)
    ensures Trips(p, g, op, lt, rt)
  {
  }

  /** Of every plain type but the integers some value is no integer. */
  lemma NoInteger(p: Program, g: T.Globals, t: Type) returns (v: Value)
    requires Plain(t) && Inhabited(p, g, t)
    ensures HasType(p, g, v, t) && (t != T.Integer ==> !v.Int?)
  {
    v :| HasType(p, g, v, t);
    if t.Unknown? { v := Nil; }
  }

  /** An operation that the checker accepts can trip the guard exactly if not both operand types
      are known to be integers.  Where both are known, it does exactly for an equality of
      operands that are no integers. */
  lemma GuardTripsIff(p: Program, g: T.Globals, op: BinOp, lt: Type, rt: Type)
    requires Plain(lt) && Plain(rt) && Inhabited(p, g, lt) && Inhabited(p, g, rt)
    requires op != And && op != Or && T.CheckBinary(T.Lax, op, lt, rt).errors == 0
    ensures Trips(p, g, op, lt, rt) <==> lt != T.Integer || rt != T.Integer
    ensures lt != T.Unknown && rt != T.Unknown ==>
              forall l, r | HasType(p, g, l, lt) && HasType(p, g, r, rt) ::
                ApplyBin(op, l, r) == Err(OperandType) <==> (op == Eq || op == Ne) && lt != T.Integer
  {
    hide TruncDiv, TruncMod;
    var l := NoInteger(p, g, lt);
    var r := NoInteger(p, g, rt);
    if lt != T.Integer || rt != T.Integer { TripsWith(p, g, op, l, r, lt, rt); }
  }

  /** A compound assignment that the checker accepts can trip the guard exactly if not both
      types are known to be integers, and does whenever its target is known to be none. */
  lemma CompoundTripsIff(p: Program, g: T.Globals, op: BinOp, lt: Type, rt: Type)
    requires Plain(lt) && Plain(rt) && Inhabited(p, g, lt) && Inhabited(p, g, rt)
    requires op in {Add, Sub, Mul, Div, Mod} && !T.Clash(lt, rt)
    ensures Trips(p, g, op, lt, rt) <==> lt != T.Integer || rt != T.Integer
    ensures lt != T.Unknown && rt != T.Unknown ==>
              forall l, r | HasType(p, g, l, lt) && HasType(p, g, r, rt) ::
                ApplyBin(op, l, r) == Err(OperandType) <==> lt != T.Integer
  {
    hide TruncDiv, TruncMod;
    var l := NoInteger(p, g, lt);
    var r := NoInteger(p, g, rt);
    if lt != T.Integer || rt != T.Integer { TripsWith(p, g, op, l, r, lt, rt); }
  }

  /** A negation that the checker accepts can trip it exactly if the operand type is unknown. */
  lemma NegationTripsIff(p: Program, g: T.Globals, t: Type)
    requires Plain(t) && T.CheckUnary(T.Lax, Minus, t).errors == 0
    ensures (exists v :: HasType(p, g, v, t) && ApplyUn(Minus, v) == Err(OperandType)) <==> t == T.Unknown
  {
    assert HasType(p, g, Nil, T.Unknown) && ApplyUn(Minus, Nil) == Err(OperandType);
  }

  /** Where the checker lets a value of one type pass for another, as an argument, an assigned
      value or a result, it can be of the wrong type exactly if its own type is unknown and the
      wanted one is declared. */
  lemma MismatchIff(p: Program, g: T.Globals, want: Type, t: Type)
    requires Plain(want) && Plain(t) && !T.Clash(t, want)
    ensures (exists v :: HasType(p, g, v, t) && !HasType(p, g, v, want)) <==> T.Mismatch(T.Strict, want, t)
  {
    assert HasType(p, g, Nil, T.Unknown);
  }

  /** Every value of one type has the other. */
  ghost predicate AllHave(p: Program, g: T.Globals, t: Type, want: Type) {
    forall v | HasType(p, g, v, t) :: HasType(p, g, v, want)
  }

  /** Where an accepted function falls off its end, it hands back its first parameter.  That is
      sure to have the declared type exactly if nothing is declared, or the parameter is declared
      with just that type; any other declared parameter type makes it wrong in every run. */
  lemma FallsOffIff(p: Program, g: T.Globals, d: FuncDecl, sig: T.FuncSignature, env: Env, fuel: Fuel)
    requires |d.params| == |sig.params| > 0 && PlainSignature(sig)
    requires TypedProgram(p, g) && SimpleStmt(d.body) && ResolvedFunc(p, d) && env.Keys == Params(d)
    requires T.DeclareParams(d.params, sig.params).errors == 0
    requires var sc := T.DeclareParams(d.params, sig.params).sc;
             NoneHidden(p, sc, env.Keys) && Typed(p, g, sc, env) &&
             T.CheckStmt(T.Strict, g, sig.result, 0, sc, d.body).errors == 0
    requires ExecStmt(p, env, d.body, fuel).Normal?
    ensures var o := ExecStmt(p, env, d.body, fuel);
            var r := Finish(d, o);
            r.Result? && d.params[0] in o.env && r.v == o.env[d.params[0]] && HasType(p, g, r.v, sig.params[0]) &&
            (AllHave(p, g, sig.params[0], sig.result) <==> sig.result.Unknown? || sig.params[0] == sig.result) &&
            (!sig.params[0].Unknown? ==>
               (HasType(p, g, r.v, sig.result) <==> sig.result.Unknown? || sig.params[0] == sig.result))
  {
    hide GlobalsOf, ExecStmt, T.CheckStmt, ResolvedStmt, SimpleStmt, TypedProgram, NoneHidden, T.DeclareParams,
         Distinct, T.Lookup, Typed;
    var sc := T.DeclareParams(d.params, sig.params).sc;
    var o := ExecStmt(p, env, d.body, fuel);
    var x := d.params[0];
    TypedKnown(p, g, sc, env);
    ArmKeeps(p, g, sig.result, 0, sc, env.Keys, d.body);
    ParamLookup(d.params, sig.params, 0);
    ExecKeepsNames(p, env, d.body, fuel);
    assert x in env.Keys;
    StmtSound(p, g, sig.result, 0, sc, env, d.body, fuel);
    TypedOne(p, g, T.CheckStmt(T.Strict, g, sig.result, 0, sc, d.body).sc, o.env, x);
    if !sig.params[0].Unknown? && !sig.result.Unknown? && HasType(p, g, o.env[x], sig.result) {
      OneType(p, g, o.env[x], sig.params[0], sig.result);
    }
    WithinIff(p, g, o.env[x], sig.params[0], sig.result);
  }

  lemma WithinIff(p: Program, g: T.Globals, v: Value, t: Type, want: Type)
    requires Plain(t) && Plain(want) && HasType(p, g, v, t)
    ensures AllHave(p, g, t, want) <==> want.Unknown? || t == want
  {
    if !want.Unknown? && t != want {
      var w := if t.Unknown? then Nil else v;
      assert HasType(p, g, w, t);
      assert !HasType(p, g, w, want);
    }
  }

  /** No value has two declared types. */
  lemma OneType(p: Program, g: T.Globals, v: Value, a: Type, b: Type)
    requires HasType(p, g, v, a) && a != T.Unknown && b != T.Unknown && HasType(p, g, v, b)
    ensures a == b
  {
  }

  // ----- programs -----

  const B0: Name := 1
  const FALL_FUNC := FuncDecl(0, [B0], Block(Done))
  const FALL_PROGRAM := Program([FALL_FUNC])

  /** A function declared to give an integer passes the checker with an empty body, and gives
      the truth value it was called with. */
  lemma FallingOffUnsound()
    ensures T.CheckFunc(T.Strict, T.Globals(map[], map[]), FALL_FUNC, [T.Boolean], T.Integer) == 0
    ensures CallFunction(FALL_PROGRAM, 0, [Bool(true)], Fuel(0, 1)) == Result(Bool(true))
  {
    var env: Env := map[B0 := Bool(true)];
    assert BindParams([B0], [Bool(true)]) == env;
    assert ExecStmts(FALL_PROGRAM, env, Done, Fuel(0, 0)) == Normal(env);
    assert Restrict(env, env.Keys) == env;
    var sc := T.DeclareParams([B0], [T.Boolean]);
    assert [B0][..0] == [] && [T.Boolean][..0] == [] && T.DeclareParams([], []) == T.Declared([map[]], 0);
    assert sc == T.Declare([map[]], B0, T.Boolean, false);
    assert T.CheckStmts(T.Strict, T.Globals(map[], map[]), T.Integer, 0, sc.sc + [map[]], Done).errors == 0;
  }

  const SUM_LIST := Seq(VarDecl(B0, BoolLit(true)), Seq(CompoundAssign(B0, Add, BoolLit(true)), Done))
  const SUM_FUNC := FuncDecl(0, [], Block(SUM_LIST))
  const SUM_PROGRAM := Program([SUM_FUNC])

  lemma SumRuns()
    ensures ExecStmt(SUM_PROGRAM, map[], Block(SUM_LIST), Fuel(0, 0)) == Failed(OperandType)
  {
    var env: Env := map[B0 := Bool(true)];
    var add := CompoundAssign(B0, Add, BoolLit(true));
    assert EvalExpr(SUM_PROGRAM, env, BoolLit(true), Fuel(0, 0)) == Val(Bool(true));
    assert ExecStmt(SUM_PROGRAM, map[], VarDecl(B0, BoolLit(true)), Fuel(0, 0)) == Normal(env);
    assert ExecStmt(SUM_PROGRAM, env, add, Fuel(0, 0)) == Failed(OperandType);
    assert ExecStmts(SUM_PROGRAM, env, Seq(add, Done), Fuel(0, 0)) == Failed(OperandType);
    assert ExecStmts(SUM_PROGRAM, map[], SUM_LIST, Fuel(0, 0)) == Failed(OperandType);
  }

  lemma SumChecks(g: T.Globals, sc: Scopes)
    requires T.HasScope(sc)
    ensures T.CheckStmt(T.Lax, g, T.Unknown, 0, sc, Block(SUM_LIST)).errors == 0
  {
    var add := CompoundAssign(B0, Add, BoolLit(true));
    var inner := sc + [map[]];
    var r := T.CheckStmt(T.Lax, g, T.Unknown, 0, inner, VarDecl(B0, BoolLit(true)));
    assert T.CheckExpr(T.Lax, g, inner, BoolLit(true)) == T.Checked(T.Boolean, 0);
    assert T.Declare(inner, B0, T.Boolean, false).errors == 0 && r == T.Declare(inner, B0, T.Boolean, false);
    assert T.Lookup(r.sc, B0) == Some(T.Symbol(T.Boolean, false, false));
    assert T.CheckStmt(T.Lax, g, T.Unknown, 0, r.sc, add).errors == 0;
    assert T.CheckStmts(T.Lax, g, T.Unknown, 0, r.sc, Seq(add, Done)).errors == 0;
  }

  lemma SumScoped()
    ensures SimpleStmt(SUM_FUNC.body) && ResolvedFunc(SUM_PROGRAM, SUM_FUNC)
  {
    var add := CompoundAssign(B0, Add, BoolLit(true));
    assert GlobalsOf(SUM_PROGRAM.funcs) == map[0 := 0];
    assert ResolvedStmt(SUM_PROGRAM, {B0}, add);
    assert ResolvedStmts(SUM_PROGRAM, {B0}, Seq(add, Done));
    assert ResolvedStmt(SUM_PROGRAM, {}, VarDecl(B0, BoolLit(true)));
    assert ScopeAfter({}, VarDecl(B0, BoolLit(true))) == {B0};
    assert Params(SUM_FUNC) == {};
    assert SimpleStmts(Seq(add, Done));
  }

  /** `var b = true; b += true;` passes the checker and trips the VM's integer guard. */
  lemma CompoundUnsound()
    ensures T.CheckFunc(T.Lax, T.Globals(map[], map[]), SUM_FUNC, [], T.Unknown) == 0
    ensures SimpleStmt(SUM_FUNC.body) && ResolvedFunc(SUM_PROGRAM, SUM_FUNC)
    ensures CallFunction(SUM_PROGRAM, 0, [], Fuel(0, 1)) == RunFault(OperandType)
  {
    hide ExecStmt, T.CheckStmt, GlobalsOf;
    SumRuns();
    SumScoped();
    SumChecks(T.Globals(map[], map[]), T.DeclareParams([], []).sc);
  }

  const SAME := Binary(Eq, BoolLit(true), BoolLit(true))
  const SAME_BODY := Block(Seq(Return(Some(SAME)), Done))
  const SAME_FUNC := FuncDecl(0, [], SAME_BODY)
  const SAME_PROGRAM := Program([SAME_FUNC])

  lemma SameRuns()
    ensures ExecStmt(SAME_PROGRAM, map[], SAME_BODY, Fuel(0, 0)) == Failed(OperandType)
  {
    assert EvalExpr(SAME_PROGRAM, map[], SAME, Fuel(0, 0)) == ExprFault(OperandType);
    assert ExecStmt(SAME_PROGRAM, map[], Return(Some(SAME)), Fuel(0, 0)) == Failed(OperandType);
    assert ExecStmts(SAME_PROGRAM, map[], Seq(Return(Some(SAME)), Done), Fuel(0, 0)) == Failed(OperandType);
  }

  lemma SameChecks(g: T.Globals, sc: Scopes)
    requires T.HasScope(sc)
    ensures T.CheckStmt(T.Lax, g, T.Boolean, 0, sc, SAME_BODY).errors == 0
  {
    assert T.CheckExpr(T.Lax, g, sc + [map[]], SAME) == T.Checked(T.Boolean, 0);
    assert T.CheckStmt(T.Lax, g, T.Boolean, 0, sc + [map[]], Return(Some(SAME))).errors == 0;
    assert T.CheckStmts(T.Lax, g, T.Boolean, 0, sc + [map[]], Seq(Return(Some(SAME)), Done)).errors == 0;
  }

  lemma SameScoped()
    ensures SimpleStmt(SAME_BODY) && ResolvedFunc(SAME_PROGRAM, SAME_FUNC)
  {
    var dom := Params(SAME_FUNC);
    assert ResolvedExpr(SAME_PROGRAM, dom, SAME);
    assert ResolvedStmt(SAME_PROGRAM, dom, Return(Some(SAME)));
    assert ResolvedStmts(SAME_PROGRAM, dom, Seq(Return(Some(SAME)), Done));
    assert SimpleStmts(Seq(Return(Some(SAME)), Done));
  }

  /** Equality on truth values passes the checker and trips the VM's integer guard. */
  lemma EqualityUnsound()
    ensures T.CheckFunc(T.Lax, T.Globals(map[], map[]), SAME_FUNC, [], T.Boolean) == 0
    ensures SimpleStmt(SAME_FUNC.body) && ResolvedFunc(SAME_PROGRAM, SAME_FUNC)
    ensures CallFunction(SAME_PROGRAM, 0, [], Fuel(0, 1)) == RunFault(OperandType)
  {
    hide ExecStmt, T.CheckStmt, GlobalsOf;
    SameRuns();
    SameScoped();
    SameChecks(T.Globals(map[], map[]), T.DeclareParams([], []).sc);
  }

  // ----- programs with undeclared types -----

  const G: Name := 10
  const F: Name := 11
  const A: Name := 12

  function Give(e: Expr): Stmt {
    Block(Seq(Return(Some(e)), Done))
  }

  /** A body that only returns is accepted if its expression is. */
  lemma GiveChecks(g: T.Globals, d: FuncDecl, t: T.Type, result: T.Type, e: Expr)
    requires d.params == [A] && d.body == Give(e)
    requires var sc: Scopes := [map[A := T.Symbol(t, false, false)], map[]];
             var c := T.CheckExpr(T.Integers, g, sc, e);
             c.errors == 0 && !T.Clash(c.t, result)
    ensures T.CheckFunc(T.Integers, g, d, [t], result) == 0
  {
    var ps := T.DeclareParams([A], [t]);
    assert [A][..0] == [] && [t][..0] == [] && T.DeclareParams([], []) == T.Declared([map[]], 0);
    assert ps == T.Declared([map[A := T.Symbol(t, false, false)]], 0);
    var sc := ps.sc + [map[]];
    assert sc == [map[A := T.Symbol(t, false, false)], map[]];
    assert T.CheckStmt(T.Integers, g, result, 0, sc, Return(Some(e))).errors == 0;
    assert T.CheckStmts(T.Integers, g, result, 0, sc, Seq(Return(Some(e)), Done)).errors == 0;
  }

  lemma LookupParam(t: T.Type)
    ensures var sc: Scopes := [map[A := T.Symbol(t, false, false)], map[]];
            T.Lookup(sc, A) == Some(T.Symbol(t, false, false)) && T.Lookup(sc, G) == None
  {
    var sc: Scopes := [map[A := T.Symbol(t, false, false)], map[]];
    assert sc[..1] == [map[A := T.Symbol(t, false, false)]] && sc[..1][..0] == [];
    assert T.Lookup(sc[..1], G) == None;
  }

  /** What such a function gives. */
  lemma GiveRuns(p: Program, id: nat, e: Expr, v: Value, fuel: Fuel)
    requires id < |p.funcs| && p.funcs[id].params == [A] && p.funcs[id].body == Give(e)
    ensures CallFunction(p, id, [v], Fuel(fuel.turns, fuel.depth + 1)) ==
            match EvalExpr(p, map[A := v], e, fuel)
            case Val(x) => Result(x)
            case ExprFault(f) => RunFault(f)
            case ExprTimeout => OutOfFuel
  {
    hide EvalExpr, ExecStmt;
    assert BindParams([A], [v]) == map[A := v];
    GiveBody(p, map[A := v], e, fuel);
  }

  lemma GiveBody(p: Program, env: Env, e: Expr, fuel: Fuel)
    ensures var r := EvalExpr(p, env, e, fuel);
            ExecStmt(p, env, Give(e), fuel) == if r.Val? then Returned(r.v) else Stopped(r)
  {
    hide EvalExpr;
    var r := EvalExpr(p, env, e, fuel);
    var o := if r.Val? then Returned(r.v) else Stopped(r);
    assert ExecStmt(p, env, Return(Some(e)), fuel) == o;
    assert ExecStmts(p, env, Seq(Return(Some(e)), Done), fuel) == o;
  }

  const PLUS_ONE := Binary(Add, Expr.Call(Ident(G), Arg(Ident(A), Args.NoArgs)), IntLit(1))
  const LOOSE_PROGRAM := Program([FuncDecl(G, [A], Give(BoolLit(true))), FuncDecl(F, [A], Give(PLUS_ONE))])
  const LOOSE_GLOBALS :=
    T.Globals(map[G := T.Function(0), F := T.Function(1)],
              map[0 := T.FuncSignature([T.Integer], T.Unknown), 1 := T.FuncSignature([T.Integer], T.Integer)])

  lemma LooseAccepted()
    ensures T.CheckFunc(T.Integers, LOOSE_GLOBALS, LOOSE_PROGRAM.funcs[0], [T.Integer], T.Unknown) == 0
    ensures T.CheckFunc(T.Integers, LOOSE_GLOBALS, LOOSE_PROGRAM.funcs[1], [T.Integer], T.Integer) == 0
  {
    hide T.CheckFunc;
    LookupParam(T.Integer);
    var sc: Scopes := [map[A := T.Symbol(T.Integer, false, false)], map[]];
    var call := Expr.Call(Ident(G), Arg(Ident(A), Args.NoArgs));
    assert T.CheckArgs(T.Integers, LOOSE_GLOBALS, sc, Arg(Ident(A), Args.NoArgs), [T.Integer]) == 0;
    assert T.CheckExpr(T.Integers, LOOSE_GLOBALS, sc, call) == T.Checked(T.Unknown, 0);
    GiveChecks(LOOSE_GLOBALS, LOOSE_PROGRAM.funcs[0], T.Integer, T.Unknown, BoolLit(true));
    GiveChecks(LOOSE_GLOBALS, LOOSE_PROGRAM.funcs[1], T.Integer, T.Integer, PLUS_ONE);
  }

  /** `func g(a: int) { return true; }  func f(a: int) -> int { return g(a) + 1; }`: accepted, and
      a call of `f` trips the guard. */
  lemma UndeclaredResultUnsound()
    ensures T.CheckFunc(T.Integers, LOOSE_GLOBALS, LOOSE_PROGRAM.funcs[0], [T.Integer], T.Unknown) == 0
    ensures T.CheckFunc(T.Integers, LOOSE_GLOBALS, LOOSE_PROGRAM.funcs[1], [T.Integer], T.Integer) == 0
    ensures forall d <- LOOSE_PROGRAM.funcs :: Returns(d.body)
    ensures CallFunction(LOOSE_PROGRAM, 1, [Int(7)], Fuel(0, 3)) == RunFault(OperandType)
  {
    hide T.CheckFunc, CallFunction;
    LooseAccepted();
    LooseRuns();
  }

  lemma LooseRuns()
    ensures CallFunction(LOOSE_PROGRAM, 1, [Int(7)], Fuel(0, 3)) == RunFault(OperandType)
  {
    hide EvalExpr;
    var p, env: Env := LOOSE_PROGRAM, map[A := Int(7)];
    assert p.funcs[..1][..0] == [] && p.funcs[..1][0] == p.funcs[0];
    assert GlobalsOf(p.funcs[..1]) == map[G := 0];
    assert GlobalsOf(p.funcs) == map[G := 0, F := 1];
    LooseCall(p, env);
    GiveRuns(p, 1, PLUS_ONE, Int(7), Fuel(0, 2));
  }

  lemma LooseCall(p: Program, env: Env)
    requires p == LOOSE_PROGRAM && env == map[A := Int(7)] && GlobalsOf(p.funcs) == map[G := 0, F := 1]
    ensures EvalExpr(p, env, PLUS_ONE, Fuel(0, 2)) == ExprFault(OperandType)
  {
    hide CallFunction, GlobalsOf;
    GiveRuns(p, 0, BoolLit(true), Int(7), Fuel(0, 1));
    assert EvalExpr(p, map[A := Int(7)], BoolLit(true), Fuel(0, 1)) == Val(Bool(true));
    assert EvalArgs(p, env, Args.NoArgs, Fuel(0, 2)) == Vals([]);
    assert EvalArgs(p, env, Arg(Ident(A), Args.NoArgs), Fuel(0, 2)) == Vals([Int(7)]);
    assert EvalExpr(p, env, Ident(G), Fuel(0, 2)) == Val(Function(0));
    assert EvalExpr(p, env, PLUS_ONE.left, Fuel(0, 2)) == Val(Bool(true));
  }

  function OneFunction(e: Expr): Program {
    Program([FuncDecl(F, [A], Give(e))])
  }

  const ONE_GLOBALS := T.Globals(map[F := T.Function(0)], map[0 := T.FuncSignature([T.Unknown], T.Integer)])

  /** `func f(a) -> int { return a + 1; }`: accepted, and a call with a truth value trips the
      guard. */
  lemma UndeclaredParamUnsound()
    ensures var p := OneFunction(Binary(Add, Ident(A), IntLit(1)));
            T.CheckFunc(T.Integers, ONE_GLOBALS, p.funcs[0], [T.Unknown], T.Integer) == 0 && Returns(p.funcs[0].body) &&
            CallFunction(p, 0, [Bool(true)], Fuel(0, 1)) == RunFault(OperandType)
  {
    var e := Binary(Add, Ident(A), IntLit(1));
    var p := OneFunction(e);
    LookupParam(T.Unknown);
    GiveChecks(ONE_GLOBALS, p.funcs[0], T.Unknown, T.Integer, e);
    GiveRuns(p, 0, e, Bool(true), Fuel(0, 0));
  }

  /** `func f(a) -> int { return a; }`: accepted, and hands a truth value back. */
  lemma UndeclaredReturnUnsound()
    ensures var p := OneFunction(Ident(A));
            T.CheckFunc(T.Integers, ONE_GLOBALS, p.funcs[0], [T.Unknown], T.Integer) == 0 && Returns(p.funcs[0].body) &&
            CallFunction(p, 0, [Bool(true)], Fuel(0, 1)) == Result(Bool(true))
  {
    var p := OneFunction(Ident(A));
    LookupParam(T.Unknown);
    GiveChecks(ONE_GLOBALS, p.funcs[0], T.Unknown, T.Integer, Ident(A));
    GiveRuns(p, 0, Ident(A), Bool(true), Fuel(0, 0));
  }

  /** `func f(a) -> int { return a(1); }`: accepted, and calls a truth value. */
  lemma UndeclaredCalleeUnsound()
    ensures var p := OneFunction(Expr.Call(Ident(A), Arg(IntLit(1), Args.NoArgs)));
            T.CheckFunc(T.Integers, ONE_GLOBALS, p.funcs[0], [T.Unknown], T.Integer) == 0 && Returns(p.funcs[0].body) &&
            CallFunction(p, 0, [Bool(true)], Fuel(0, 1)) == RunFault(NotCallable)
  {
    var e := Expr.Call(Ident(A), Arg(IntLit(1), Args.NoArgs));
    var p := OneFunction(e);
    LookupParam(T.Unknown);
    GiveChecks(ONE_GLOBALS, p.funcs[0], T.Unknown, T.Integer, e);
    assert EvalArgs(p, map[A := Bool(true)], Arg(IntLit(1), Args.NoArgs), Fuel(0, 0)) == Vals([Int(1)]) by {
      assert EvalArgs(p, map[A := Bool(true)], Args.NoArgs, Fuel(0, 0)) == Vals([]);
    }
    GiveRuns(p, 0, e, Bool(true), Fuel(0, 0));
  }
}
