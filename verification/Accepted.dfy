/**
 What acceptance by the type checker means for the later stages.  The builder completes an
 accepted function exactly if every assignment goes to a local it knows, and every name in
 the arguments of a callee of unknown type, at which the checker does not look, is one it
 knows.  The compiled code of a strictly accepted module never stops for a wrong operand
 type, an unknown name, a wrong call or malformed byte code.
 */
module Accepted {
  import opened Values
  import opened Source
  import opened Machine
  import opened Build
  import opened BuildText
  import opened TypeSound
  import T = TypeCheck
  import B = Bytecode
  import C = Compiler
  import HC = HidingCompiler
  import R = Resolution

  /** Every local the checker can resolve is one the builder can resolve. */
  ghost predicate Covered(sc: T.Scopes, names: set<Name>) {
    forall x :: T.Lookup(sc, x).Some? ==> x in names
  }

  /** Every identifier in the arguments of a callee of unknown type is known to the builder. */
  predicate LooseNamed(g: T.Globals, sc: T.Scopes, visible: set<Name>, names: set<Name>, e: Expr) {
    match e
    case Binary(_, l, r) => LooseNamed(g, sc, visible, names, l) && LooseNamed(g, sc, visible, names, r)
    case Unary(_, a) => LooseNamed(g, sc, visible, names, a)
    case Call(c, args) =>
      LooseNamed(g, sc, visible, names, c) &&
      if T.CheckExpr(T.Lax, g, sc, c).t == T.Unknown then NamedArgs(visible, names, args)
      else LooseNamedArgs(g, sc, visible, names, args)
    case _ => true
  }

  predicate LooseNamedArgs(g: T.Globals, sc: T.Scopes, visible: set<Name>, names: set<Name>, args: Args) {
    match args
    case NoArgs => true
    case Arg(e, rest) => LooseNamed(g, sc, visible, names, e) && LooseNamedArgs(g, sc, visible, names, rest)
  }

  /** The same for all expressions of a statement, each with the scopes of its place. */
  predicate LooseStmt(g: T.Globals, result: T.Type, loops: nat, sc: T.Scopes, visible: set<Name>, names: set<Name>, s: Stmt)
    requires T.HasScope(sc)
    decreases s
  {
    match s
    case ExprStmt(e) => LooseNamed(g, sc, visible, names, e)
    case VarDecl(x, e) => LooseNamed(g, sc, visible, names + {x}, e)
    case Assign(_, e) => LooseNamed(g, sc, visible, names, e)
    case CompoundAssign(_, _, e) => LooseNamed(g, sc, visible, names, e)
    case Block(body) => LooseStmts(g, result, loops, sc + [map[]], visible, names, body)
    case If(c, t, els) =>
      LooseNamed(g, sc, visible, names, c) && LooseStmt(g, result, loops, sc, visible, names, t) &&
      (els.Some? ==>
         LooseStmt(g, result, loops, T.CheckStmt(T.Lax, g, result, loops, sc, t).sc, visible, NamesAfter(names, t), els.value))
    case Loop(guard, body) =>
      (guard.Some? ==> LooseNamed(g, sc, visible, names, guard.value)) &&
      LooseStmt(g, result, loops + 1, sc, visible, names, body)
    case Return(e) => e.Some? ==> LooseNamed(g, sc, visible, names, e.value)
    case _ => true
  }

  predicate LooseStmts(g: T.Globals, result: T.Type, loops: nat, sc: T.Scopes, visible: set<Name>, names: set<Name>, ss: Stmts)
    requires T.HasScope(sc)
    decreases ss
  {
    match ss
    case Done => true
    case Seq(s, rest) =>
      LooseStmt(g, result, loops, sc, visible, names, s) &&
      (Ends(s) ||
       LooseStmts(g, result, loops, T.CheckStmt(T.Lax, g, result, loops, sc, s).sc, visible, NamesAfter(names, s), rest))
  }

  // ----- expressions -----

  lemma {:induction false} ExprNamedIff(g: T.Globals, sc: T.Scopes, visible: set<Name>, names: set<Name>, e: Expr)
    requires Covered(sc, names) && g.names.Keys <= visible && T.CheckExpr(T.Lax, g, sc, e).errors == 0
    ensures Named(visible, names, e) <==> LooseNamed(g, sc, visible, names, e)
    decreases e
  {
    hide T.Lookup, T.CheckBinary, T.CheckLogical, T.CheckUnary, T.CheckArgs;
    match e
    case Binary(_, l, r) =>
      ExprNamedIff(g, sc, visible, names, l);
      ExprNamedIff(g, sc, visible, names, r);
    case Unary(_, a) => ExprNamedIff(g, sc, visible, names, a);
    case Call(c, args) =>
      ExprNamedIff(g, sc, visible, names, c);
      var t := T.CheckExpr(T.Lax, g, sc, c).t;
      if t != T.Unknown { ArgsNamedIff(g, sc, visible, names, args, g.sigs[t.sig].params); }
    case _ =>
  }

  lemma {:induction false} ArgsNamedIff(g: T.Globals, sc: T.Scopes, visible: set<Name>, names: set<Name>, args: Args,
                                        params: seq<T.Type>)
    requires Covered(sc, names) && g.names.Keys <= visible && T.CheckArgs(T.Lax, g, sc, args, params) == 0
    ensures NamedArgs(visible, names, args) <==> LooseNamedArgs(g, sc, visible, names, args)
    decreases args
  {
    hide T.Lookup, T.CheckExpr, Named, LooseNamed, Covered;
    if args.Arg? {
      ExprNamedIff(g, sc, visible, names, args.first);
      ArgsNamedIff(g, sc, visible, names, args.rest, if params == [] then [] else params[1..]);
    }
  }

  // ----- what both know after a statement -----

  lemma CoveredMore(sc: T.Scopes, names: set<Name>, more: set<Name>)
    requires Covered(sc, names) && names <= more
    ensures Covered(sc, more)
  {
    hide T.Lookup;
  }

  lemma {:induction false} LookupMarked(sc: T.Scopes, x: Name, y: Name)
    requires T.HasScope(sc)
    ensures T.Lookup(T.MarkMoved(sc, x), y).Some? == T.Lookup(sc, y).Some?
  {
    var m := T.MarkMoved(sc, x);
    assert m[..|m| - 1] == sc[..|sc| - 1];
  }

  lemma LookupDeclared(sc: T.Scopes, x: Name, t: T.Type, owned: bool, y: Name)
    requires T.HasScope(sc)
    ensures T.Lookup(T.Declare(sc, x, t, owned).sc, y).Some? ==> y == x || T.Lookup(sc, y).Some?
  {
    var m := T.Declare(sc, x, t, owned).sc;
    assert m[..|m| - 1] == sc[..|sc| - 1];
  }

  lemma MoveCovered(sc: T.Scopes, e: Expr, names: set<Name>)
    requires T.HasScope(sc) && Covered(sc, names)
    ensures Covered(T.MoveFrom(sc, e), names)
  {
    hide T.Lookup, T.MarkMoved;
    if e.Ident? {
      forall y | T.Lookup(T.MarkMoved(sc, e.x), y).Some?
        ensures y in names
      {
        LookupMarked(sc, e.x, y);
      }
    }
  }

  lemma DeclCovered(sc: T.Scopes, names: set<Name>, x: Name, t: T.Type, owned: bool)
    requires T.HasScope(sc) && Covered(sc, names)
    ensures Covered(T.Declare(sc, x, t, owned).sc, names + {x})
  {
    hide T.Lookup, T.Declare;
    forall y | T.Lookup(T.Declare(sc, x, t, owned).sc, y).Some?
      ensures y in names + {x}
    {
      LookupDeclared(sc, x, t, owned, y);
    }
  }

  lemma InnerCovered(sc: T.Scopes, names: set<Name>)
    requires Covered(sc, names)
    ensures Covered(sc + [map[]], names)
  {
    assert (sc + [map[]])[..|sc|] == sc;
  }

  lemma {:induction false} StmtCovered(g: T.Globals, result: T.Type, loops: nat, sc: T.Scopes, names: set<Name>, s: Stmt)
    requires T.HasScope(sc) && Covered(sc, names)
    ensures Covered(T.CheckStmt(T.Lax, g, result, loops, sc, s).sc, NamesAfter(names, s))
    decreases s
  {
    hide T.Lookup, T.CheckExpr, T.Resolve, T.MarkMoved, T.Declare, Covered, T.CheckStmts, NamesAfterIn;
    CoveredMore(sc, names, NamesAfter(names, s));
    match s
    case VarDecl(x, e) =>
      MoveCovered(sc, e, names);
      var t := T.CheckExpr(T.Lax, g, sc, e).t;
      DeclCovered(T.MoveFrom(sc, e), names, x, t, T.IsHeap(t));
    case Assign(_, e) => MoveCovered(sc, e, names);
    case Block(_) => StmtOuter(T.Lax, g, result, loops, sc, s);
    case If(_, t, els) =>
      StmtCovered(g, result, loops, sc, names, t);
      if els.Some? {
        StmtCovered(g, result, loops, T.CheckStmt(T.Lax, g, result, loops, sc, t).sc, NamesAfter(names, t), els.value);
      }
    case Loop(_, body) => StmtCovered(g, result, loops + 1, sc, names, body);
    case _ =>
  }

  // ----- statements -----

  /** An accepted statement can be built exactly if its targets are known, and the names in the
      arguments that the checker does not look at. */
  lemma {:induction false} StmtBuildsIfKnown(g: T.Globals, result: T.Type, loops: nat, sc: T.Scopes, visible: set<Name>,
                                             names: set<Name>, s: Stmt)
    requires T.HasScope(sc) && Covered(sc, names) && g.names.Keys <= visible && SimpleStmt(s)
    requires T.CheckStmt(T.Lax, g, result, loops, sc, s).errors == 0
    ensures Buildable(visible, names, loops > 0, s) <==>
            TargetsKnown(names, s) && LooseStmt(g, result, loops, sc, visible, names, s)
    decreases s
  {
    hide T.Lookup, T.CheckExpr, T.Resolve, T.MarkMoved, T.Declare, Covered, Named, LooseNamed, T.CheckStmts;
    match s
    case ExprStmt(e) => ExprNamedIff(g, sc, visible, names, e);
    case VarDecl(x, e) =>
      CoveredMore(sc, names, names + {x});
      ExprNamedIff(g, sc, visible, names + {x}, e);
    case Assign(_, e) => ExprNamedIff(g, sc, visible, names, e);
    case CompoundAssign(_, _, e) => ExprNamedIff(g, sc, visible, names, e);
    case Block(body) =>
      InnerCovered(sc, names);
      StmtsBuildIfKnown(g, result, loops, sc + [map[]], visible, names, body);
    case If(c, t, els) =>
      ExprNamedIff(g, sc, visible, names, c);
      StmtBuildsIfKnown(g, result, loops, sc, visible, names, t);
      if els.Some? {
        StmtCovered(g, result, loops, sc, names, t);
        var a := T.CheckStmt(T.Lax, g, result, loops, sc, t).sc;
        StmtBuildsIfKnown(g, result, loops, a, visible, NamesAfter(names, t), els.value);
      }
    case Loop(guard, body) =>
      if guard.Some? { ExprNamedIff(g, sc, visible, names, guard.value); }
      StmtBuildsIfKnown(g, result, loops + 1, sc, visible, names, body);
    case Return(e) => if e.Some? { ExprNamedIff(g, sc, visible, names, e.value); }
    case _ =>
  }

  lemma {:induction false} StmtsBuildIfKnown(g: T.Globals, result: T.Type, loops: nat, sc: T.Scopes, visible: set<Name>,
                                             names: set<Name>, ss: Stmts)
    requires T.HasScope(sc) && Covered(sc, names) && g.names.Keys <= visible && SimpleStmts(ss)
    requires T.CheckStmts(T.Lax, g, result, loops, sc, ss).errors == 0
    ensures BuildableIn(visible, names, loops > 0, ss) <==>
            TargetsKnownIn(names, ss) && LooseStmts(g, result, loops, sc, visible, names, ss)
    decreases ss
  {
    hide T.CheckStmt, Covered, Buildable, TargetsKnown, LooseStmt, SimpleStmt;
    if ss.Seq? {
      var a := T.CheckStmt(T.Lax, g, result, loops, sc, ss.head).sc;
      StmtBuildsIfKnown(g, result, loops, sc, visible, names, ss.head);
      StmtCovered(g, result, loops, sc, names, ss.head);
      StmtsBuildIfKnown(g, result, loops, a, visible, NamesAfter(names, ss.head), ss.tail);
    }
  }

  /** An accepted assignment is built exactly if the builder knows its target and the names in
      the arguments that the checker does not look at. */
  lemma TargetIff(g: T.Globals, visible: set<Name>, result: T.Type, loops: nat, sc: T.Scopes, h: Ctx, s: Stmt)
    requires (s.Assign? || s.CompoundAssign?) && T.HasScope(sc) && Covered(sc, h.names.Keys) && g.names.Keys <= visible
    requires HasBlock(h) && SimpleStmt(s) && T.CheckStmt(T.Lax, g, result, loops, sc, s).errors == 0
    ensures BuildStmt(visible, h, s).Some? <==>
            s.target in h.names && LooseNamed(g, sc, visible, h.names.Keys, s.value)
  {
    hide T.Lookup, T.CheckExpr, T.Resolve, Covered, Named, LooseNamed, BuildExpr;
    ExprBuildsIff(visible, h, s.value);
    ExprNamedIff(g, sc, visible, h.names.Keys, s.value);
  }

  // ----- functions -----

  lemma {:induction false} ParamsCovered(params: seq<Name>, ts: seq<T.Type>, x: Name)
    requires |params| == |ts|
    ensures T.Lookup(T.DeclareParams(params, ts).sc, x).Some? ==> x in params
    decreases |params|
  {
    if params == [] {
      NoName(x);
    } else {
      var n := |params| - 1;
      assert params == params[..n] + [params[n]];
      ParamsCovered(params[..n], ts[..n], x);
      var sc := T.DeclareParams(params[..n], ts[..n]).sc;
      LookupDeclared(sc, params[n], ts[n], false, x);
    }
  }

  /** A function that the type checker accepts is completed by the builder exactly if its
      targets are known, and the names in the arguments that the checker does not look at. */
  lemma AcceptedIsBuilt(g: T.Globals, visible: set<Name>, d: FuncDecl, ts: seq<T.Type>, result: T.Type)
    requires |ts| == |d.params| && SimpleStmt(d.body) && g.names.Keys <= visible
    requires T.CheckFunc(T.Lax, g, d, ts, result) == 0
    ensures BuildFunc(visible, d).Some? <==>
            TargetsKnown(Params(d), d.body) &&
            LooseStmt(g, result, 0, T.DeclareParams(d.params, ts).sc, visible, Params(d), d.body)
  {
    hide T.Lookup, T.CheckStmt, T.DeclareParams, BuildFunc, TargetsKnown, LooseStmt, Buildable;
    var sc := T.DeclareParams(d.params, ts).sc;
    forall x | T.Lookup(sc, x).Some?
      ensures x in Params(d)
    {
      ParamsCovered(d.params, ts, x);
    }
    FuncBuildsIff(visible, d);
    StmtBuildsIfKnown(g, result, 0, sc, visible, Params(d), d.body);
  }

  // ----- accepted functions that the builder rejects -----

  const F: Name := 0
  const SELF := Assign(F, Ident(F))
  const SELF_FUNC := FuncDecl(F, [], Block(Seq(SELF, Done)))

  /** `func f() { f = f; }`: the checker resolves the target to the function, the builder
      knows only locals as targets. */
  lemma AcceptedNotBuilt()
    ensures var g := T.Globals(map[F := T.Function(0)], map[0 := T.FuncSignature([], T.Unknown)]);
            T.CheckFunc(T.Lax, g, SELF_FUNC, [], T.Unknown) == 0
    ensures BuildFunc({F}, SELF_FUNC) == None
  {
    var g := T.Globals(map[F := T.Function(0)], map[0 := T.FuncSignature([], T.Unknown)]);
    var sc: T.Scopes := [map[], map[]];
    assert T.DeclareParams([], []).sc + [map[]] == sc;
    assert sc[..1] == [map[]] && sc[..1][..0] == [];
    assert T.Lookup(sc[..1], F) == None && T.Lookup(sc, F) == None;
    assert T.CheckExpr(T.Lax, g, sc, Ident(F)) == T.Checked(T.Function(0), 0);
    assert T.CheckStmt(T.Lax, g, T.Unknown, 0, sc, SELF).errors == 0;
    assert T.CheckStmts(T.Lax, g, T.Unknown, 0, sc, Seq(SELF, Done)).errors == 0;
    var h := StartFunc(SELF_FUNC);
    assert BuildStmt({F}, h, SELF) == None;
    assert BuildStmts({F}, h, Seq(SELF, Done)) == None;
  }

  const A: Name := 1
  const Z: Name := 2
  const LOOSE_CALL := ExprStmt(Expr.Call(Ident(A), Arg(Ident(Z), Args.NoArgs)))
  const LOOSE_FUNC := FuncDecl(F, [A], Block(Seq(LOOSE_CALL, Done)))

  lemma LooseChecks()
    ensures T.CheckFunc(T.Lax, T.Globals(map[], map[]), LOOSE_FUNC, [T.Unknown], T.Unknown) == 0
  {
    var g := T.Globals(map[], map[]);
    var ps := T.DeclareParams([A], [T.Unknown]);
    assert [A][..0] == [] && [T.Unknown][..0] == [] && T.DeclareParams([], []) == T.Declared([map[]], 0);
    assert ps == T.Declared([map[A := T.Symbol(T.Unknown, false, false)]], 0);
    var sc: T.Scopes := [map[A := T.Symbol(T.Unknown, false, false)], map[]];
    assert ps.sc + [map[]] == sc && sc[..1] == ps.sc && sc[..1][..0] == [];
    assert T.Lookup(sc, A) == Some(T.Symbol(T.Unknown, false, false));
    assert T.CheckExpr(T.Lax, g, sc, Ident(A)) == T.Checked(T.Unknown, 0);
    assert T.CheckStmt(T.Lax, g, T.Unknown, 0, sc, LOOSE_CALL).errors == 0;
    assert T.CheckStmts(T.Lax, g, T.Unknown, 0, sc, Seq(LOOSE_CALL, Done)).errors == 0;
  }

  /** `func f(a) { a(z); }`: the type of `a` is unknown, so the checker does not look at `z`,
      which nobody declares. */
  lemma LooseNotBuilt()
    ensures T.CheckFunc(T.Lax, T.Globals(map[], map[]), LOOSE_FUNC, [T.Unknown], T.Unknown) == 0
    ensures TargetsKnown(Params(LOOSE_FUNC), LOOSE_FUNC.body)
    ensures BuildFunc({F}, LOOSE_FUNC) == None
  {
    hide T.CheckFunc;
    LooseChecks();
    FuncBuildsIff({F}, LOOSE_FUNC);
    assert Params(LOOSE_FUNC) == {A};
    assert !NamedArgs({F}, {A}, Arg(Ident(Z), Args.NoArgs));
    assert !Buildable({F}, {A}, false, LOOSE_CALL);
    assert TargetsKnown({A}, LOOSE_CALL);
  }

  // ----- running the compiled code -----

  /** The compiled code of a function of an accepted module, run on arguments of its
      parameter types, never stops for a wrong operand type, an unknown name, a wrong call or
      malformed byte code, and the value it ends with has the declared result type. */
  lemma AcceptedRunsSafely(p: Program, base: nat, g: T.Globals, v: B.Vm, id: nat, k: nat)
    requires HC.Faithful(p, base) && C.Compile(p).Some? && C.Starts(p, v, id) && StrictProgram(p, g)
    requires var d := p.funcs[id];
             d.name in g.names && g.names[d.name].Function? && g.names[d.name].sig in g.sigs &&
             var ts := g.sigs[g.names[d.name].sig].params;
             |d.params| == |ts| <= |v.state.stack| && forall i | 0 <= i < |ts| :: HasType(p, g, v.state.stack[i], ts[i])
    ensures var st := B.Run(C.Compile(p).value, v, k).state;
            st.Halted? ==> match st.end
                           case Finished(x) => HasType(p, g, x, g.sigs[g.names[p.funcs[id].name].sig].result)
                           case Faulted(f) => f in {DivisionByZero, ModuloByZero, IntegerOverflow, StackOverflow, WindowOverflow}
  {
    hide HC.Faithful, StrictProgram, ResolvedFunc, CallFunction, B.Run, C.Compile, B.Visible;
    forall d <- p.funcs
      ensures ResolvedFunc(p, d)
    {
      R.FaithfulResolves(p, base, d);
    }
    var st := B.Run(C.Compile(p).value, v, k).state;
    if st.Halted? {
      HC.FaithfulRun(p, base, v, id, k);
      var vs := C.Arguments(p, v, id);
      assert forall i | 0 <= i < |vs| :: vs[i] == v.state.stack[i];
      FuncSound(p, g, id, vs, Fuel(k + 2, k + 2));
    }
  }
}
