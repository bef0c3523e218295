/**
 The programs that the compiler theorems speak of resolve all their names: every identifier
 is a name in scope or a function, and assignments go to names in scope.
 */
module Resolution {
  import opened Values
  import opened Source
  import opened Hiding
  import opened HidingCompiler
  import opened TypeSound

  lemma {:induction false} ScopedResolves(p: Program, live: set<Name>, dom: set<Name>, e: Expr)
    requires live <= dom && ScopedExpr(p, live, e)
    ensures ResolvedExpr(p, dom, e)
    decreases e
  {
    hide GlobalsOf;
    match e
    case Binary(_, l, r) =>
      ScopedResolves(p, live, dom, l);
      ScopedResolves(p, live, dom, r);
    case Unary(_, a) => ScopedResolves(p, live, dom, a);
    case Call(c, args) =>
      ScopedResolves(p, live, dom, c);
      ScopedArgsResolve(p, live, dom, args);
    case _ =>
  }

  lemma {:induction false} ScopedArgsResolve(p: Program, live: set<Name>, dom: set<Name>, args: Args)
    requires live <= dom && ScopedArgs(p, live, args)
    ensures ResolvedArgs(p, dom, args)
    decreases args
  {
    hide ScopedExpr, ResolvedExpr;
    if args.Arg? {
      ScopedResolves(p, live, dom, args.first);
      ScopedArgsResolve(p, live, dom, args.rest);
    }
  }

  lemma UseResolves(p: Program, live: set<Name>, dom: set<Name>, e: Expr)
    requires live <= dom && (ScopedExpr(p, live, e) || CallsFunction(p, e))
    ensures ResolvedExpr(p, dom, e)
  {
    hide GlobalsOf, ScopedExpr;
    if ScopedExpr(p, live, e) { ScopedResolves(p, live, dom, e); }
  }

  lemma {:induction false} ScopedStmtResolves(p: Program, live: set<Name>, dom: set<Name>, s: Stmt)
    requires live <= dom && DeclaresAnew(p, dom, s) && ScopedStmt(p, dom, live, s)
    ensures ResolvedArm(p, dom, s)
    decreases s
  {
    hide GlobalsOf, ScopedExpr, ResolvedExpr, CallsFunction, GivesValue;
    match s
    case ExprStmt(e) => UseResolves(p, live, dom, e);
    case VarDecl(_, e) => UseResolves(p, live, dom, e);
    case Assign(_, e) => UseResolves(p, live, dom, e);
    case CompoundAssign(_, _, e) => UseResolves(p, live, dom, e);
    case Block(body) => ScopedListResolves(p, live, dom, body);
    case If(c, t, els) =>
      UseResolves(p, live, dom, c);
      var after := Kept(live, BareCall(c));
      ScopedStmtResolves(p, after, dom, t);
      if els.Some? { ScopedStmtResolves(p, after, dom, els.value); }
    case Loop(guard, body) =>
      var each := Kept(live, Clobbers(s));
      if guard.Some? { UseResolves(p, each, dom, guard.value); }
      ScopedStmtResolves(p, each, dom, body);
    case Return(e) => if e.Some? { UseResolves(p, live, dom, e.value); }
    case _ =>
  }

  lemma {:induction false} ScopedListResolves(p: Program, live: set<Name>, dom: set<Name>, ss: Stmts)
    requires live <= dom && DeclareAnew(p, dom, ss) && ScopedStmts(p, dom, live, ss)
    ensures ResolvedStmts(p, dom, ss)
    decreases ss
  {
    hide GlobalsOf, ResolvedStmt, DeclaresAnew, Usable, ScopedExpr;
    if ss.Seq? {
      ScopedStmtResolves(p, live, dom, ss.head);
      ScopedListResolves(p, LiveAfter(live, ss.head), ScopeAfter(dom, ss.head), ss.tail);
    }
  }

  lemma {:induction false} MentionResolves(p: Program, lex: map<Name, Name>, flat: map<Name, Name>, e: Expr)
    requires Hiding.ExprOk(p, lex, flat, e)
    ensures ResolvedExpr(p, lex.Keys, e)
    decreases e
  {
    hide GlobalsOf;
    match e
    case Binary(_, l, r) =>
      MentionResolves(p, lex, flat, l);
      MentionResolves(p, lex, flat, r);
    case Unary(_, a) => MentionResolves(p, lex, flat, a);
    case Call(c, args) =>
      MentionResolves(p, lex, flat, c);
      MentionedArgsResolve(p, lex, flat, args);
    case _ =>
  }

  lemma {:induction false} MentionedArgsResolve(p: Program, lex: map<Name, Name>, flat: map<Name, Name>, args: Args)
    requires Hiding.ArgsOk(p, lex, flat, args)
    ensures ResolvedArgs(p, lex.Keys, args)
    decreases args
  {
    hide Hiding.ExprOk, ResolvedExpr;
    if args.Arg? {
      MentionResolves(p, lex, flat, args.first);
      MentionedArgsResolve(p, lex, flat, args.rest);
    }
  }

  lemma {:induction false} UnhiddenStmtResolves(p: Program, c: Names, s: Stmt)
    requires Room(c, Declarations(s)) && StmtOk(p, c, s)
    ensures ResolvedStmt(p, c.lex.Keys, s)
    decreases s
  {
    hide GlobalsOf, Hiding.ExprOk, ResolvedExpr;
    match s
    case ExprStmt(e) => MentionResolves(p, c.lex, c.flat, e);
    case VarDecl(x, e) => MentionResolves(p, c.lex, c.flat[x := c.next], e);
    case Assign(_, e) => MentionResolves(p, c.lex, c.flat, e);
    case CompoundAssign(_, _, e) => MentionResolves(p, c.lex, c.flat, e);
    case Block(body) => UnhiddenListResolves(p, c, body);
    case If(e, t, els) =>
      MentionResolves(p, c.lex, c.flat, e);
      UnhiddenStmtResolves(p, c, t);
      if els.Some? { UnhiddenStmtResolves(p, After(c, t).(lex := c.lex), els.value); }
    case Loop(guard, body) =>
      if guard.Some? { MentionResolves(p, c.lex, c.flat, guard.value); }
      UnhiddenStmtResolves(p, c, body);
    case Return(e) => if e.Some? { MentionResolves(p, c.lex, c.flat, e.value); }
    case _ =>
  }

  lemma {:induction false} UnhiddenListResolves(p: Program, c: Names, ss: Stmts)
    requires Room(c, DeclarationsIn(ss)) && ListOk(p, c, ss)
    ensures ResolvedStmts(p, c.lex.Keys, ss)
    decreases ss
  {
    hide GlobalsOf, StmtOk, ResolvedStmt;
    if ss.Seq? {
      UnhiddenStmtResolves(p, c, ss.head);
      UnhiddenListResolves(p, After(c, ss.head), ss.tail);
      assert After(c, ss.head).lex.Keys == ScopeAfter(c.lex.Keys, ss.head);
    }
  }

  lemma UnhiddenFuncResolves(p: Program, d: FuncDecl, base: nat)
    requires FuncOk(p, d, base)
    ensures ResolvedFunc(p, d)
  {
    hide GlobalsOf, StmtOk, ResolvedStmt;
    UnhiddenStmtResolves(p, Start(d, base), d.body);
    assert Start(d, base).lex.Keys == Params(d);
  }

  lemma FaithfulResolves(p: Program, base: nat, d: FuncDecl)
    requires Faithful(p, base) && d in p.funcs
    ensures ResolvedFunc(p, d)
  {
    hide GlobalsOf, ScopedStmt, DeclaresAnew, GivesValue, FuncOk, ResolvedStmt;
    if ScopedProgram(p) {
      assert ScopedFunc(p, d);
      ScopedStmtResolves(p, Params(d), Params(d), d.body);
    } else {
      var i :| 0 <= i < |p.funcs| && p.funcs[i] == d;
      UnhiddenFuncResolves(p, d, base);
    }
  }
}
