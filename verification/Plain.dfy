/**
 Which programs the compiler theorems are about, where every call passes an argument: those
 whose mentions are all of names in scope or of functions, and whose declarations reuse no
 name in scope and no function's name.
 */
module Plain {
  import opened Values
  import opened Source

  /** The names an expression mentions. */
  function Mentions(e: Expr): set<Name> {
    match e
    case IntLit(_) => {}
    case BoolLit(_) => {}
    case Ident(x) => {x}
    case Binary(_, l, r) => Mentions(l) + Mentions(r)
    case Unary(_, a) => Mentions(a)
    case Call(c, args) => Mentions(c) + MentionsOf(args)
  }

  function MentionsOf(args: Args): set<Name> {
    match args
    case NoArgs => {}
    case Arg(e, rest) => Mentions(e) + MentionsOf(rest)
  }

  /** Every call passes an argument. */
  predicate Passes(e: Expr) {
    match e
    case Binary(_, l, r) => Passes(l) && Passes(r)
    case Unary(_, a) => Passes(a)
    case Call(c, args) => Passes(c) && PassesIn(args) && args.Arg?
    case _ => true
  }

  predicate PassesIn(args: Args) {
    match args
    case NoArgs => true
    case Arg(e, rest) => Passes(e) && PassesIn(rest)
  }

  predicate CallsPass(s: Stmt)
    decreases s
  {
    match s
    case ExprStmt(e) => Passes(e)
    case VarDecl(_, e) => Passes(e)
    case Assign(_, e) => Passes(e)
    case CompoundAssign(_, _, e) => Passes(e)
    case Block(body) => CallsPassIn(body)
    case If(c, t, els) => Passes(c) && CallsPass(t) && (els.Some? ==> CallsPass(els.value))
    case Loop(guard, body) => (guard.Some? ==> Passes(guard.value)) && CallsPass(body)
    case Return(e) => e.Some? ==> Passes(e.value)
    case _ => true
  }

  predicate CallsPassIn(ss: Stmts)
    decreases ss
  {
    match ss
    case Done => true
    case Seq(s, rest) => CallsPass(s) && CallsPassIn(rest)
  }

  /** The names of the functions. */
  function FunctionNames(p: Program): set<Name> {
    set d <- p.funcs :: d.name
  }

  predicate Known(p: Program, names: set<Name>, e: Expr) {
    Mentions(e) <= names + FunctionNames(p)
  }

  predicate PlainStmt(p: Program, names: set<Name>, s: Stmt)
    decreases s
  {
    match s
    case ExprStmt(e) => Known(p, names, e)
    case VarDecl(x, e) => Known(p, names, e) && x !in names + FunctionNames(p)
    case Assign(x, e) => Known(p, names, e) && x in names
    case CompoundAssign(x, _, e) => Known(p, names, e) && x in names
    case Block(body) => PlainStmts(p, names, body)
    case If(c, t, els) =>
      Known(p, names, c) && PlainStmt(p, names, t) && (els.Some? ==> PlainStmt(p, names, els.value))
    case Loop(guard, body) => (guard.Some? ==> Known(p, names, guard.value)) && PlainStmt(p, names, body)
    case Break => true
    case Continue => true
    case Return(e) => e.Some? ==> Known(p, names, e.value)
  }

  /** A declaration is in scope up to the end of its statement list. */
  predicate PlainStmts(p: Program, names: set<Name>, ss: Stmts)
    decreases ss
  {
    match ss
    case Done => true
    case Seq(s, rest) =>
      PlainStmt(p, names, s) && PlainStmts(p, if s.VarDecl? then names + {s.x} else names, rest)
  }

  function Elements(xs: seq<Name>): set<Name> {
    set x | x in xs
  }

  predicate PlainFunc(p: Program, d: FuncDecl) {
    && (forall i, j | 0 <= i < j < |d.params| :: d.params[i] != d.params[j])
    && Elements(d.params) !! FunctionNames(p)
    && PlainStmt(p, Elements(d.params), d.body)
  }

  predicate PlainProgram(p: Program) {
    && (forall i, j | 0 <= i < j < |p.funcs| :: p.funcs[i].name != p.funcs[j].name)
    && forall d <- p.funcs :: PlainFunc(p, d)
  }

  lemma {:induction false} FunctionsAre(p: Program, x: Name)
    ensures x in GlobalsOf(p.funcs) <==> x in FunctionNames(p)
  {
    if x in GlobalsOf(p.funcs) { assert p.funcs[GlobalsOf(p.funcs)[x]] in p.funcs; }
  }

  lemma {:induction false} ScopedExprIff(p: Program, names: set<Name>, e: Expr)
    ensures ScopedExpr(p, names, e) <==> Known(p, names, e) && Passes(e)
    decreases e
  {
    hide GlobalsOf, FunctionNames;
    match e
    case Ident(x) => FunctionsAre(p, x);
    case Binary(_, l, r) =>
      ScopedExprIff(p, names, l);
      ScopedExprIff(p, names, r);
    case Unary(_, a) => ScopedExprIff(p, names, a);
    case Call(c, args) =>
      ScopedExprIff(p, names, c);
      ScopedArgsIff(p, names, args);
    case _ =>
  }

  lemma {:induction false} ScopedArgsIff(p: Program, names: set<Name>, args: Args)
    ensures ScopedArgs(p, names, args) <==> MentionsOf(args) <= names + FunctionNames(p) && PassesIn(args)
    decreases args
  {
    hide GlobalsOf, FunctionNames, ScopedExpr, Mentions, Passes;
    if args.Arg? {
      ScopedExprIff(p, names, args.first);
      ScopedArgsIff(p, names, args.rest);
    }
  }

  lemma UsableIff(p: Program, names: set<Name>, e: Expr)
    requires Passes(e)
    ensures !BareCall(e)
    ensures Usable(p, names, e) <==> Known(p, names, e)
    ensures ScopedExpr(p, names, e) <==> Known(p, names, e)
  {
    hide GlobalsOf, FunctionNames, Mentions, GivesValue;
    ScopedExprIff(p, names, e);
  }

  /** The names in scope are intact throughout. */
  lemma {:induction false} PlainStmtIff(p: Program, names: set<Name>, s: Stmt)
    requires CallsPass(s)
    ensures !Clobbers(s)
    ensures DeclaresAnew(p, names, s) && ScopedStmt(p, names, names, s) <==> PlainStmt(p, names, s)
    decreases s
  {
    hide GlobalsOf, FunctionNames, Known, Passes, Usable, ScopedExpr, BareCall;
    match s
    case ExprStmt(e) => UsableIff(p, names, e); assert !BareCall(e) ==> !CallsFunction(p, e);
    case VarDecl(x, e) => UsableIff(p, names, e); FunctionsAre(p, x);
    case Assign(_, e) => UsableIff(p, names, e);
    case CompoundAssign(_, _, e) => UsableIff(p, names, e);
    case Block(body) => PlainStmtsIff(p, names, body);
    case If(c, t, els) =>
      UsableIff(p, names, c);
      PlainStmtIff(p, names, t);
      if els.Some? { PlainStmtIff(p, names, els.value); }
    case Loop(guard, body) =>
      if guard.Some? { UsableIff(p, names, guard.value); }
      PlainStmtIff(p, names, body);
    case Return(e) => if e.Some? { UsableIff(p, names, e.value); }
    case _ =>
  }

  lemma {:induction false} PlainStmtsIff(p: Program, names: set<Name>, ss: Stmts)
    requires CallsPassIn(ss)
    ensures !ClobbersIn(ss)
    ensures DeclareAnew(p, names, ss) && ScopedStmts(p, names, names, ss) <==> PlainStmts(p, names, ss)
    decreases ss
  {
    hide GlobalsOf, DeclaresAnew, ScopedStmt, PlainStmt, Clobbers;
    if ss.Seq? {
      var s := ss.head;
      PlainStmtIff(p, names, s);
      PlainStmtsIff(p, ScopeAfter(names, s), ss.tail);
      if s.Assign? {
        AssignedInScope(p, names, s);
        if s.target in names { assert names + {s.target} == names; }
      }
    }
  }

  lemma AssignedInScope(p: Program, names: set<Name>, s: Stmt)
    requires s.Assign?
    ensures ScopedStmt(p, names, names, s) ==> s.target in names
    ensures PlainStmt(p, names, s) ==> s.target in names
  {
  }

  lemma ScopedFuncIff(p: Program, d: FuncDecl)
    requires CallsPass(d.body)
    ensures ScopedFunc(p, d) <==> PlainFunc(p, d)
  {
    hide GlobalsOf, FunctionNames, DeclaresAnew, ScopedStmt, PlainStmt, Clobbers, GivesValue;
    PlainStmtIff(p, Params(d), d.body);
    assert Params(d) == Elements(d.params);
    forall x <- d.params
      ensures x in GlobalsOf(p.funcs) <==> x in FunctionNames(p)
    {
      FunctionsAre(p, x);
    }
  }

  /** Among the programs whose calls all pass an argument, the compiler theorems hold of the plain ones. */
  lemma ScopedIff(p: Program)
    requires forall d <- p.funcs :: CallsPass(d.body)
    ensures ScopedProgram(p) <==> PlainProgram(p)
  {
    hide ScopedFunc, PlainFunc, CallsPass;
    forall d <- p.funcs
      ensures ScopedFunc(p, d) <==> PlainFunc(p, d)
    {
      ScopedFuncIff(p, d);
    }
  }
}
