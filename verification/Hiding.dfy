/**
 Programs whose locals hide parameters, other locals or functions.  The builder's table of
 names never gives a hidden name back, so hiding is harmless exactly as long as nobody asks:
 if a name that has been hidden is not mentioned after the block that hid it, the compiled
 program means what the source says.  The proof gives every declaration a name of its own;
 that changes neither the byte code nor the meaning, and leaves nothing hidden.
 */
module Hiding {
  import opened Values
  import opened Source
  import opened Ir
  import opened Build
  import opened BuildShape
  import opened BuildText

  const NAMES: nat := 0x1_0000_0000

  /** At a point of the text: what each name means by lexical scoping, what the builder's table
      has for it, both by the declaration's new name, and the next new name. */
  datatype Names = Names(lex: map<Name, Name>, flat: map<Name, Name>, next: nat)

  function Declarations(s: Stmt): nat
    decreases s
  {
    match s
    case VarDecl(_, _) => 1
    case Block(body) => DeclarationsIn(body)
    case If(_, t, els) => Declarations(t) + if els.Some? then Declarations(els.value) else 0
    case Loop(_, body) => Declarations(body)
    case _ => 0
  }

  function DeclarationsIn(ss: Stmts): nat
    decreases ss
  {
    match ss
    case Done => 0
    case Seq(s, rest) => Declarations(s) + DeclarationsIn(rest)
  }

  predicate Room(c: Names, n: nat) {
    c.next + n <= NAMES
  }

  // ----- renaming -----

  function RenamedExpr(lex: map<Name, Name>, e: Expr): Expr {
    match e
    case Ident(x) => Ident(if x in lex then lex[x] else x)
    case Binary(op, l, r) => Binary(op, RenamedExpr(lex, l), RenamedExpr(lex, r))
    case Unary(op, a) => Unary(op, RenamedExpr(lex, a))
    case Call(f, args) => Expr.Call(RenamedExpr(lex, f), RenamedArgs(lex, args))
    case _ => e
  }

  function RenamedArgs(lex: map<Name, Name>, args: Args): (r: Args)
    ensures ArgCount(r) == ArgCount(args)
  {
    match args
    case NoArgs => Args.NoArgs
    case Arg(e, rest) => Arg(RenamedExpr(lex, e), RenamedArgs(lex, rest))
  }

  function After(c: Names, s: Stmt): (r: Names)
    requires Room(c, Declarations(s))
    ensures r.next == c.next + Declarations(s)
    decreases s
  {
    match s
    case VarDecl(x, _) => Names(c.lex[x := c.next], c.flat[x := c.next], c.next + 1)
    case Block(body) => AfterIn(c, body).(lex := c.lex)
    case If(_, t, els) =>
      var a := After(c, t).(lex := c.lex);
      if els.Some? then After(a, els.value).(lex := c.lex) else a
    case Loop(_, body) => After(c, body).(lex := c.lex)
    case _ => c
  }

  /** What follows a statement that closes the block is never built. */
  function AfterIn(c: Names, ss: Stmts): (r: Names)
    requires Room(c, DeclarationsIn(ss))
    ensures r.next == c.next + DeclarationsIn(ss)
    decreases ss
  {
    match ss
    case Done => c
    case Seq(s, rest) =>
      var a := After(c, s);
      if Ends(s) then a.(next := AfterIn(a, rest).next) else AfterIn(a, rest)
  }

  function Renamed(c: Names, s: Stmt): (r: Stmt)
    requires Room(c, Declarations(s))
    ensures Ends(r) == Ends(s) && (r.VarDecl? <==> s.VarDecl?)
    decreases s
  {
    match s
    case ExprStmt(e) => ExprStmt(RenamedExpr(c.lex, e))
    case VarDecl(_, e) => VarDecl(c.next, RenamedExpr(c.lex, e))
    case Assign(x, e) => Assign(if x in c.lex then c.lex[x] else x, RenamedExpr(c.lex, e))
    case CompoundAssign(x, op, e) => CompoundAssign(if x in c.lex then c.lex[x] else x, op, RenamedExpr(c.lex, e))
    case Block(body) => Block(RenamedIn(c, body))
    case If(e, t, els) =>
      If(RenamedExpr(c.lex, e), Renamed(c, t),
         if els.Some? then Some(Renamed(After(c, t).(lex := c.lex), els.value)) else None)
    case Loop(guard, body) =>
      Loop(if guard.Some? then Some(RenamedExpr(c.lex, guard.value)) else None, Renamed(c, body))
    case Return(e) => Stmt.Return(if e.Some? then Some(RenamedExpr(c.lex, e.value)) else None)
    case _ => s
  }

  function RenamedIn(c: Names, ss: Stmts): (r: Stmts)
    requires Room(c, DeclarationsIn(ss))
    ensures EndsIn(r) == EndsIn(ss)
    decreases ss
  {
    match ss
    case Done => Done
    case Seq(s, rest) => Seq(Renamed(c, s), RenamedIn(After(c, s), rest))
  }

  // ----- the condition -----

  /** The builder's table has the declaration that scoping means, or, for a function, nothing. */
  predicate MentionOk(p: Program, lex: map<Name, Name>, flat: map<Name, Name>, x: Name) {
    if x in lex then x in flat && flat[x] == lex[x] else x !in flat && x in GlobalsOf(p.funcs)
  }

  predicate ExprOk(p: Program, lex: map<Name, Name>, flat: map<Name, Name>, e: Expr) {
    match e
    case Ident(x) => MentionOk(p, lex, flat, x)
    case Binary(_, l, r) => ExprOk(p, lex, flat, l) && ExprOk(p, lex, flat, r)
    case Unary(_, a) => ExprOk(p, lex, flat, a)
    case Call(f, args) => ExprOk(p, lex, flat, f) && ArgsOk(p, lex, flat, args)
    case _ => true
  }

  predicate ArgsOk(p: Program, lex: map<Name, Name>, flat: map<Name, Name>, args: Args) {
    match args
    case NoArgs => true
    case Arg(e, rest) => ExprOk(p, lex, flat, e) && ArgsOk(p, lex, flat, rest)
  }

  predicate TargetOk(c: Names, x: Name) {
    x in c.lex && x in c.flat && c.flat[x] == c.lex[x]
  }

  /** No mention of a name that has been hidden since it was declared.  The table has a declared
      name from its initialiser on.  As in the grammar, only lists contain declarations. */
  predicate StmtOk(p: Program, c: Names, s: Stmt)
    requires Room(c, Declarations(s))
    decreases s
  {
    match s
    case ExprStmt(e) => ExprOk(p, c.lex, c.flat, e)
    case VarDecl(x, e) => ExprOk(p, c.lex, c.flat[x := c.next], e)
    case Assign(x, e) => TargetOk(c, x) && ExprOk(p, c.lex, c.flat, e)
    case CompoundAssign(x, _, e) => TargetOk(c, x) && ExprOk(p, c.lex, c.flat, e)
    case Block(body) => ListOk(p, c, body)
    case If(e, t, els) =>
      ExprOk(p, c.lex, c.flat, e) && !t.VarDecl? && StmtOk(p, c, t) &&
      (els.Some? ==> !els.value.VarDecl? && StmtOk(p, After(c, t).(lex := c.lex), els.value))
    case Loop(guard, body) =>
      (guard.Some? ==> ExprOk(p, c.lex, c.flat, guard.value)) && !body.VarDecl? && StmtOk(p, c, body)
    case Return(e) => e.Some? ==> ExprOk(p, c.lex, c.flat, e.value)
    case _ => true
  }

  predicate ListOk(p: Program, c: Names, ss: Stmts)
    requires Room(c, DeclarationsIn(ss))
    decreases ss
  {
    match ss
    case Done => true
    case Seq(s, rest) => StmtOk(p, c, s) && ListOk(p, After(c, s), rest)
  }

  function ParamNames(params: seq<Name>, base: nat): (m: map<Name, Name>)
    requires base + |params| <= NAMES
    ensures forall x :: x in m <==> x in params
    ensures forall x <- m :: base <= m[x] < base + |params| && params[m[x] - base] == x
  {
    if params == [] then map[]
    else
      var n := |params| - 1;
      assert params == params[..n] + [params[n]];
      ParamNames(params[..n], base)[params[n] := base + n]
  }

  function Start(d: FuncDecl, base: nat): Names
    requires base + |d.params| <= NAMES
  {
    var m := ParamNames(d.params, base);
    Names(m, m, base + |d.params|)
  }

  predicate FuncRoom(d: FuncDecl, base: nat) {
    base + |d.params| + Declarations(d.body) <= NAMES
  }

  /** The parameters' new names. */
  function NewParams(n: nat, base: nat): (r: seq<Name>)
    requires base + n <= NAMES
    ensures |r| == n && forall i | 0 <= i < n :: r[i] == base + i
  {
    seq(n, i requires 0 <= i < n => base + i)
  }

  function NewScope(d: FuncDecl, base: nat): (r: set<Name>)
    requires base + |d.params| <= NAMES
    ensures forall x <- r :: base <= x < base + |d.params|
  {
    set x | x in NewParams(|d.params|, base)
  }

  /** Nothing is mentioned that a call without arguments may have overwritten: the condition of
      Source on the renamed text, where every declaration has a name of its own. */
  predicate Intact(p: Program, d: FuncDecl, base: nat)
    requires FuncRoom(d, base)
  {
    && ScopedStmt(p, NewScope(d, base), NewScope(d, base), Renamed(Start(d, base), d.body))
    && (d.params != [] && Clobbers(d.body) ==> GivesValue(d))
  }

  predicate FuncOk(p: Program, d: FuncDecl, base: nat) {
    && FuncRoom(d, base) && d.name < base && Distinct(d.params) && d.body.Block?
    && StmtOk(p, Start(d, base), d.body) && Intact(p, d, base)
  }

  /** No function mentions a name after a block that hid it; from `base` on there are enough
      names that no function has. */
  predicate NothingHiddenIsUsed(p: Program, base: nat) {
    && (forall i, j | 0 <= i < j < |p.funcs| :: p.funcs[i].name != p.funcs[j].name)
    && forall i | 0 <= i < |p.funcs| :: FuncOk(p, p.funcs[i], base)
  }

  function RenamedFunc(d: FuncDecl, base: nat): (r: FuncDecl)
    requires FuncRoom(d, base)
    ensures r.name == d.name && |r.params| == |d.params|
  {
    FuncDecl(d.name, NewParams(|d.params|, base), Renamed(Start(d, base), d.body))
  }

  function RenamedProgram(p: Program, base: nat): (q: Program)
    requires forall i | 0 <= i < |p.funcs| :: FuncRoom(p.funcs[i], base)
    ensures |q.funcs| == |p.funcs| && forall i | 0 <= i < |p.funcs| :: q.funcs[i] == RenamedFunc(p.funcs[i], base)
  {
    Program(seq(|p.funcs|, i requires 0 <= i < |p.funcs| => RenamedFunc(p.funcs[i], base)))
  }

  lemma {:induction false} SameTable(ps: seq<FuncDecl>, qs: seq<FuncDecl>)
    requires |ps| == |qs| && forall i | 0 <= i < |ps| :: ps[i].name == qs[i].name
    ensures GlobalsOf(ps) == GlobalsOf(qs)
    decreases |ps|
  {
    if ps != [] { SameTable(ps[..|ps| - 1], qs[..|qs| - 1]); }
  }

  lemma LoopRenamed(p: Program, c: Names, s: Stmt)
    requires s.Loop? && Room(c, Declarations(s)) && StmtOk(p, c, s)
    ensures Room(c, Declarations(s.loopBody)) && StmtOk(p, c, s.loopBody) && !s.loopBody.VarDecl?
    ensures s.guard.Some? ==> ExprOk(p, c.lex, c.flat, s.guard.value)
    ensures Renamed(c, s) == Loop(if s.guard.Some? then Some(RenamedExpr(c.lex, s.guard.value)) else None, Renamed(c, s.loopBody))
    ensures After(c, s) == After(c, s.loopBody).(lex := c.lex)
  {
    hide ExprOk, RenamedExpr;
  }

  // ----- nothing is hidden in the renamed program -----

  /** New names in use, and names of functions below all of them. */
  ghost predicate Fits(p: Program, c: Names, dom: set<Name>, base: nat) {
    && base <= c.next && (forall x <- GlobalsOf(p.funcs) :: x < base)
    && forall y <- dom :: base <= y < c.next
  }

  lemma {:induction false} StmtAnew(p: Program, c: Names, dom: set<Name>, base: nat, s: Stmt)
    requires Room(c, Declarations(s)) && Fits(p, c, dom, base) && StmtOk(p, c, s)
    ensures DeclaresAnew(p, dom, Renamed(c, s))
    decreases s
  {
    hide GlobalsOf, ExprOk, RenamedExpr;
    match s
    case Block(body) => ListAnew(p, c, dom, base, body);
    case If(e, t, els) =>
      StmtAnew(p, c, dom, base, t);
      if els.Some? { StmtAnew(p, After(c, t).(lex := c.lex), dom, base, els.value); }
    case Loop(_, body) => StmtAnew(p, c, dom, base, body);
    case _ =>
  }

  lemma {:induction false} ListAnew(p: Program, c: Names, dom: set<Name>, base: nat, ss: Stmts)
    requires Room(c, DeclarationsIn(ss)) && Fits(p, c, dom, base) && ListOk(p, c, ss)
    ensures DeclareAnew(p, dom, RenamedIn(c, ss))
    decreases ss
  {
    hide GlobalsOf, StmtOk, DeclaresAnew, Fits;
    if ss.Seq? {
      StmtAnew(p, c, dom, base, ss.head);
      FitsAfter(p, c, dom, base, ss.head);
      ListAnew(p, After(c, ss.head), ScopeAfter(dom, Renamed(c, ss.head)), base, ss.tail);
    }
  }

  lemma FitsAfter(p: Program, c: Names, dom: set<Name>, base: nat, s: Stmt)
    requires Room(c, Declarations(s)) && Fits(p, c, dom, base)
    ensures Fits(p, After(c, s), ScopeAfter(dom, Renamed(c, s)), base)
  {
    hide GlobalsOf;
  }

  /** Renaming keeps how a statement ends, and which calls have no arguments. */
  lemma {:induction false} RenamedEnds(c: Names, s: Stmt)
    requires Room(c, Declarations(s))
    ensures var r := Renamed(c, s); Returns(r) == Returns(s) && Exits(r) == Exits(s) && Clobbers(r) == Clobbers(s)
    decreases s
  {
    match s
    case Block(body) => RenamedEndsIn(c, body);
    case If(_, t, els) =>
      RenamedEnds(c, t);
      if els.Some? { RenamedEnds(After(c, t).(lex := c.lex), els.value); }
    case Loop(_, body) => RenamedEnds(c, body);
    case _ =>
  }

  lemma {:induction false} RenamedEndsIn(c: Names, ss: Stmts)
    requires Room(c, DeclarationsIn(ss))
    ensures var r := RenamedIn(c, ss);
            ReturnsIn(r) == ReturnsIn(ss) && ExitsIn(r) == ExitsIn(ss) && ClobbersIn(r) == ClobbersIn(ss)
    decreases ss
  {
    hide Renamed;
    if ss.Seq? {
      RenamedEnds(c, ss.head);
      RenamedEndsIn(After(c, ss.head), ss.tail);
    }
  }

  /** Two programs with the same function table, whose functions end the same way. */
  ghost predicate SameEnds(p: Program, q: Program) {
    && GlobalsOf(q.funcs) == GlobalsOf(p.funcs) && |q.funcs| == |p.funcs|
    && forall i | 0 <= i < |p.funcs| :: GivesValue(q.funcs[i]) == GivesValue(p.funcs[i])
  }

  lemma {:induction false} SameScope(p: Program, q: Program, live: set<Name>, e: Expr)
    requires GlobalsOf(q.funcs) == GlobalsOf(p.funcs)
    ensures ScopedExpr(q, live, e) == ScopedExpr(p, live, e)
    decreases e
  {
    hide GlobalsOf;
    match e
    case Binary(_, l, r) =>
      SameScope(p, q, live, l);
      SameScope(p, q, live, r);
    case Unary(_, a) => SameScope(p, q, live, a);
    case Call(f, args) =>
      SameScope(p, q, live, f);
      SameArgsScope(p, q, live, args);
    case _ =>
  }

  lemma {:induction false} SameArgsScope(p: Program, q: Program, live: set<Name>, args: Args)
    requires GlobalsOf(q.funcs) == GlobalsOf(p.funcs)
    ensures ScopedArgs(q, live, args) == ScopedArgs(p, live, args)
    decreases args
  {
    hide GlobalsOf, ScopedExpr;
    if args.Arg? {
      SameScope(p, q, live, args.first);
      SameArgsScope(p, q, live, args.rest);
    }
  }

  lemma SameUse(p: Program, q: Program, live: set<Name>, e: Expr)
    requires SameEnds(p, q)
    ensures Usable(q, live, e) == Usable(p, live, e) && ScopedExpr(q, live, e) == ScopedExpr(p, live, e)
    ensures CallsFunction(q, e) == CallsFunction(p, e)
  {
    hide GlobalsOf, ScopedExpr, GivesValue;
    SameScope(p, q, live, e);
    if CallsFunction(p, e) { assert 0 <= GlobalsOf(p.funcs)[e.callee.x] < |p.funcs|; }
  }

  lemma {:induction false} SameStmtScope(p: Program, q: Program, dom: set<Name>, live: set<Name>, s: Stmt)
    requires SameEnds(p, q) && ScopedStmt(p, dom, live, s)
    ensures ScopedStmt(q, dom, live, s)
    decreases s
  {
    hide SameEnds, Usable, ScopedExpr, CallsFunction;
    match s
    case ExprStmt(e) => SameUse(p, q, live, e);
    case VarDecl(_, e) => SameUse(p, q, live, e);
    case Assign(_, e) => SameUse(p, q, live, e);
    case CompoundAssign(_, _, e) => SameUse(p, q, live, e);
    case Block(body) => SameListScope(p, q, dom, live, body);
    case If(c, t, els) =>
      SameUse(p, q, live, c);
      SameStmtScope(p, q, dom, Kept(live, BareCall(c)), t);
      if els.Some? { SameStmtScope(p, q, dom, Kept(live, BareCall(c)), els.value); }
    case Loop(guard, body) =>
      if guard.Some? { SameUse(p, q, Kept(live, Clobbers(s)), guard.value); }
      SameStmtScope(p, q, dom, Kept(live, Clobbers(s)), body);
    case Return(e) => if e.Some? { SameUse(p, q, live, e.value); }
    case _ =>
  }

  lemma {:induction false} SameListScope(p: Program, q: Program, dom: set<Name>, live: set<Name>, ss: Stmts)
    requires SameEnds(p, q) && ScopedStmts(p, dom, live, ss)
    ensures ScopedStmts(q, dom, live, ss)
    decreases ss
  {
    hide SameEnds, ScopedStmt, LiveAfter;
    if ss.Seq? {
      SameStmtScope(p, q, dom, live, ss.head);
      SameListScope(p, q, ScopeAfter(dom, ss.head), LiveAfter(live, ss.head), ss.tail);
    }
  }

  lemma FuncScoped(p: Program, q: Program, d: FuncDecl, base: nat)
    requires SameEnds(p, q) && (forall x <- GlobalsOf(p.funcs) :: x < base) && FuncOk(p, d, base)
    ensures ScopedFunc(q, RenamedFunc(d, base))
  {
    hide GlobalsOf, StmtOk, ScopedStmt, DeclaresAnew, Renamed, Returns, Exits, Clobbers;
    var e, c := RenamedFunc(d, base), Start(d, base);
    forall x <- e.params
      ensures base <= x < base + |d.params|
    {
    }
    assert Params(e) == NewScope(d, base);
    StmtAnew(p, c, Params(e), base, d.body);
    assert DeclaresAnew(q, Params(e), e.body) by { SameAnew(p, q, Params(e), e.body); }
    SameStmtScope(p, q, Params(e), Params(e), e.body);
    RenamedEnds(c, d.body);
  }

  lemma {:induction false} SameAnew(p: Program, q: Program, dom: set<Name>, s: Stmt)
    requires GlobalsOf(q.funcs) == GlobalsOf(p.funcs) && DeclaresAnew(p, dom, s)
    ensures DeclaresAnew(q, dom, s)
    decreases s
  {
    hide GlobalsOf;
    match s
    case Block(body) => SameListAnew(p, q, dom, body);
    case If(_, t, els) =>
      SameAnew(p, q, dom, t);
      if els.Some? { SameAnew(p, q, dom, els.value); }
    case Loop(_, body) => SameAnew(p, q, dom, body);
    case _ =>
  }

  lemma {:induction false} SameListAnew(p: Program, q: Program, dom: set<Name>, ss: Stmts)
    requires GlobalsOf(q.funcs) == GlobalsOf(p.funcs) && DeclareAnew(p, dom, ss)
    ensures DeclareAnew(q, dom, ss)
    decreases ss
  {
    hide GlobalsOf, DeclaresAnew;
    if ss.Seq? {
      SameAnew(p, q, dom, ss.head);
      SameListAnew(p, q, ScopeAfter(dom, ss.head), ss.tail);
    }
  }

  lemma NamesBelow(p: Program, base: nat)
    requires NothingHiddenIsUsed(p, base)
    ensures forall x <- GlobalsOf(p.funcs) :: x < base
  {
    hide GlobalsOf, StmtOk;
    forall x <- GlobalsOf(p.funcs)
      ensures x < base
    {
      assert p.funcs[GlobalsOf(p.funcs)[x]].name == x;
    }
  }

  lemma EndsKept(p: Program, base: nat, d: FuncDecl)
    requires FuncOk(p, d, base)
    ensures GivesValue(RenamedFunc(d, base)) == GivesValue(d)
  {
    hide StmtOk, ScopedStmt, Renamed, Returns, Exits, Clobbers;
    RenamedEnds(Start(d, base), d.body);
  }

  lemma RenamedAlike(p: Program, base: nat)
    requires NothingHiddenIsUsed(p, base)
    ensures SameEnds(p, RenamedProgram(p, base))
  {
    hide GlobalsOf, RenamedFunc, StmtOk, Intact, GivesValue;
    var q := RenamedProgram(p, base);
    SameTable(p.funcs, q.funcs);
    forall i | 0 <= i < |p.funcs|
      ensures GivesValue(q.funcs[i]) == GivesValue(p.funcs[i])
    {
      EndsKept(p, base, p.funcs[i]);
    }
  }

  lemma RenamedScoped(p: Program, base: nat)
    requires NothingHiddenIsUsed(p, base)
    ensures var q := RenamedProgram(p, base); GlobalsOf(q.funcs) == GlobalsOf(p.funcs) && ScopedProgram(q)
  {
    hide GlobalsOf, ScopedFunc, RenamedFunc, StmtOk, Intact, GivesValue;
    RenamedAlike(p, base);
    NamesBelow(p, base);
    var q := RenamedProgram(p, base);
    forall d <- q.funcs
      ensures ScopedFunc(q, d)
    {
      var i :| 0 <= i < |q.funcs| && q.funcs[i] == d;
      FuncScoped(p, q, p.funcs[i], base);
    }
  }

  // ----- scoped programs meet the condition -----

  /** As in the grammar, an arm or a loop body is no declaration. */
  predicate Grammatical(s: Stmt)
    decreases s
  {
    match s
    case Block(body) => GrammaticalIn(body)
    case If(_, t, els) =>
      !t.VarDecl? && Grammatical(t) && (els.Some? ==> !els.value.VarDecl? && Grammatical(els.value))
    case Loop(_, body) => !body.VarDecl? && Grammatical(body)
    case _ => true
  }

  predicate GrammaticalIn(ss: Stmts)
    decreases ss
  {
    match ss
    case Done => true
    case Seq(s, rest) => Grammatical(s) && GrammaticalIn(rest)
  }

  /** Every name in scope is in the table, and no function is. */
  ghost predicate InTable(p: Program, lex: map<Name, Name>, flat: map<Name, Name>) {
    && (forall x <- lex :: x in flat && flat[x] == lex[x])
    && forall x <- flat :: x !in GlobalsOf(p.funcs)
  }

  lemma {:induction false} ScopedExprOk(p: Program, live: set<Name>, lex: map<Name, Name>, flat: map<Name, Name>, e: Expr)
    requires live <= lex.Keys && InTable(p, lex, flat) && ScopedExpr(p, live, e)
    ensures ExprOk(p, lex, flat, e)
    decreases e
  {
    hide GlobalsOf;
    match e
    case Binary(_, l, r) =>
      ScopedExprOk(p, live, lex, flat, l);
      ScopedExprOk(p, live, lex, flat, r);
    case Unary(_, a) => ScopedExprOk(p, live, lex, flat, a);
    case Call(f, args) =>
      ScopedExprOk(p, live, lex, flat, f);
      ScopedArgsOk(p, live, lex, flat, args);
    case _ =>
  }

  lemma {:induction false} ScopedArgsOk(p: Program, live: set<Name>, lex: map<Name, Name>, flat: map<Name, Name>, args: Args)
    requires live <= lex.Keys && InTable(p, lex, flat) && ScopedArgs(p, live, args)
    ensures ArgsOk(p, lex, flat, args)
    decreases args
  {
    hide GlobalsOf, ScopedExpr, ExprOk, InTable;
    if args.Arg? {
      ScopedExprOk(p, live, lex, flat, args.first);
      ScopedArgsOk(p, live, lex, flat, args.rest);
    }
  }

  lemma UseOk(p: Program, live: set<Name>, lex: map<Name, Name>, flat: map<Name, Name>, e: Expr)
    requires live <= lex.Keys && InTable(p, lex, flat) && (ScopedExpr(p, live, e) || CallsFunction(p, e))
    ensures ExprOk(p, lex, flat, e)
  {
    hide GlobalsOf, ScopedExpr;
    if ScopedExpr(p, live, e) { ScopedExprOk(p, live, lex, flat, e); }
  }

  /** Where nothing is hidden, the table keeps what is in scope. */
  lemma {:induction false} ScopedStmtOk(p: Program, c: Names, live: set<Name>, s: Stmt)
    requires Room(c, Declarations(s)) && live <= c.lex.Keys && InTable(p, c.lex, c.flat)
    requires DeclaresAnew(p, c.lex.Keys, s) && ScopedStmt(p, c.lex.Keys, live, s) && Grammatical(s)
    ensures StmtOk(p, c, s) && LiveAfter(live, s) <= ScopeAfter(c.lex.Keys, s)
    ensures var a := After(c, s);
            a.lex.Keys == ScopeAfter(c.lex.Keys, s) && InTable(p, a.lex, a.flat) &&
            (forall x <- c.lex :: x in a.lex && a.lex[x] == c.lex[x])
    decreases s
  {
    hide GlobalsOf, ScopedExpr, ExprOk, CallsFunction, GivesValue;
    match s
    case ExprStmt(e) => UseOk(p, live, c.lex, c.flat, e);
    case VarDecl(x, e) => UseOk(p, live, c.lex, c.flat[x := c.next], e);
    case Assign(_, e) => UseOk(p, live, c.lex, c.flat, e);
    case CompoundAssign(_, _, e) => UseOk(p, live, c.lex, c.flat, e);
    case Block(body) => ScopedListOk(p, c, live, body);
    case If(e, t, els) =>
      UseOk(p, live, c.lex, c.flat, e);
      var after := Kept(live, BareCall(e));
      ScopedStmtOk(p, c, after, t);
      if els.Some? { ScopedStmtOk(p, After(c, t).(lex := c.lex), after, els.value); }
    case Loop(guard, body) =>
      var each := Kept(live, Clobbers(s));
      if guard.Some? { UseOk(p, each, c.lex, c.flat, guard.value); }
      ScopedStmtOk(p, c, each, body);
    case Return(e) => if e.Some? { UseOk(p, live, c.lex, c.flat, e.value); }
    case _ =>
  }

  lemma {:induction false} ScopedListOk(p: Program, c: Names, live: set<Name>, ss: Stmts)
    requires Room(c, DeclarationsIn(ss)) && live <= c.lex.Keys && InTable(p, c.lex, c.flat)
    requires DeclareAnew(p, c.lex.Keys, ss) && ScopedStmts(p, c.lex.Keys, live, ss) && GrammaticalIn(ss)
    ensures ListOk(p, c, ss)
    ensures var a := AfterIn(c, ss); InTable(p, a.lex, a.flat) && (forall x <- c.lex :: x in a.lex && a.lex[x] == c.lex[x])
    decreases ss
  {
    hide GlobalsOf, StmtOk, ScopedStmt, DeclaresAnew, After, InTable, LiveAfter;
    if ss.Seq? {
      ScopedStmtOk(p, c, live, ss.head);
      ScopedListOk(p, After(c, ss.head), LiveAfter(live, ss.head), ss.tail);
    }
  }

  // ----- renaming keeps what is intact -----

  function NewNames(lex: map<Name, Name>, live: set<Name>): set<Name>
    requires live <= lex.Keys
  {
    set x | x in live :: lex[x]
  }

  lemma {:induction false} ExprIntact(p: Program, lex: map<Name, Name>, live: set<Name>, e: Expr)
    requires live <= lex.Keys && lex.Keys !! GlobalsOf(p.funcs).Keys && ScopedExpr(p, live, e)
    ensures ScopedExpr(p, NewNames(lex, live), RenamedExpr(lex, e))
    decreases e
  {
    hide GlobalsOf;
    match e
    case Ident(x) => if x in live { assert lex[x] in NewNames(lex, live); }
    case Binary(_, l, r) =>
      ExprIntact(p, lex, live, l);
      ExprIntact(p, lex, live, r);
    case Unary(_, a) => ExprIntact(p, lex, live, a);
    case Call(f, args) =>
      ExprIntact(p, lex, live, f);
      ArgsIntact(p, lex, live, args);
    case _ =>
  }

  lemma {:induction false} ArgsIntact(p: Program, lex: map<Name, Name>, live: set<Name>, args: Args)
    requires live <= lex.Keys && lex.Keys !! GlobalsOf(p.funcs).Keys && ScopedArgs(p, live, args)
    ensures ScopedArgs(p, NewNames(lex, live), RenamedArgs(lex, args))
    decreases args
  {
    hide GlobalsOf, ScopedExpr, RenamedExpr, NewNames;
    if args.Arg? {
      ExprIntact(p, lex, live, args.first);
      ArgsIntact(p, lex, live, args.rest);
    }
  }

  lemma UseIntact(p: Program, lex: map<Name, Name>, live: set<Name>, e: Expr)
    requires live <= lex.Keys && lex.Keys !! GlobalsOf(p.funcs).Keys && (ScopedExpr(p, live, e) || CallsFunction(p, e))
    ensures var r := RenamedExpr(lex, e);
            (ScopedExpr(p, live, e) ==> ScopedExpr(p, NewNames(lex, live), r)) &&
            (CallsFunction(p, e) ==> CallsFunction(p, r) && r.callee == e.callee) && BareCall(r) == BareCall(e)
  {
    hide GlobalsOf, ScopedExpr, NewNames;
    if ScopedExpr(p, live, e) { ExprIntact(p, lex, live, e); }
  }

  lemma {:induction false} StmtIntact(p: Program, c: Names, live: set<Name>, s: Stmt)
    requires Room(c, Declarations(s)) && live <= c.lex.Keys && c.lex.Keys !! GlobalsOf(p.funcs).Keys
    requires DeclaresAnew(p, c.lex.Keys, s) && ScopedStmt(p, c.lex.Keys, live, s)
    ensures ScopedStmt(p, NewNames(c.lex, c.lex.Keys), NewNames(c.lex, live), Renamed(c, s))
    decreases s
  {
    hide GlobalsOf, ScopedExpr, CallsFunction, GivesValue, RenamedExpr;
    match s
    case ExprStmt(e) => UseIntact(p, c.lex, live, e);
    case VarDecl(_, e) => UseIntact(p, c.lex, live, e);
    case Assign(x, e) =>
      UseIntact(p, c.lex, live, e);
      assert c.lex[x] in NewNames(c.lex, c.lex.Keys);
    case CompoundAssign(x, _, e) =>
      UseIntact(p, c.lex, live, e);
      assert c.lex[x] in NewNames(c.lex, live);
    case Block(body) => ListIntact(p, c, live, body);
    case If(e, t, els) =>
      UseIntact(p, c.lex, live, e);
      KeptIntact(c.lex, live, BareCall(e));
      var after := Kept(live, BareCall(e));
      StmtIntact(p, c, after, t);
      if els.Some? { StmtIntact(p, After(c, t).(lex := c.lex), after, els.value); }
    case Loop(guard, body) =>
      RenamedEnds(c, s);
      KeptIntact(c.lex, live, Clobbers(s));
      var each := Kept(live, Clobbers(s));
      if guard.Some? { UseIntact(p, c.lex, each, guard.value); }
      StmtIntact(p, c, each, body);
    case Return(e) => if e.Some? { UseIntact(p, c.lex, live, e.value); }
    case _ =>
  }

  lemma KeptIntact(lex: map<Name, Name>, live: set<Name>, clobbers: bool)
    requires live <= lex.Keys
    ensures Kept(live, clobbers) <= live && Kept(NewNames(lex, live), clobbers) == NewNames(lex, Kept(live, clobbers))
  {
  }

  lemma {:induction false} ListIntact(p: Program, c: Names, live: set<Name>, ss: Stmts)
    requires Room(c, DeclarationsIn(ss)) && live <= c.lex.Keys && c.lex.Keys !! GlobalsOf(p.funcs).Keys
    requires DeclareAnew(p, c.lex.Keys, ss) && ScopedStmts(p, c.lex.Keys, live, ss)
    ensures ScopedStmts(p, NewNames(c.lex, c.lex.Keys), NewNames(c.lex, live), RenamedIn(c, ss))
    decreases ss
  {
    hide GlobalsOf, ScopedStmt, DeclaresAnew, Renamed, After, LiveAfter, NewNames;
    if ss.Seq? {
      StmtIntact(p, c, live, ss.head);
      AfterIntact(p, c, live, ss.head);
      ListIntact(p, After(c, ss.head), LiveAfter(live, ss.head), ss.tail);
    }
  }

  lemma AfterIntact(p: Program, c: Names, live: set<Name>, s: Stmt)
    requires Room(c, Declarations(s)) && live <= c.lex.Keys && c.lex.Keys !! GlobalsOf(p.funcs).Keys
    requires DeclaresAnew(p, c.lex.Keys, s) && ScopedStmt(p, c.lex.Keys, live, s)
    ensures var a, r := After(c, s).lex, Renamed(c, s);
            a.Keys == ScopeAfter(c.lex.Keys, s) && LiveAfter(live, s) <= a.Keys && a.Keys !! GlobalsOf(p.funcs).Keys &&
            NewNames(a, a.Keys) == ScopeAfter(NewNames(c.lex, c.lex.Keys), r) &&
            NewNames(a, LiveAfter(live, s)) == LiveAfter(NewNames(c.lex, live), r)
  {
    hide GlobalsOf, ScopedExpr, CallsFunction, GivesValue, RenamedExpr, Clobbers;
    RenamedEnds(c, s);
    KeptIntact(c.lex, live, Clobbers(s));
  }

  /** Programs that hide nothing mention nothing hidden. */
  lemma ScopedIncluded(p: Program, base: nat)
    requires ScopedProgram(p)
    requires forall d <- p.funcs :: FuncRoom(d, base) && d.name < base && d.body.Block? && Grammatical(d.body)
    ensures NothingHiddenIsUsed(p, base)
  {
    hide GlobalsOf, FuncOk, ScopedFunc, Grammatical;
    forall i | 0 <= i < |p.funcs|
      ensures FuncOk(p, p.funcs[i], base)
    {
      ScopedFuncOk(p, p.funcs[i], base);
    }
  }

  lemma ScopedFuncOk(p: Program, d: FuncDecl, base: nat)
    requires ScopedFunc(p, d) && FuncRoom(d, base) && d.name < base && d.body.Block? && Grammatical(d.body)
    ensures FuncOk(p, d, base)
  {
    hide GlobalsOf, StmtOk, ScopedStmt, DeclaresAnew, Grammatical, Clobbers, GivesValue, Renamed;
    var c := Start(d, base);
    assert c.lex.Keys == Params(d);
    ScopedStmtOk(p, c, Params(d), d.body);
    StmtIntact(p, c, Params(d), d.body);
    ParamsRenamed(d, base);
  }

  lemma ParamsRenamed(d: FuncDecl, base: nat)
    requires base + |d.params| <= NAMES && Distinct(d.params)
    ensures var lex := Start(d, base).lex; NewNames(lex, lex.Keys) == NewScope(d, base)
  {
    var lex := Start(d, base).lex;
    forall y <- NewScope(d, base)
      ensures y in NewNames(lex, lex.Keys)
    {
      var x := d.params[y - base];
      assert x in lex && lex[x] == y;
    }
    forall y <- NewNames(lex, lex.Keys)
      ensures y in NewScope(d, base)
    {
      assert NewParams(|d.params|, base)[y - base] == y;
    }
  }
}
