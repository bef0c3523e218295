/**
 Type soundness.  Four things are asked of a module beyond acceptance by the checker: that
 equality and compound assignment are of integers, that no type is relied on which nobody
 declared (parameter and result types are optional; the type of a value without one is
 unknown), and that functions end well.  Such a module never trips a type guard when it
 runs, calls and recursion included, and its functions return values of their declared
 types.  Only division or modulo by zero and arithmetic overflow are left.  A declaration may
 take any name, one in use included.  TypeLimits shows that each restriction is needed.
 */
module TypeSound {
  import opened Values
  import opened Source
  import T = TypeCheck

  type Type = T.Type
  type Scopes = T.Scopes

  /** Types of values without heap storage, and the type of what has no declared one. */
  predicate Plain(t: Type) {
    t.Integer? || t.Boolean? || t.Function? || t.Unknown?
  }

  /** Of a value of unknown type nothing is known. */
  predicate HasType(p: Program, g: T.Globals, v: Value, t: Type) {
    match t
    case Integer => v.Int?
    case Boolean => v.Bool?
    case Function(_) => v.Function? && v.id < |p.funcs| && p.funcs[v.id].name in g.names && g.names[p.funcs[v.id].name] == t
    case Unknown => true
    case _ => false
  }

  /** Faults a checked program may still run into. */
  predicate Benign(f: Fault) {
    f == DivisionByZero || f == ModuloByZero || f == IntegerOverflow
  }

  /** As in the grammar, a compound assignment has one of five operators. */
  predicate SimpleStmt(s: Stmt)
    decreases s
  {
    match s
    case CompoundAssign(_, op, _) => op in {Add, Sub, Mul, Div, Mod}
    case Block(body) => SimpleStmts(body)
    case If(_, t, els) => SimpleStmt(t) && (els.Some? ==> SimpleStmt(els.value))
    case Loop(_, body) => SimpleStmt(body)
    case _ => true
  }

  predicate SimpleStmts(ss: Stmts)
    decreases ss
  {
    match ss
    case Done => true
    case Seq(s, rest) => SimpleStmt(s) && SimpleStmts(rest)
  }

  /** Every identifier is a name in scope or a function. */
  predicate ResolvedExpr(p: Program, dom: set<Name>, e: Expr) {
    match e
    case Ident(x) => x in dom || x in GlobalsOf(p.funcs)
    case Binary(_, l, r) => ResolvedExpr(p, dom, l) && ResolvedExpr(p, dom, r)
    case Unary(_, a) => ResolvedExpr(p, dom, a)
    case Call(c, args) => ResolvedExpr(p, dom, c) && ResolvedArgs(p, dom, args)
    case _ => true
  }

  predicate ResolvedArgs(p: Program, dom: set<Name>, args: Args) {
    match args
    case NoArgs => true
    case Arg(e, rest) => ResolvedExpr(p, dom, e) && ResolvedArgs(p, dom, rest)
  }

  /** Assignments go to names in scope.  A declaration may hide anything. */
  predicate ResolvedStmt(p: Program, dom: set<Name>, s: Stmt)
    decreases s, 0
  {
    match s
    case ExprStmt(e) => ResolvedExpr(p, dom, e)
    case VarDecl(_, e) => ResolvedExpr(p, dom, e)
    case Assign(x, e) => x in dom && ResolvedExpr(p, dom, e)
    case CompoundAssign(x, _, e) => x in dom && ResolvedExpr(p, dom, e)
    case Block(body) => ResolvedStmts(p, dom, body)
    case If(c, t, els) =>
      ResolvedExpr(p, dom, c) && ResolvedArm(p, dom, t) && (els.Some? ==> ResolvedArm(p, dom, els.value))
    case Loop(guard, body) => (guard.Some? ==> ResolvedExpr(p, dom, guard.value)) && ResolvedArm(p, dom, body)
    case Return(e) => e.Some? ==> ResolvedExpr(p, dom, e.value)
    case _ => true
  }

  /** Outside a list a declaration hides nothing; the grammar has none there. */
  predicate ResolvedArm(p: Program, dom: set<Name>, s: Stmt)
    decreases s, 1
  {
    ResolvedStmt(p, dom, s) && (s.VarDecl? ==> s.x !in dom && s.x !in GlobalsOf(p.funcs))
  }

  predicate ResolvedStmts(p: Program, dom: set<Name>, ss: Stmts)
    decreases ss
  {
    match ss
    case Done => true
    case Seq(s, rest) => ResolvedStmt(p, dom, s) && ResolvedStmts(p, ScopeAfter(dom, s), rest)
  }

  predicate ResolvedFunc(p: Program, d: FuncDecl) {
    ResolvedArm(p, Params(d), d.body)
  }

  /** The checker knows a live plain type for the name, and the value has it. */
  ghost predicate TypedName(p: Program, g: T.Globals, sc: Scopes, x: Name, v: Value) {
    var s := T.Lookup(sc, x);
    s.Some? && !s.value.moved && Plain(s.value.t) && HasType(p, g, v, s.value.t)
  }

  ghost predicate Typed(p: Program, g: T.Globals, sc: Scopes, env: Env) {
    forall x <- env :: TypedName(p, g, sc, x, env[x])
  }

  predicate AllPlain(ts: seq<Type>) {
    forall k | 0 <= k < |ts| :: Plain(ts[k])
  }

  predicate PlainSignature(sig: T.FuncSignature) {
    AllPlain(sig.params) && Plain(sig.result)
  }

  /** A function that falls off its end hands back its first parameter, whatever its
      declared type: it has to return, to declare no result, or to declare just that. */
  predicate EndsWell(d: FuncDecl, sig: T.FuncSignature) {
    Returns(d.body) || sig.result.Unknown? || (d.params != [] && sig.params != [] && sig.params[0] == sig.result)
  }

  /** The checker knows the function under its name, with a signature that its body passes. */
  ghost predicate TypedFunc(p: Program, g: T.Globals, d: FuncDecl) {
    && d.name in g.names && g.names[d.name].Function? && g.names[d.name].sig in g.sigs
    && SimpleStmt(d.body)
    && var sig := g.sigs[g.names[d.name].sig];
       |sig.params| == |d.params| && T.CheckFunc(T.Strict, g, d, sig.params, sig.result) == 0 && EndsWell(d, sig)
  }

  /** All functions of the module are accepted, and the four restrictions are met. */
  ghost predicate StrictProgram(p: Program, g: T.Globals) {
    && (forall s <- g.sigs :: PlainSignature(g.sigs[s]))
    && forall i | 0 <= i < |p.funcs| :: TypedFunc(p, g, p.funcs[i])
  }

  ghost predicate TypedProgram(p: Program, g: T.Globals) {
    StrictProgram(p, g) && forall i | 0 <= i < |p.funcs| :: ResolvedFunc(p, p.funcs[i])
  }

  /** A function value has the type of the name it is declared under. */
  lemma FunctionType(p: Program, g: T.Globals, x: Name)
    requires TypedProgram(p, g) && x in GlobalsOf(p.funcs)
    ensures x in g.names && g.names[x].Function? && HasType(p, g, Function(GlobalsOf(p.funcs)[x]), g.names[x])
  {
    hide T.CheckFunc, ResolvedFunc, EndsWell, SimpleStmt;
    assert TypedFunc(p, g, p.funcs[GlobalsOf(p.funcs)[x]]);
  }

  /** No local but those in scope hides a function. */
  ghost predicate NoneHidden(p: Program, sc: Scopes, dom: set<Name>) {
    forall x <- GlobalsOf(p.funcs) | x !in dom :: T.Lookup(sc, x).None?
  }

  ghost predicate ExprOk(p: Program, g: T.Globals, r: ExprResult, t: Type) {
    match r
    case Val(v) => HasType(p, g, v, t)
    case ExprFault(f) => Benign(f)
    case ExprTimeout => true
  }

  /** An operation on operands of the types its rule asks for. */
  lemma BinSound(p: Program, g: T.Globals, op: BinOp, l: Value, r: Value, lt: Type, rt: Type)
    requires HasType(p, g, l, lt) && HasType(p, g, r, rt) && Plain(lt) && Plain(rt)
    requires if op == And || op == Or then T.CheckLogical(lt, rt).errors == 0 else T.CheckBinary(T.Strict, op, lt, rt).errors == 0
    ensures var t := (if op == And || op == Or then T.CheckLogical(lt, rt) else T.CheckBinary(T.Strict, op, lt, rt)).t;
            Plain(t) && ExprOk(p, g, OfResult(ApplyBin(op, l, r)), t)
  {
    hide TruncDiv, TruncMod;
  }

  lemma UnSound(p: Program, g: T.Globals, op: UnOp, v: Value, t: Type)
    requires HasType(p, g, v, t) && Plain(t) && T.CheckUnary(T.Strict, op, t).errors == 0
    ensures var u := T.CheckUnary(T.Strict, op, t).t; Plain(u) && ExprOk(p, g, OfResult(ApplyUn(op, v)), u)
  {
  }

  /** An accepted expression has a plain type, and its value, if any, has that type. */
  lemma {:induction false} ExprSound(p: Program, g: T.Globals, sc: Scopes, env: Env, e: Expr, fuel: Fuel)
    requires TypedProgram(p, g) && Typed(p, g, sc, env) && ResolvedExpr(p, env.Keys, e)
    requires NoneHidden(p, sc, env.Keys) && T.CheckExpr(T.Strict, g, sc, e).errors == 0
    ensures var c := T.CheckExpr(T.Strict, g, sc, e); Plain(c.t) && ExprOk(p, g, EvalExpr(p, env, e, fuel), c.t)
    decreases fuel.depth, fuel.turns, 1, e, 1
  {
    hide T.CheckBinary, T.CheckLogical, T.CheckUnary, ApplyBin, ApplyUn, T.Lookup, GlobalsOf, TypedProgram,
         NoneHidden, EvalArgs, T.CheckArgs;
    match e
    case IntLit(_) =>
    case BoolLit(_) =>
    case Ident(x) => IdentSound(p, g, sc, env, x, fuel);
    case Binary(op, l, r) =>
      ExprSound(p, g, sc, env, l, fuel);
      ExprSound(p, g, sc, env, r, fuel);
      var lv, rv := EvalExpr(p, env, l, fuel), EvalExpr(p, env, r, fuel);
      if lv.Val? && rv.Val? {
        BinSound(p, g, op, lv.v, rv.v, T.CheckExpr(T.Strict, g, sc, l).t, T.CheckExpr(T.Strict, g, sc, r).t);
      } else {
        BinPlain(op, T.CheckExpr(T.Strict, g, sc, l).t, T.CheckExpr(T.Strict, g, sc, r).t);
      }
    case Unary(op, a) =>
      ExprSound(p, g, sc, env, a, fuel);
      var v := EvalExpr(p, env, a, fuel);
      var t := T.CheckExpr(T.Strict, g, sc, a).t;
      if v.Val? { UnSound(p, g, op, v.v, t); } else { UnPlain(op, t); }
    case Call(_, _) => CallSound(p, g, sc, env, e, fuel);
  }

  lemma IdentSound(p: Program, g: T.Globals, sc: Scopes, env: Env, x: Name, fuel: Fuel)
    requires TypedProgram(p, g) && Typed(p, g, sc, env) && (x in env || x in GlobalsOf(p.funcs)) && NoneHidden(p, sc, env.Keys)
    ensures var c := T.CheckExpr(T.Strict, g, sc, Ident(x)); Plain(c.t) && ExprOk(p, g, EvalExpr(p, env, Ident(x), fuel), c.t)
  {
    hide T.Lookup, GlobalsOf, TypedProgram;
    if x in env { assert TypedName(p, g, sc, x, env[x]); } else { FunctionType(p, g, x); }
  }

  /** An accepted call calls a function with the arguments it is declared for. */
  lemma {:induction false} CallSound(p: Program, g: T.Globals, sc: Scopes, env: Env, e: Expr, fuel: Fuel)
    requires TypedProgram(p, g) && Typed(p, g, sc, env) && e.Call? && ResolvedExpr(p, env.Keys, e)
    requires NoneHidden(p, sc, env.Keys) && T.CheckExpr(T.Strict, g, sc, e).errors == 0
    ensures var c := T.CheckExpr(T.Strict, g, sc, e); Plain(c.t) && ExprOk(p, g, EvalExpr(p, env, e, fuel), c.t)
    decreases fuel.depth, fuel.turns, 1, e, 0
  {
    hide T.Lookup, GlobalsOf, NoneHidden, Typed, EvalArgs, T.CheckArgs, CallFunction, TypedFunc;
    ExprSound(p, g, sc, env, e.callee, fuel);
    var cv := EvalExpr(p, env, e.callee, fuel);
    var t := T.CheckExpr(T.Strict, g, sc, e.callee).t;
    var sig := g.sigs[t.sig];
    assert PlainSignature(sig);
    ArgsSound(p, g, sc, env, e.args, sig.params, fuel);
    var a := EvalArgs(p, env, e.args, fuel);
    if cv.Val? && a.Vals? {
      TypedFuncParts(p, g, cv.v.id);
      FuncSound(p, g, cv.v.id, a.vs, fuel);
    }
  }

  lemma TypedFuncParts(p: Program, g: T.Globals, id: nat)
    requires TypedProgram(p, g) && id < |p.funcs|
    ensures var d := p.funcs[id];
            d.name in g.names && g.names[d.name].Function? && g.names[d.name].sig in g.sigs &&
            |g.sigs[g.names[d.name].sig].params| == |d.params| && PlainSignature(g.sigs[g.names[d.name].sig])
  {
    hide T.CheckFunc, ResolvedFunc, EndsWell, SimpleStmt, PlainSignature;
    assert TypedFunc(p, g, p.funcs[id]);
  }

  ghost predicate ArgsOk(p: Program, g: T.Globals, r: ArgsResult, params: seq<Type>) {
    match r
    case Vals(vs) => |vs| == |params| && forall k | 0 <= k < |vs| :: HasType(p, g, vs[k], params[k])
    case ArgsFault(f) => Benign(f)
    case ArgsTimeout => true
  }

  lemma FitsType(p: Program, g: T.Globals, v: Value, t: Type, want: Type)
    requires HasType(p, g, v, t) && !T.Mismatch(T.Strict, want, t)
    ensures HasType(p, g, v, want)
  {
  }

  lemma {:induction false} ArgsSound(p: Program, g: T.Globals, sc: Scopes, env: Env, args: Args, params: seq<Type>, fuel: Fuel)
    requires TypedProgram(p, g) && Typed(p, g, sc, env) && ResolvedArgs(p, env.Keys, args)
    requires NoneHidden(p, sc, env.Keys) && ArgCount(args) == |params| && AllPlain(params)
    requires T.CheckArgs(T.Strict, g, sc, args, params) == 0
    ensures ArgsOk(p, g, EvalArgs(p, env, args, fuel), params)
    decreases fuel.depth, fuel.turns, 1, args
  {
    hide T.Lookup, GlobalsOf, TypedProgram, NoneHidden, Typed, EvalExpr, T.CheckExpr, HasType;
    if args.Arg? {
      ExprSound(p, g, sc, env, args.first, fuel);
      ArgsSound(p, g, sc, env, args.rest, params[1..], fuel);
      var r := EvalArgs(p, env, args.rest, fuel);
      if EvalExpr(p, env, args.first, fuel).Val? && r.Vals? {
        var vs := EvalArgs(p, env, args, fuel).vs;
        FitsType(p, g, vs[0], T.CheckExpr(T.Strict, g, sc, args.first).t, params[0]);
        forall k | 0 <= k < |params|
          ensures HasType(p, g, vs[k], params[k])
        {
          if k > 0 { assert vs[k] == r.vs[k - 1] && params[k] == params[1..][k - 1]; }
        }
      }
    }
  }

  lemma BinPlain(op: BinOp, lt: Type, rt: Type)
    requires Plain(lt) && Plain(rt)
    requires if op == And || op == Or then T.CheckLogical(lt, rt).errors == 0 else T.CheckBinary(T.Strict, op, lt, rt).errors == 0
    ensures Plain((if op == And || op == Or then T.CheckLogical(lt, rt) else T.CheckBinary(T.Strict, op, lt, rt)).t)
  {
  }

  lemma UnPlain(op: UnOp, t: Type)
    requires Plain(t) && T.CheckUnary(T.Strict, op, t).errors == 0
    ensures Plain(T.CheckUnary(T.Strict, op, t).t)
  {
  }

  // ----- what checking does to the scopes -----

  /** The checker knows live plain types for all names in scope. */
  ghost predicate Known(sc: Scopes, dom: set<Name>) {
    forall x <- dom :: KnownName(sc, x)
  }

  ghost predicate KnownName(sc: Scopes, x: Name) {
    var s := T.Lookup(sc, x); s.Some? && !s.value.moved && Plain(s.value.t)
  }

  ghost predicate Keeps(sc: Scopes, sc': Scopes, dom: set<Name>) {
    forall x <- dom :: T.Lookup(sc', x) == T.Lookup(sc, x)
  }

  lemma {:induction false} ExprPlain(p: Program, g: T.Globals, sc: Scopes, dom: set<Name>, e: Expr)
    requires TypedProgram(p, g) && Known(sc, dom) && NoneHidden(p, sc, dom) && ResolvedExpr(p, dom, e)
    requires T.CheckExpr(T.Strict, g, sc, e).errors == 0
    ensures Plain(T.CheckExpr(T.Strict, g, sc, e).t)
    decreases e
  {
    hide TypedFunc, T.CheckArgs, T.CheckBinary, T.CheckLogical, T.CheckUnary, T.Lookup, GlobalsOf;
    match e
    case IntLit(_) =>
    case BoolLit(_) =>
    case Ident(x) => if x in dom { assert KnownName(sc, x); } else { FunctionType(p, g, x); }
    case Call(c, _) =>
      ExprPlain(p, g, sc, dom, c);
      assert PlainSignature(g.sigs[T.CheckExpr(T.Strict, g, sc, c).t.sig]);
    case Binary(op, l, r) =>
      ExprPlain(p, g, sc, dom, l);
      ExprPlain(p, g, sc, dom, r);
      BinPlain(op, T.CheckExpr(T.Strict, g, sc, l).t, T.CheckExpr(T.Strict, g, sc, r).t);
    case Unary(op, a) =>
      ExprPlain(p, g, sc, dom, a);
      UnPlain(op, T.CheckExpr(T.Strict, g, sc, a).t);
  }

  /** Plain values are never given away. */
  lemma NothingMoved(p: Program, sc: Scopes, dom: set<Name>, e: Expr)
    requires T.HasScope(sc) && Known(sc, dom) && NoneHidden(p, sc, dom) && ResolvedExpr(p, dom, e)
    ensures T.MoveFrom(sc, e) == sc
  {
    hide GlobalsOf;
    if e.Ident? && e.x in dom { assert KnownName(sc, e.x); }
    if e.Ident? && e.x in T.Innermost(sc) { assert T.Lookup(sc, e.x).Some?; }
  }

  lemma DeclareKeeps(p: Program, sc: Scopes, dom: set<Name>, x: Name, t: Type, owned: bool)
    requires T.HasScope(sc) && NoneHidden(p, sc, dom)
    requires T.Declare(sc, x, t, owned).errors == 0
    ensures var r := T.Declare(sc, x, t, owned).sc;
            Keeps(sc, r, dom - {x}) && NoneHidden(p, r, dom + {x}) && T.Lookup(r, x) == Some(T.Symbol(t, owned, false))
  {
    hide GlobalsOf;
    var r := T.Declare(sc, x, t, owned).sc;
    assert r[..|r| - 1] == sc[..|sc| - 1];
    forall y | y != x
      ensures T.Lookup(r, y) == T.Lookup(sc, y)
    {
    }
  }

  lemma KeepsKnown(sc: Scopes, sc': Scopes, dom: set<Name>)
    requires Known(sc, dom) && Keeps(sc, sc', dom)
    ensures Known(sc', dom)
  {
    hide T.Lookup;
    forall x <- dom
      ensures KnownName(sc', x)
    {
      assert KnownName(sc, x);
    }
  }

  lemma EmptyScope(p: Program, sc: Scopes, dom: set<Name>)
    ensures Keeps(sc, sc + [map[]], dom)
    ensures NoneHidden(p, sc, dom) ==> NoneHidden(p, sc + [map[]], dom)
  {
    hide GlobalsOf;
    assert (sc + [map[]])[..|sc|] == sc;
  }

  /** Only the innermost scope can change. */
  ghost predicate OuterSame(sc: Scopes, sc': Scopes) {
    |sc'| == |sc| > 0 && sc'[..|sc| - 1] == sc[..|sc| - 1]
  }

  lemma MoveOuter(sc: Scopes, e: Expr)
    requires T.HasScope(sc)
    ensures OuterSame(sc, T.MoveFrom(sc, e))
  {
  }

  lemma DeclareOuter(sc: Scopes, x: Name, t: Type)
    requires T.HasScope(sc)
    ensures OuterSame(sc, T.Declare(sc, x, t, T.IsHeap(t)).sc)
  {
  }

  /** Checking a statement leaves all outer scopes exactly as they were, and a block leaves
      the innermost one too. */
  lemma {:induction false} StmtOuter(mode: T.Mode, g: T.Globals, result: Type, loops: nat, sc: Scopes, s: Stmt)
    requires T.HasScope(sc)
    ensures OuterSame(sc, T.CheckStmt(mode, g, result, loops, sc, s).sc)
    ensures s.Block? ==> T.CheckStmt(mode, g, result, loops, sc, s).sc == sc
    decreases s
  {
    hide T.CheckExpr, T.Resolve, T.CheckStmts, T.Declare, T.MoveFrom, T.Clash, T.CondError, OuterSame;
    OuterSelf(sc);
    match s
    case VarDecl(x, e) =>
      MoveOuter(sc, e);
      DeclareOuter(T.MoveFrom(sc, e), x, T.CheckExpr(mode, g, sc, e).t);
      OuterTransitive(sc, T.MoveFrom(sc, e), T.CheckStmt(mode, g, result, loops, sc, s).sc);
    case Assign(_, e) => MoveOuter(sc, e);
    case Block(body) =>
      StmtsOuter(mode, g, result, loops, sc + [map[]], body);
      Popped(sc, T.CheckStmts(mode, g, result, loops, sc + [map[]], body).sc);
    case If(_, t, els) =>
      StmtOuter(mode, g, result, loops, sc, t);
      if els.Some? {
        var a := T.CheckStmt(mode, g, result, loops, sc, t).sc;
        StmtOuter(mode, g, result, loops, a, els.value);
        OuterTransitive(sc, a, T.CheckStmt(mode, g, result, loops, a, els.value).sc);
      }
    case Loop(_, body) => StmtOuter(mode, g, result, loops + 1, sc, body);
    case _ =>
  }

  lemma OuterSelf(sc: Scopes)
    requires T.HasScope(sc)
    ensures OuterSame(sc, sc)
  {
  }

  lemma OuterTransitive(a: Scopes, b: Scopes, c: Scopes)
    requires OuterSame(a, b) && OuterSame(b, c)
    ensures OuterSame(a, c)
  {
  }

  lemma Popped(sc: Scopes, r: Scopes)
    requires OuterSame(sc + [map[]], r)
    ensures r[..|sc|] == sc
  {
    assert (sc + [map[]])[..|sc|] == sc;
  }

  lemma {:induction false} StmtsOuter(mode: T.Mode, g: T.Globals, result: Type, loops: nat, sc: Scopes, ss: Stmts)
    requires T.HasScope(sc)
    ensures OuterSame(sc, T.CheckStmts(mode, g, result, loops, sc, ss).sc)
    decreases ss
  {
    hide T.CheckExpr, T.Resolve, T.CheckStmt;
    if ss.Seq? {
      StmtOuter(mode, g, result, loops, sc, ss.head);
      StmtsOuter(mode, g, result, loops, T.CheckStmt(mode, g, result, loops, sc, ss.head).sc, ss.tail);
    }
  }

  ghost predicate Context(p: Program, g: T.Globals, sc: Scopes, dom: set<Name>) {
    T.HasScope(sc) && TypedProgram(p, g) && Known(sc, dom) && NoneHidden(p, sc, dom)
  }

  /** The name that a statement of a list hides. */
  function Hides(s: Stmt): set<Name> {
    if s.VarDecl? then {s.x} else {}
  }

  /** An accepted statement keeps what is known about the names in scope, but for the name that
      it hides, and makes a declared name known with the type of its initialiser. */
  lemma {:induction false} StmtKeeps(p: Program, g: T.Globals, result: Type, loops: nat, sc: Scopes, dom: set<Name>, s: Stmt)
    requires Context(p, g, sc, dom) && SimpleStmt(s) && ResolvedStmt(p, dom, s)
    requires T.CheckStmt(T.Strict, g, result, loops, sc, s).errors == 0
    ensures var r := T.CheckStmt(T.Strict, g, result, loops, sc, s).sc;
            Keeps(sc, r, dom - Hides(s)) && T.HasScope(r) && Context(p, g, r, ScopeAfter(dom, s))
    ensures s.VarDecl? ==> var r := T.CheckStmt(T.Strict, g, result, loops, sc, s).sc;
                           T.Lookup(r, s.x).Some? && T.Lookup(r, s.x).value.t == T.CheckExpr(T.Strict, g, sc, s.init).t
    decreases s
  {
    hide T.CheckExpr, T.Resolve, T.Lookup, GlobalsOf, TypedProgram, ResolvedExpr;
    match s
    case VarDecl(x, e) =>
      ExprPlain(p, g, sc, dom, e);
      NothingMoved(p, sc, dom, e);
      var t := T.CheckExpr(T.Strict, g, sc, e).t;
      DeclareKeeps(p, sc, dom, x, t, T.IsHeap(t));
      KeepsKnown(sc, T.CheckStmt(T.Strict, g, result, loops, sc, s).sc, dom - {x});
    case Assign(_, e) => NothingMoved(p, sc, dom, e);
    case Block(_) => StmtOuter(T.Strict, g, result, loops, sc, s);
    case If(_, t, els) =>
      StmtKeeps(p, g, result, loops, sc, dom, t);
      var a := T.CheckStmt(T.Strict, g, result, loops, sc, t).sc;
      ArmContext(p, g, a, dom, t);
      if els.Some? {
        StmtKeeps(p, g, result, loops, a, dom, els.value);
        ArmContext(p, g, T.CheckStmt(T.Strict, g, result, loops, a, els.value).sc, dom, els.value);
      }
    case Loop(_, body) =>
      StmtKeeps(p, g, result, loops + 1, sc, dom, body);
      ArmContext(p, g, T.CheckStmt(T.Strict, g, result, loops + 1, sc, body).sc, dom, body);
    case _ =>
  }

  /** What is known after an arm covers the names known before it. */
  lemma ArmContext(p: Program, g: T.Globals, sc: Scopes, dom: set<Name>, s: Stmt)
    requires Context(p, g, sc, ScopeAfter(dom, s)) && ResolvedArm(p, dom, s)
    ensures Context(p, g, sc, dom) && dom - Hides(s) == dom
  {
    hide KnownName, TypedProgram, T.Lookup, GlobalsOf, ResolvedStmt;
  }

  lemma ArmKeeps(p: Program, g: T.Globals, result: Type, loops: nat, sc: Scopes, dom: set<Name>, s: Stmt)
    requires Context(p, g, sc, dom) && SimpleStmt(s) && ResolvedArm(p, dom, s)
    requires T.CheckStmt(T.Strict, g, result, loops, sc, s).errors == 0
    ensures var r := T.CheckStmt(T.Strict, g, result, loops, sc, s).sc; Keeps(sc, r, dom) && Context(p, g, r, dom)
    ensures ResolvedStmt(p, dom, s)
  {
    hide Context, Keeps, GlobalsOf, ResolvedStmt, SimpleStmt, T.CheckStmt;
    StmtKeeps(p, g, result, loops, sc, dom, s);
    ArmContext(p, g, T.CheckStmt(T.Strict, g, result, loops, sc, s).sc, dom, s);
  }

  // ----- running accepted statements -----

  /** What may come of a statement in a function with this result type, inside `loops` loops. */
  ghost predicate OutcomeOk(p: Program, g: T.Globals, result: Type, loops: nat, sc: Scopes, o: Outcome) {
    match o
    case Failed(f) => Benign(f)
    case Timeout => true
    case Returned(v) => HasType(p, g, v, result)
    case Normal(env) => Typed(p, g, sc, env)
    case Broke(env) => loops > 0 && Typed(p, g, sc, env)
    case Continued(env) => loops > 0 && Typed(p, g, sc, env)
    case Exited(env) => result.Unknown? && Typed(p, g, sc, env)
  }

  lemma TypedPart(p: Program, g: T.Globals, sc: Scopes, env: Env, x: Name)
    requires Typed(p, g, sc, env)
    ensures Typed(p, g, sc, env - {x})
  {
    hide TypedName;
  }

  lemma TypedKept(p: Program, g: T.Globals, sc: Scopes, sc': Scopes, env: Env)
    requires Typed(p, g, sc, env) && Keeps(sc, sc', env.Keys)
    ensures Typed(p, g, sc', env)
  {
    hide T.Lookup;
    forall x <- env
      ensures TypedName(p, g, sc', x, env[x])
    {
      assert TypedName(p, g, sc, x, env[x]);
    }
  }

  lemma TypedRestrict(p: Program, g: T.Globals, result: Type, loops: nat, sc: Scopes, sc': Scopes, o: Outcome, dom: set<Name>)
    requires OutcomeOk(p, g, result, loops, sc, o) && Keeps(sc, sc', dom)
    ensures OutcomeOk(p, g, result, loops, sc', Leave(o, dom))
  {
    hide T.Lookup;
    if HasEnv(o) {
      var env := Restrict(o.env, dom);
      forall x <- env
        ensures TypedName(p, g, sc', x, env[x])
      {
        assert TypedName(p, g, sc, x, o.env[x]);
      }
    }
  }

  lemma TypedUpdate(p: Program, g: T.Globals, sc: Scopes, env: Env, x: Name, v: Value)
    requires Typed(p, g, sc, env) && KnownName(sc, x) && HasType(p, g, v, T.Lookup(sc, x).value.t)
    ensures Typed(p, g, sc, env[x := v])
  {
    hide T.Lookup;
    var env' := env[x := v];
    forall y <- env'
      ensures TypedName(p, g, sc, y, env'[y])
    {
      if y != x { assert TypedName(p, g, sc, y, env[y]); }
    }
  }

  lemma TypedKnown(p: Program, g: T.Globals, sc: Scopes, env: Env)
    requires Typed(p, g, sc, env)
    ensures Known(sc, env.Keys)
  {
    hide T.Lookup;
    forall x <- env.Keys
      ensures KnownName(sc, x)
    {
      assert TypedName(p, g, sc, x, env[x]);
    }
  }

  /** The situation in which an accepted statement starts. */
  ghost predicate Running(p: Program, g: T.Globals, result: Type, sc: Scopes, env: Env, s: Stmt) {
    && Plain(result) && T.HasScope(sc) && TypedProgram(p, g) && NoneHidden(p, sc, env.Keys) && Typed(p, g, sc, env)
    && SimpleStmt(s) && ResolvedStmt(p, env.Keys, s)
  }

  lemma RunningContext(p: Program, g: T.Globals, result: Type, sc: Scopes, env: Env, s: Stmt)
    requires Running(p, g, result, sc, env, s)
    ensures Context(p, g, sc, env.Keys)
  {
    hide TypedProgram, NoneHidden, Typed, Known, SimpleStmt, ResolvedStmt;
    TypedKnown(p, g, sc, env);
  }

  /** No accepted statement fails for a wrong operand type, an unknown name or a call. */
  lemma {:induction false} StmtSound(p: Program, g: T.Globals, result: Type, loops: nat, sc: Scopes, env: Env, s: Stmt,
                                     fuel: Fuel)
    requires Running(p, g, result, sc, env, s) && T.CheckStmt(T.Strict, g, result, loops, sc, s).errors == 0
    ensures OutcomeOk(p, g, result, loops, T.CheckStmt(T.Strict, g, result, loops, sc, s).sc, ExecStmt(p, env, s, fuel))
    decreases fuel.depth, fuel.turns, 2, s, 1
  {
    hide T.CheckExpr, T.Resolve, T.Lookup, GlobalsOf, TypedProgram, NoneHidden, EvalExpr, ExecLoop, ExecStmts,
         T.CheckStmts, ApplyBin, Typed, Keeps, T.Declare, ResolvedExpr, Context;
    RunningContext(p, g, result, sc, env, s);
    StmtKeeps(p, g, result, loops, sc, env.Keys, s);
    match s
    case ExprStmt(e) =>
      ExprSound(p, g, sc, env, e, fuel);
    case VarDecl(_, _) => DeclSound(p, g, result, loops, sc, env, s, fuel);
    case Assign(_, _) => AssignSound(p, g, result, loops, sc, env, s, fuel);
    case CompoundAssign(_, _, _) => CompoundSound(p, g, result, loops, sc, env, s, fuel);
    case Block(_) => BlockSound(p, g, result, loops, sc, env, s, fuel);
    case If(_, _, _) => IfSound(p, g, result, loops, sc, env, s, fuel);
    case Loop(_, _) =>
      LoopSound(p, g, result, loops, sc, env, s, fuel);
    case Break =>
    case Continue =>
    case Return(e) => if e.Some? { ExprSound(p, g, sc, env, e.value, fuel); }
  }

  lemma DeclSound(p: Program, g: T.Globals, result: Type, loops: nat, sc: Scopes, env: Env, s: Stmt, fuel: Fuel)
    requires s.VarDecl? && Running(p, g, result, sc, env, s) && T.CheckStmt(T.Strict, g, result, loops, sc, s).errors == 0
    ensures OutcomeOk(p, g, result, loops, T.CheckStmt(T.Strict, g, result, loops, sc, s).sc, ExecStmt(p, env, s, fuel))
    decreases fuel.depth, fuel.turns, 2, s, 0
  {
    hide T.CheckExpr, T.Lookup, GlobalsOf, EvalExpr, ResolvedExpr, NoneHidden, TypedProgram, T.Declare, Typed, Keeps,
         Known;
    RunningContext(p, g, result, sc, env, s);
    StmtKeeps(p, g, result, loops, sc, env.Keys, s);
    var r := T.CheckStmt(T.Strict, g, result, loops, sc, s).sc;
    ExprSound(p, g, sc, env, s.init, fuel);
    var others := env - {s.x};
    TypedPart(p, g, sc, env, s.x);
    assert others.Keys == env.Keys - Hides(s);
    TypedKept(p, g, sc, r, others);
    var v := EvalExpr(p, env, s.init, fuel);
    KnownOne(r, ScopeAfter(env.Keys, s), s.x);
    if v.Val? {
      TypedUpdate(p, g, r, others, s.x, v.v);
      assert others[s.x := v.v] == env[s.x := v.v];
    }
  }

  lemma KnownOne(sc: Scopes, dom: set<Name>, x: Name)
    requires Known(sc, dom) && x in dom
    ensures KnownName(sc, x)
  {
    hide T.Lookup;
  }

  lemma AssignSound(p: Program, g: T.Globals, result: Type, loops: nat, sc: Scopes, env: Env, s: Stmt, fuel: Fuel)
    requires s.Assign? && Running(p, g, result, sc, env, s) && T.CheckStmt(T.Strict, g, result, loops, sc, s).errors == 0
    ensures OutcomeOk(p, g, result, loops, T.CheckStmt(T.Strict, g, result, loops, sc, s).sc, ExecStmt(p, env, s, fuel))
    decreases fuel.depth, fuel.turns, 2, s, 0
  {
    hide T.CheckExpr, T.Lookup, GlobalsOf, EvalExpr, ResolvedExpr, NoneHidden, TypedProgram, T.MarkMoved, Typed,
         Known;
    TypedKnown(p, g, sc, env);
    KnownOne(sc, env.Keys, s.target);
    ExprSound(p, g, sc, env, s.value, fuel);
    NothingMoved(p, sc, env.Keys, s.value);
    var v := EvalExpr(p, env, s.value, fuel);
    if v.Val? { TypedUpdate(p, g, sc, env, s.target, v.v); }
  }

  lemma CompoundSound(p: Program, g: T.Globals, result: Type, loops: nat, sc: Scopes, env: Env, s: Stmt, fuel: Fuel)
    requires s.CompoundAssign? && Running(p, g, result, sc, env, s) && T.CheckStmt(T.Strict, g, result, loops, sc, s).errors == 0
    ensures OutcomeOk(p, g, result, loops, T.CheckStmt(T.Strict, g, result, loops, sc, s).sc, ExecStmt(p, env, s, fuel))
    decreases fuel.depth, fuel.turns, 2, s, 0
  {
    hide T.CheckExpr, T.Lookup, GlobalsOf, EvalExpr, ResolvedExpr, NoneHidden, TypedProgram, ApplyBin, Typed, Known;
    TypedKnown(p, g, sc, env);
    KnownOne(sc, env.Keys, s.target);
    ExprSound(p, g, sc, env, s.value, fuel);
    var v := EvalExpr(p, env, s.value, fuel);
    if v.Val? {
      TypedOne(p, g, sc, env, s.target);
      CompoundOp(s.op, env[s.target], v.v);
      var r := ApplyBin(s.op, env[s.target], v.v);
      if r.Ok? { TypedUpdate(p, g, sc, env, s.target, r.value); }
    }
  }

  lemma TypedOne(p: Program, g: T.Globals, sc: Scopes, env: Env, x: Name)
    requires Typed(p, g, sc, env) && x in env
    ensures TypedName(p, g, sc, x, env[x])
  {
    hide T.Lookup;
  }

  lemma CompoundOp(op: BinOp, l: Value, r: Value)
    requires op in {Add, Sub, Mul, Div, Mod} && l.Int? && r.Int?
    ensures match ApplyBin(op, l, r) case Ok(v) => v.Int? case Err(f) => Benign(f)
  {
    hide TruncDiv, TruncMod;
  }

  lemma BlockSound(p: Program, g: T.Globals, result: Type, loops: nat, sc: Scopes, env: Env, s: Stmt, fuel: Fuel)
    requires s.Block? && Running(p, g, result, sc, env, s) && T.CheckStmt(T.Strict, g, result, loops, sc, s).errors == 0
    ensures OutcomeOk(p, g, result, loops, T.CheckStmt(T.Strict, g, result, loops, sc, s).sc, ExecStmt(p, env, s, fuel))
    decreases fuel.depth, fuel.turns, 2, s, 0
  {
    hide T.Lookup, GlobalsOf, ExecStmts, T.CheckStmts, NoneHidden, TypedProgram, Typed, Keeps, Known, ResolvedStmts,
         SimpleStmts;
    var inner := sc + [map[]];
    EmptyScope(p, sc, env.Keys);
    TypedKept(p, g, sc, inner, env);
    TypedKnown(p, g, inner, env);
    StmtsSound(p, g, result, loops, inner, env, s.body, fuel);
    StmtOuter(T.Strict, g, result, loops, sc, s);
    KeepsSelf(inner, env.Keys);
    KeepsBack(sc, inner, inner, env.Keys);
    LeaveTwice(ExecStmts(p, env, s.body, fuel), env.Keys);
    TypedRestrict(p, g, result, loops, inner, sc, Leave(ExecStmts(p, env, s.body, fuel), env.Keys), env.Keys);
  }

  lemma LeaveTwice(o: Outcome, dom: set<Name>)
    ensures Leave(Leave(o, dom), dom) == Leave(o, dom)
  {
    if HasEnv(o) { assert Restrict(Restrict(o.env, dom), dom) == Restrict(o.env, dom); }
  }

  lemma KeepsBack(a: Scopes, b: Scopes, c: Scopes, dom: set<Name>)
    requires Keeps(a, b, dom) && Keeps(b, c, dom)
    ensures Keeps(c, a, dom) && Keeps(a, c, dom)
  {
    hide T.Lookup;
  }

  lemma IfSound(p: Program, g: T.Globals, result: Type, loops: nat, sc: Scopes, env: Env, s: Stmt, fuel: Fuel)
    requires s.If? && Running(p, g, result, sc, env, s) && T.CheckStmt(T.Strict, g, result, loops, sc, s).errors == 0
    ensures OutcomeOk(p, g, result, loops, T.CheckStmt(T.Strict, g, result, loops, sc, s).sc, ExecStmt(p, env, s, fuel))
    decreases fuel.depth, fuel.turns, 2, s, 0
  {
    hide T.CheckExpr, T.Lookup, GlobalsOf, EvalExpr, NoneHidden, TypedProgram, Typed, Keeps, Known, ResolvedExpr;
    RunningContext(p, g, result, sc, env, s);
    ExprSound(p, g, sc, env, s.cond, fuel);
    ArmKeeps(p, g, result, loops, sc, env.Keys, s.thn);
    var a := T.CheckStmt(T.Strict, g, result, loops, sc, s.thn).sc;
    var r := T.CheckStmt(T.Strict, g, result, loops, sc, s).sc;
    KeepsSelf(a, env.Keys);
    if s.els.Some? { ArmKeeps(p, g, result, loops, a, env.Keys, s.els.value); }
    KeepsBack(sc, a, r, env.Keys);
    var v := EvalExpr(p, env, s.cond, fuel);
    if v.Val? {
      if BranchTruth(v.v) {
        StmtSound(p, g, result, loops, sc, env, s.thn, fuel);
        TypedRestrict(p, g, result, loops, a, r, ExecStmt(p, env, s.thn, fuel), env.Keys);
      } else if s.els.Some? {
        TypedKept(p, g, sc, a, env);
        StmtSound(p, g, result, loops, a, env, s.els.value, fuel);
        KeepsSelf(r, env.Keys);
        TypedRestrict(p, g, result, loops, r, r, ExecStmt(p, env, s.els.value, fuel), env.Keys);
      } else {
        TypedKept(p, g, sc, r, env);
      }
    }
  }

  lemma KeepsSelf(sc: Scopes, dom: set<Name>)
    ensures Keeps(sc, sc, dom)
  {
  }

  lemma LoopCheck(g: T.Globals, result: Type, loops: nat, sc: Scopes, s: Stmt)
    requires s.Loop? && T.HasScope(sc) && T.CheckStmt(T.Strict, g, result, loops, sc, s).errors == 0
    ensures s.guard.Some? ==> T.CheckExpr(T.Strict, g, sc, s.guard.value).errors == 0
    ensures var r := T.CheckStmt(T.Strict, g, result, loops + 1, sc, s.loopBody);
            r.errors == 0 && T.CheckStmt(T.Strict, g, result, loops, sc, s).sc == r.sc
  {
    hide T.CheckExpr;
  }

  lemma {:induction false} LoopSound(p: Program, g: T.Globals, result: Type, loops: nat, sc: Scopes, env: Env, s: Stmt,
                                     fuel: Fuel)
    requires s.Loop? && Running(p, g, result, sc, env, s) && T.CheckStmt(T.Strict, g, result, loops, sc, s).errors == 0
    ensures OutcomeOk(p, g, result, loops, T.CheckStmt(T.Strict, g, result, loops, sc, s).sc, ExecLoop(p, env, s, fuel))
    decreases fuel.depth, fuel.turns, 2, s, 0
  {
    hide T.CheckExpr, T.Lookup, GlobalsOf, EvalExpr, ExecStmt, ExecLoop, NoneHidden, TypedProgram, Typed, Keeps,
         Known, ResolvedExpr, HasType, T.CheckStmt;
    LoopCheck(g, result, loops, sc, s);
    IterationParts(p, env, s, fuel);
    RunningContext(p, g, result, sc, env, s);
    if s.guard.Some? { ExprSound(p, g, sc, env, s.guard.value, fuel); }
    ArmKeeps(p, g, result, loops + 1, sc, env.Keys, s.loopBody);
    var r := T.CheckStmt(T.Strict, g, result, loops + 1, sc, s.loopBody).sc;
    TypedKept(p, g, sc, r, env);
    StmtSound(p, g, result, loops + 1, sc, env, s.loopBody, fuel);
    KeepsSelf(sc, env.Keys);
    KeepsBack(sc, sc, r, env.Keys);
    var o := ExecStmt(p, env, s.loopBody, fuel);
    TypedRestrict(p, g, result, loops + 1, r, sc, o, env.Keys);
    var b := Leave(o, env.Keys);
    if HasEnv(b) {
      TypedKept(p, g, sc, r, b.env);
      if fuel.turns > 0 && (b.Normal? || b.Continued?) { LoopSound(p, g, result, loops, sc, b.env, s, AfterTurn(fuel)); }
    }
  }

  /** Outside the list the names that were in scope before it have their types again, those
      that it hid included. */
  lemma {:induction false} StmtsSound(p: Program, g: T.Globals, result: Type, loops: nat, sc: Scopes, env: Env, ss: Stmts,
                                      fuel: Fuel)
    requires Plain(result) && T.HasScope(sc) && TypedProgram(p, g) && NoneHidden(p, sc, env.Keys) && Typed(p, g, sc, env)
    requires SimpleStmts(ss) && ResolvedStmts(p, env.Keys, ss)
    requires T.CheckStmts(T.Strict, g, result, loops, sc, ss).errors == 0
    ensures OutcomeOk(p, g, result, loops, sc, Leave(ExecStmts(p, env, ss, fuel), env.Keys))
    decreases fuel.depth, fuel.turns, 2, ss
  {
    hide T.CheckStmt, T.Lookup, GlobalsOf, ExecStmt, NoneHidden, TypedProgram, Typed, Keeps, Known, ResolvedStmt,
         SimpleStmt;
    if ss.Done? {
      KeepsSelf(sc, env.Keys);
      TypedRestrict(p, g, result, loops, sc, sc, Normal(env), env.Keys);
    } else {
      var s := ss.head;
      TypedKnown(p, g, sc, env);
      StmtKeeps(p, g, result, loops, sc, env.Keys, s);
      StmtSound(p, g, result, loops, sc, env, s, fuel);
      ExecKeepsNames(p, env, s, fuel);
      var o := ExecStmt(p, env, s, fuel);
      var a := T.CheckStmt(T.Strict, g, result, loops, sc, s).sc;
      if o.Normal? {
        StmtsSound(p, g, result, loops, a, o.env, ss.tail, fuel);
        Unhidden(p, g, result, loops, sc, a, env, s, o.env, ExecStmts(p, o.env, ss.tail, fuel));
      } else if HasEnv(o) {
        OnlyNormal(p, env, s, fuel);
        assert env.Keys - Hides(s) == env.Keys;
        KeepsSelf(a, env.Keys);
        KeepsBack(sc, a, a, env.Keys);
        TypedRestrict(p, g, result, loops, a, sc, o, env.Keys);
      }
    }
  }

  /** A declaration completes, or gives no scope. */
  lemma OnlyNormal(p: Program, env: Env, s: Stmt, fuel: Fuel)
    requires HasEnv(ExecStmt(p, env, s, fuel)) && !ExecStmt(p, env, s, fuel).Normal?
    ensures Hides(s) == {}
  {
    hide EvalExpr;
  }

  /** The rest of a list, seen from before its first statement. */
  lemma Unhidden(p: Program, g: T.Globals, result: Type, loops: nat, sc: Scopes, a: Scopes, env: Env, s: Stmt, mid: Env,
                 r: Outcome)
    requires Typed(p, g, sc, env) && Keeps(sc, a, env.Keys - Hides(s)) && mid.Keys == ScopeAfter(env.Keys, s)
    requires OutcomeOk(p, g, result, loops, a, Leave(r, mid.Keys))
    ensures OutcomeOk(p, g, result, loops, sc, Leave(Reveal(env, s, r), env.Keys))
  {
    hide T.Lookup;
    var o := Leave(Reveal(env, s, r), env.Keys);
    if HasEnv(o) {
      var m := Leave(r, mid.Keys).env;
      forall x <- o.env
        ensures TypedName(p, g, sc, x, o.env[x])
      {
        assert TypedName(p, g, sc, x, env[x]);
        if x !in Hides(s) { assert x in m && TypedName(p, g, a, x, m[x]); }
      }
    }
  }

  // ----- whole functions -----

  /** The parameters' scope describes the argument values. */
  lemma {:induction false} ParamsTyped(p: Program, g: T.Globals, params: seq<Name>, ts: seq<Type>, vs: seq<Value>)
    requires |params| == |ts| == |vs| && (forall k | 0 <= k < |ts| :: Plain(ts[k]) && HasType(p, g, vs[k], ts[k]))
    requires T.DeclareParams(params, ts).errors == 0
    ensures var sc, env := T.DeclareParams(params, ts).sc, BindParams(params, vs);
            NoneHidden(p, sc, env.Keys) && Typed(p, g, sc, env)
    decreases |params|
  {
    hide GlobalsOf;
    if params == [] {
      NoNames(p);
    } else {
      var n := |params| - 1;
      var sc := T.DeclareParams(params[..n], ts[..n]).sc;
      var env := BindParams(params[..n], vs[..n]);
      ParamsTyped(p, g, params[..n], ts[..n], vs[..n]);
      ParamFresh(params[..n], ts[..n], params[n]);
      DeclareKeeps(p, sc, env.Keys, params[n], ts[n], false);
      var r := T.DeclareParams(params, ts).sc;
      assert env.Keys - {params[n]} == env.Keys;
      TypedKept(p, g, sc, r, env);
      TypedUpdate(p, g, r, env, params[n], vs[n]);
    }
  }

  lemma NoName(x: Name)
    ensures T.Lookup([map[]], x).None?
  {
  }

  lemma NoNames(p: Program)
    ensures NoneHidden(p, [map[]], {})
  {
    hide GlobalsOf, T.Lookup;
    forall x <- GlobalsOf(p.funcs)
      ensures T.Lookup([map[]], x).None?
    {
      NoName(x);
    }
  }

  lemma {:induction false} ParamFresh(params: seq<Name>, ts: seq<Type>, x: Name)
    requires |params| == |ts| && T.DeclareParams(params, ts).errors == 0
    requires T.Declare(T.DeclareParams(params, ts).sc, x, T.Integer, false).errors == 0
    ensures x !in params
    decreases |params|
  {
    if params != [] {
      var n := |params| - 1;
      assert params == params[..n] + [params[n]];
      ParamFresh(params[..n], ts[..n], x);
    }
  }

  lemma {:induction false} ParamLookup(params: seq<Name>, ts: seq<Type>, k: nat)
    requires |params| == |ts| && k < |params| && T.DeclareParams(params, ts).errors == 0
    ensures T.Lookup(T.DeclareParams(params, ts).sc, params[k]) == Some(T.Symbol(ts[k], false, false))
    decreases |params|
  {
    var n := |params| - 1;
    var sc := T.DeclareParams(params[..n], ts[..n]).sc;
    var m := T.DeclareParams(params, ts).sc;
    assert m[..|m| - 1] == sc[..|sc| - 1];
    if k < n {
      ParamLookup(params[..n], ts[..n], k);
      ParamFresh(params[..n], ts[..n], params[n]);
      assert params[k] in params[..n];
    }
  }

  ghost predicate ResultOk(p: Program, g: T.Globals, r: RunResult, t: Type) {
    match r
    case Result(v) => HasType(p, g, v, t)
    case UnspecifiedResult => t.Unknown?
    case RunFault(f) => Benign(f)
    case OutOfFuel => true
  }

  /** A call of a function of an accepted module, with arguments of the parameter types, gives
      a value of the declared result type, or stops for an arithmetic reason. */
  lemma {:induction false} FuncSound(p: Program, g: T.Globals, id: nat, vs: seq<Value>, fuel: Fuel)
    requires TypedProgram(p, g) && id < |p.funcs|
    requires var d := p.funcs[id];
             d.name in g.names && g.names[d.name].Function? && g.names[d.name].sig in g.sigs &&
             var ts := g.sigs[g.names[d.name].sig].params;
             |d.params| == |ts| == |vs| && forall k | 0 <= k < |ts| :: HasType(p, g, vs[k], ts[k])
    ensures ResultOk(p, g, CallFunction(p, id, vs, fuel), g.sigs[g.names[p.funcs[id].name].sig].result)
    decreases fuel.depth, fuel.turns, 0
  {
    hide GlobalsOf, ExecStmt, T.CheckStmt, ResolvedStmt, SimpleStmt, NoneHidden, Typed, T.DeclareParams, BindParams,
         Distinct, HasType, T.Lookup, ResultOk;
    var d := p.funcs[id];
    var sig := g.sigs[g.names[d.name].sig];
    assert TypedFunc(p, g, d);
    assert PlainSignature(sig);
    ParamsTyped(p, g, d.params, sig.params, vs);
    var env := BindParams(d.params, vs);
    assert env.Keys == Params(d);
    var sc := T.DeclareParams(d.params, sig.params).sc;
    if fuel.depth > 0 {
      StmtSound(p, g, sig.result, 0, sc, env, d.body, InCall(fuel));
      FinishSound(p, g, d, sig, env, InCall(fuel));
    } else {
      NoFuel(p, g, sig.result);
    }
  }

  lemma NoFuel(p: Program, g: T.Globals, t: Type)
    ensures ResultOk(p, g, OutOfFuel, t)
  {
  }

  /** The value of an activation that ends well: what was returned, or the first parameter. */
  lemma FinishSound(p: Program, g: T.Globals, d: FuncDecl, sig: T.FuncSignature, env: Env, fuel: Fuel)
    requires |d.params| == |sig.params| && EndsWell(d, sig) && PlainSignature(sig)
    requires T.DeclareParams(d.params, sig.params).errors == 0
    requires TypedProgram(p, g) && SimpleStmt(d.body) && ResolvedFunc(p, d) && env.Keys == Params(d)
    requires var sc := T.DeclareParams(d.params, sig.params).sc;
             var c := T.CheckStmt(T.Strict, g, sig.result, 0, sc, d.body);
             NoneHidden(p, sc, env.Keys) && Typed(p, g, sc, env) && c.errors == 0 &&
             OutcomeOk(p, g, sig.result, 0, c.sc, ExecStmt(p, env, d.body, fuel))
    ensures ResultOk(p, g, Finish(d, ExecStmt(p, env, d.body, fuel)), sig.result)
  {
    hide GlobalsOf, ExecStmt, T.CheckStmt, ResolvedStmt, SimpleStmt, TypedProgram, NoneHidden, T.DeclareParams,
         Distinct, T.Lookup, Typed, Returns;
    var o := ExecStmt(p, env, d.body, fuel);
    if o.Normal? && !sig.result.Unknown? {
      if Returns(d.body) {
        ReturnsSound(p, env, d.body, fuel);
      } else {
        var sc := T.DeclareParams(d.params, sig.params).sc;
        var r := T.CheckStmt(T.Strict, g, sig.result, 0, sc, d.body).sc;
        var x := d.params[0];
        TypedKnown(p, g, sc, env);
        ArmKeeps(p, g, sig.result, 0, sc, env.Keys, d.body);
        ParamLookup(d.params, sig.params, 0);
        ExecKeepsNames(p, env, d.body, fuel);
        assert x in env.Keys;
        TypedOne(p, g, r, o.env, x);
      }
    }
  }

  /** Whatever passes strict checking passes the checker. */
  lemma {:induction false} StrictExpr(g: T.Globals, sc: Scopes, e: Expr)
    ensures T.CheckExpr(T.Lax, g, sc, e).t == T.CheckExpr(T.Strict, g, sc, e).t
    ensures T.CheckExpr(T.Lax, g, sc, e).errors <= T.CheckExpr(T.Strict, g, sc, e).errors
    decreases e
  {
    hide T.Lookup;
    match e
    case Binary(_, l, r) =>
      StrictExpr(g, sc, l);
      StrictExpr(g, sc, r);
    case Unary(_, a) => StrictExpr(g, sc, a);
    case Call(c, args) =>
      StrictExpr(g, sc, c);
      var t := T.CheckExpr(T.Strict, g, sc, c).t;
      if t.Function? && t.sig in g.sigs { StrictArgs(g, sc, args, g.sigs[t.sig].params); }
    case _ =>
  }

  lemma {:induction false} StrictArgs(g: T.Globals, sc: Scopes, args: Args, params: seq<Type>)
    ensures T.CheckArgs(T.Lax, g, sc, args, params) <= T.CheckArgs(T.Strict, g, sc, args, params)
    decreases args
  {
    hide T.Lookup, T.CheckExpr;
    if args.Arg? {
      StrictExpr(g, sc, args.first);
      StrictArgs(g, sc, args.rest, if params == [] then [] else params[1..]);
    }
  }

  lemma {:induction false} StrictStmt(g: T.Globals, result: Type, loops: nat, sc: Scopes, s: Stmt)
    requires T.HasScope(sc)
    ensures var a, b := T.CheckStmt(T.Lax, g, result, loops, sc, s), T.CheckStmt(T.Strict, g, result, loops, sc, s);
            a.sc == b.sc && a.errors <= b.errors
    decreases s
  {
    hide T.CheckExpr, T.Lookup;
    match s
    case ExprStmt(e) => StrictExpr(g, sc, e);
    case VarDecl(_, e) => StrictExpr(g, sc, e);
    case Assign(_, e) => StrictExpr(g, sc, e);
    case CompoundAssign(_, _, e) => StrictExpr(g, sc, e);
    case Block(body) => StrictStmts(g, result, loops, sc + [map[]], body);
    case If(c, t, els) =>
      StrictExpr(g, sc, c);
      StrictStmt(g, result, loops, sc, t);
      if els.Some? { StrictStmt(g, result, loops, T.CheckStmt(T.Strict, g, result, loops, sc, t).sc, els.value); }
    case Loop(guard, body) =>
      if guard.Some? { StrictExpr(g, sc, guard.value); }
      StrictStmt(g, result, loops + 1, sc, body);
    case Return(e) => if e.Some? { StrictExpr(g, sc, e.value); }
    case _ =>
  }

  lemma {:induction false} StrictStmts(g: T.Globals, result: Type, loops: nat, sc: Scopes, ss: Stmts)
    requires T.HasScope(sc)
    ensures var a, b := T.CheckStmts(T.Lax, g, result, loops, sc, ss), T.CheckStmts(T.Strict, g, result, loops, sc, ss);
            a.sc == b.sc && a.errors <= b.errors
    decreases ss
  {
    hide T.CheckStmt;
    if ss.Seq? {
      StrictStmt(g, result, loops, sc, ss.head);
      StrictStmts(g, result, loops, T.CheckStmt(T.Strict, g, result, loops, sc, ss.head).sc, ss.tail);
    }
  }
}
