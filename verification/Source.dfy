/**
 The source trees the IR builder consumes and a reference interpreter for them.
 Names are string-pool ids.  `var` and `const` declarations are the same statement:
 checker and builder treat them alike.
 */
module Source {
  import opened Values

  type Name = NameId

  datatype Expr =
    | IntLit(i: int)
    | BoolLit(b: bool)
    | Ident(x: Name)
    | Binary(op: BinOp, left: Expr, right: Expr)
    | Unary(uop: UnOp, operand: Expr)
    | Call(callee: Expr, args: Args)

  datatype Args = NoArgs | Arg(first: Expr, rest: Args)

  datatype Stmt =
    | ExprStmt(e: Expr)
    | VarDecl(x: Name, init: Expr)
    | Assign(target: Name, value: Expr)
    | CompoundAssign(target: Name, op: BinOp, value: Expr)
    | Block(body: Stmts)
    | If(cond: Expr, thn: Stmt, els: Option<Stmt>)
    | Loop(guard: Option<Expr>, loopBody: Stmt)
    | Break
    | Continue
    | Return(result: Option<Expr>)

  datatype Stmts = Done | Seq(head: Stmt, tail: Stmts)

  datatype FuncDecl = FuncDecl(name: Name, params: seq<Name>, body: Stmt)

  datatype Program = Program(funcs: seq<FuncDecl>)

  type Env = map<Name, Value>

  /** The function table that running the init chunk leaves behind: name to function
      number, a later definition replacing an earlier one. */
  function GlobalsOf(funcs: seq<FuncDecl>): (g: map<Name, nat>)
    ensures forall x <- g :: g[x] < |funcs| && funcs[g[x]].name == x
    ensures forall i | 0 <= i < |funcs| :: funcs[i].name in g
  {
    if funcs == [] then map[]
    else
      var n := |funcs| - 1;
      GlobalsOf(funcs[..n])[funcs[n].name := n]
  }

  function ArgCount(args: Args): nat {
    match args
    case NoArgs => 0
    case Arg(_, rest) => 1 + ArgCount(rest)
  }

  // ----- reference interpreter -----

  /** What an interpretation may spend: turns of a loop, those of the loops around it included,
      and calls inside one another. */
  datatype Fuel = Fuel(turns: nat, depth: nat)

  function AfterTurn(fuel: Fuel): Fuel
    requires fuel.turns > 0
  {
    Fuel(fuel.turns - 1, fuel.depth)
  }

  function InCall(fuel: Fuel): Fuel
    requires fuel.depth > 0
  {
    Fuel(fuel.turns, fuel.depth - 1)
  }

  datatype ExprResult = Val(v: Value) | ExprFault(f: Fault) | ExprTimeout

  datatype ArgsResult = Vals(vs: seq<Value>) | ArgsFault(f: Fault) | ArgsTimeout

  datatype Outcome =
    | Normal(env: Env)
    | Broke(env: Env)
    | Continued(env: Env)
    | Returned(v: Value)
    | Exited(env: Env)
    | Failed(f: Fault)
    | Timeout

  /** How a whole function activation ends.  A function that falls off its end, or says
      `return;`, yields register 0, which holds its first parameter; without parameters
      nothing is promised about the value. */
  datatype RunResult = Result(v: Value) | UnspecifiedResult | RunFault(f: Fault) | OutOfFuel

  /** Names declared inside a nested statement are gone after it. */
  function Restrict(env: Env, dom: set<Name>): (r: Env)
    ensures r.Keys == env.Keys * dom
    ensures forall x <- r :: r[x] == env[x]
  {
    map x | x in env && x in dom :: env[x]
  }

  function Leave(o: Outcome, dom: set<Name>): Outcome {
    match o
    case Normal(env) => Normal(Restrict(env, dom))
    case Broke(env) => Broke(Restrict(env, dom))
    case Continued(env) => Continued(Restrict(env, dom))
    case Exited(env) => Exited(Restrict(env, dom))
    case _ => o
  }

  /** A name that a declaration hides is the outer name again after the statement list.
      Declarations occur in statement lists only, not as a branch or as the body of a loop. */
  function Reveal(env: Env, s: Stmt, o: Outcome): Outcome {
    if s.VarDecl? && s.x in env then
      match o
      case Normal(e) => Normal(e[s.x := env[s.x]])
      case Broke(e) => Broke(e[s.x := env[s.x]])
      case Continued(e) => Continued(e[s.x := env[s.x]])
      case Exited(e) => Exited(e[s.x := env[s.x]])
      case _ => o
    else o
  }

  function BindParams(params: seq<Name>, vs: seq<Value>): (env: Env)
    requires |params| == |vs|
    ensures forall x :: x in env <==> x in params
  {
    if params == [] then map[]
    else
      var n := |params| - 1;
      assert params == params[..n] + [params[n]];
      BindParams(params[..n], vs[..n])[params[n] := vs[n]]
  }

  /** Expressions: operands left to right, `&&` and `||` evaluate both operands. */
  function EvalExpr(p: Program, env: Env, e: Expr, fuel: Fuel): ExprResult
    decreases fuel.depth, fuel.turns, 1, e
  {
    match e
    case IntLit(i) => Val(Int(i))
    case BoolLit(b) => Val(Bool(b))
    case Ident(x) =>
      if x in env then Val(env[x])
      else if x in GlobalsOf(p.funcs) then Val(Function(GlobalsOf(p.funcs)[x]))
      else ExprFault(UndefinedGlobal)
    case Binary(op, l, r) =>
      var lv := EvalExpr(p, env, l, fuel);
      if !lv.Val? then lv else
      var rv := EvalExpr(p, env, r, fuel);
      if !rv.Val? then rv else
      OfResult(ApplyBin(op, lv.v, rv.v))
    case Unary(op, a) =>
      var v := EvalExpr(p, env, a, fuel);
      if !v.Val? then v else OfResult(ApplyUn(op, v.v))
    case Call(c, args) =>
      var cv := EvalExpr(p, env, c, fuel);
      if !cv.Val? then cv else
      match EvalArgs(p, env, args, fuel)
      case ArgsFault(f) => ExprFault(f)
      case ArgsTimeout => ExprTimeout
      case Vals(vs) =>
        if !cv.v.Function? || cv.v.id >= |p.funcs| then ExprFault(NotCallable)
        else if |p.funcs[cv.v.id].params| != |vs| then ExprFault(ArityMismatch)
        else match CallFunction(p, cv.v.id, vs, fuel)
          case Result(v) => Val(v)
          case UnspecifiedResult => Val(Nil)
          case RunFault(f) => ExprFault(f)
          case OutOfFuel => ExprTimeout
  }

  function OfResult(r: Values.Result<Value>): ExprResult {
    match r
    case Ok(v) => Val(v)
    case Err(f) => ExprFault(f)
  }

  function EvalArgs(p: Program, env: Env, args: Args, fuel: Fuel): (r: ArgsResult)
    ensures r.Vals? ==> |r.vs| == ArgCount(args)
    decreases fuel.depth, fuel.turns, 1, args
  {
    match args
    case NoArgs => Vals([])
    case Arg(first, rest) =>
      match EvalExpr(p, env, first, fuel)
      case ExprFault(f) => ArgsFault(f)
      case ExprTimeout => ArgsTimeout
      case Val(v) =>
        var r := EvalArgs(p, env, rest, fuel);
        if r.Vals? then Vals([v] + r.vs) else r
  }

  /** One activation of function `id`; its fuel pays for the call. */
  function CallFunction(p: Program, id: nat, vs: seq<Value>, fuel: Fuel): RunResult
    requires id < |p.funcs| && |p.funcs[id].params| == |vs|
    decreases fuel.depth, fuel.turns, 0
  {
    if fuel.depth == 0 then OutOfFuel
    else
      var d := p.funcs[id];
      Finish(d, ExecStmt(p, BindParams(d.params, vs), d.body, InCall(fuel)))
  }

  function Finish(d: FuncDecl, o: Outcome): RunResult {
    match o
    case Returned(v) => Result(v)
    case Failed(f) => RunFault(f)
    case Timeout => OutOfFuel
    case _ =>
      if d.params != [] && d.params[0] in o.env then Result(o.env[d.params[0]]) else UnspecifiedResult
  }

  function ExecStmt(p: Program, env: Env, s: Stmt, fuel: Fuel): Outcome
    decreases fuel.depth, fuel.turns, 2, s
  {
    match s
    case ExprStmt(e) =>
      var r := EvalExpr(p, env, e, fuel);
      if r.Val? then Normal(env) else Stopped(r)
    case VarDecl(x, e) =>
      var r := EvalExpr(p, env, e, fuel);
      if r.Val? then Normal(env[x := r.v]) else Stopped(r)
    case Assign(x, e) =>
      var r := EvalExpr(p, env, e, fuel);
      if !r.Val? then Stopped(r)
      else if x !in env then Failed(UndefinedGlobal)
      else Normal(env[x := r.v])
    case CompoundAssign(x, op, e) =>
      var r := EvalExpr(p, env, e, fuel);
      if !r.Val? then Stopped(r)
      else if x !in env then Failed(UndefinedGlobal)
      else (match ApplyBin(op, env[x], r.v)
            case Ok(v) => Normal(env[x := v])
            case Err(f) => Failed(f))
    case Block(body) => Leave(ExecStmts(p, env, body, fuel), env.Keys)
    case If(c, t, els) =>
      var r := EvalExpr(p, env, c, fuel);
      if !r.Val? then Stopped(r)
      else if BranchTruth(r.v) then Leave(ExecStmt(p, env, t, fuel), env.Keys)
      else if els.Some? then Leave(ExecStmt(p, env, els.value, fuel), env.Keys)
      else Normal(env)
    case Loop(guard, body) => ExecLoop(p, env, s, fuel)
    case Break => Broke(env)
    case Continue => Continued(env)
    case Return(e) =>
      if e.None? then Exited(env)
      else
        var r := EvalExpr(p, env, e.value, fuel);
        if r.Val? then Returned(r.v) else Stopped(r)
  }

  /** A loop pays one turn per iteration. */
  function ExecLoop(p: Program, env: Env, s: Stmt, fuel: Fuel): Outcome
    requires s.Loop?
    decreases fuel.depth, fuel.turns, 2, s, 0
  {
    var r := if s.guard.Some? then EvalExpr(p, env, s.guard.value, fuel) else Val(Bool(true));
    if !r.Val? then Stopped(r)
    else if !BranchTruth(r.v) then Normal(env)
    else if fuel.turns == 0 then Timeout
    else
      match Leave(ExecStmt(p, env, s.loopBody, fuel), env.Keys)
      case Normal(env') => ExecLoop(p, env', s, AfterTurn(fuel))
      case Continued(env') => ExecLoop(p, env', s, AfterTurn(fuel))
      case Broke(env') => Normal(env')
      case o => o
  }

  function Stopped(r: ExprResult): Outcome
    requires !r.Val?
  {
    if r.ExprFault? then Failed(r.f) else Timeout
  }

  function ExecStmts(p: Program, env: Env, ss: Stmts, fuel: Fuel): Outcome
    decreases fuel.depth, fuel.turns, 2, ss
  {
    match ss
    case Done => Normal(env)
    case Seq(s, rest) =>
      var o := ExecStmt(p, env, s, fuel);
      if o.Normal? then Reveal(env, s, ExecStmts(p, o.env, rest, fuel)) else o
  }

  // ----- scoping: the programs whose names mean the same to interpreter and builder -----

  /** Every identifier is one of these names or a function; every call passes an argument. */
  predicate ScopedExpr(p: Program, live: set<Name>, e: Expr) {
    match e
    case IntLit(_) => true
    case BoolLit(_) => true
    case Ident(x) => x in live || x in GlobalsOf(p.funcs)
    case Binary(_, l, r) => ScopedExpr(p, live, l) && ScopedExpr(p, live, r)
    case Unary(_, a) => ScopedExpr(p, live, a)
    case Call(c, args) => ScopedExpr(p, live, c) && ScopedArgs(p, live, args) && args != NoArgs
  }

  predicate ScopedArgs(p: Program, live: set<Name>, args: Args) {
    match args
    case NoArgs => true
    case Arg(e, rest) => ScopedExpr(p, live, e) && ScopedArgs(p, live, rest)
  }

  /** The statement never completes: every way through it meets a `return` or leaves a loop. */
  predicate Returns(s: Stmt)
    decreases s
  {
    match s
    case Return(_) => true
    case Block(body) => ReturnsIn(body)
    case If(_, t, els) => Returns(t) && els.Some? && Returns(els.value)
    case _ => false
  }

  predicate ReturnsIn(ss: Stmts)
    decreases ss
  {
    match ss
    case Done => false
    case Seq(s, rest) => Returns(s) || ReturnsIn(rest)
  }

  /** There is a `return` without a value. */
  predicate Exits(s: Stmt)
    decreases s
  {
    match s
    case Return(e) => e.None?
    case Block(body) => ExitsIn(body)
    case If(_, t, els) => Exits(t) || (els.Some? && Exits(els.value))
    case Loop(_, body) => Exits(body)
    case _ => false
  }

  predicate ExitsIn(ss: Stmts)
    decreases ss
  {
    match ss
    case Done => false
    case Seq(s, rest) => Exits(s) || ExitsIn(rest)
  }

  /** An activation that ends has returned a value. */
  predicate GivesValue(d: FuncDecl) {
    Returns(d.body) && !Exits(d.body)
  }

  /** A call without arguments opens its window on the caller's registers: it overwrites them. */
  predicate BareCall(e: Expr) {
    e.Call? && e.args.NoArgs?
  }

  /** What is called without arguments is a function under its name. */
  predicate CallsFunction(p: Program, e: Expr) {
    BareCall(e) && e.callee.Ident? && e.callee.x in GlobalsOf(p.funcs)
  }

  /** An expression whose value is used. */
  predicate Usable(p: Program, live: set<Name>, e: Expr) {
    ScopedExpr(p, live, e) || (CallsFunction(p, e) && GivesValue(p.funcs[GlobalsOf(p.funcs)[e.callee.x]]))
  }

  /** The statement contains a call without arguments. */
  predicate Clobbers(s: Stmt)
    decreases s
  {
    match s
    case ExprStmt(e) => BareCall(e)
    case VarDecl(_, e) => BareCall(e)
    case Assign(_, e) => BareCall(e)
    case CompoundAssign(_, _, e) => BareCall(e)
    case Block(body) => ClobbersIn(body)
    case If(c, t, els) => BareCall(c) || Clobbers(t) || (els.Some? && Clobbers(els.value))
    case Loop(guard, body) => (guard.Some? && BareCall(guard.value)) || Clobbers(body)
    case Return(e) => e.Some? && BareCall(e.value)
    case _ => false
  }

  predicate ClobbersIn(ss: Stmts)
    decreases ss
  {
    match ss
    case Done => false
    case Seq(s, rest) => Clobbers(s) || ClobbersIn(rest)
  }

  /** The names that still have their registers after the expression. */
  function Kept(live: set<Name>, clobbers: bool): set<Name> {
    if clobbers then {} else live
  }

  function LiveAfter(live: set<Name>, s: Stmt): set<Name> {
    var kept := Kept(live, Clobbers(s));
    match s
    case VarDecl(x, _) => kept + {x}
    case Assign(x, _) => kept + {x}
    case _ => kept
  }

  /** The names in scope after a statement of a statement list. */
  function ScopeAfter(dom: set<Name>, s: Stmt): set<Name> {
    if s.VarDecl? then dom + {s.x} else dom
  }

  /** No declaration reuses a name in scope or the name of a function. */
  predicate DeclaresAnew(p: Program, dom: set<Name>, s: Stmt)
    decreases s
  {
    match s
    case VarDecl(x, _) => x !in dom && x !in GlobalsOf(p.funcs)
    case Block(body) => DeclareAnew(p, dom, body)
    case If(_, t, els) => DeclaresAnew(p, dom, t) && (els.Some? ==> DeclaresAnew(p, dom, els.value))
    case Loop(_, body) => DeclaresAnew(p, dom, body)
    case _ => true
  }

  predicate DeclareAnew(p: Program, dom: set<Name>, ss: Stmts)
    decreases ss
  {
    match ss
    case Done => true
    case Seq(s, rest) => DeclaresAnew(p, dom, s) && DeclareAnew(p, ScopeAfter(dom, s), rest)
  }

  /** No mention of a name that a call without arguments may have overwritten since it was last
      assigned.  Every iteration of a loop comes after the ones before it. */
  predicate ScopedStmt(p: Program, dom: set<Name>, live: set<Name>, s: Stmt)
    decreases s
  {
    match s
    case ExprStmt(e) => ScopedExpr(p, live, e) || CallsFunction(p, e)
    case VarDecl(_, e) => Usable(p, live, e)
    case Assign(x, e) => x in dom && Usable(p, live, e)
    case CompoundAssign(x, _, e) => x in live && ScopedExpr(p, live, e)
    case Block(body) => ScopedStmts(p, dom, live, body)
    case If(c, t, els) =>
      Usable(p, live, c) &&
      var after := Kept(live, BareCall(c));
      ScopedStmt(p, dom, after, t) && (els.Some? ==> ScopedStmt(p, dom, after, els.value))
    case Loop(guard, body) =>
      var each := Kept(live, Clobbers(s));
      (guard.Some? ==> Usable(p, each, guard.value)) && ScopedStmt(p, dom, each, body)
    case Break => true
    case Continue => true
    case Return(e) => e.Some? ==> Usable(p, live, e.value)
  }

  predicate ScopedStmts(p: Program, dom: set<Name>, live: set<Name>, ss: Stmts)
    decreases ss
  {
    match ss
    case Done => true
    case Seq(s, rest) => ScopedStmt(p, dom, live, s) && ScopedStmts(p, ScopeAfter(dom, s), LiveAfter(live, s), rest)
  }

  predicate Distinct(xs: seq<Name>) {
    forall i, j | 0 <= i < j < |xs| :: xs[i] != xs[j]
  }

  function Params(d: FuncDecl): set<Name> {
    set x | x in d.params
  }

  /** Falling off the end, or `return;`, hands back register 0, the first parameter's. */
  predicate ScopedFunc(p: Program, d: FuncDecl) {
    && Distinct(d.params)
    && (forall x <- d.params :: x !in GlobalsOf(p.funcs))
    && DeclaresAnew(p, Params(d), d.body) && ScopedStmt(p, Params(d), Params(d), d.body)
    && (d.params != [] && Clobbers(d.body) ==> GivesValue(d))
  }

  predicate ScopedProgram(p: Program) {
    && (forall i, j | 0 <= i < j < |p.funcs| :: p.funcs[i].name != p.funcs[j].name)
    && forall d <- p.funcs :: ScopedFunc(p, d)
  }

  lemma {:induction false} ParamValue(params: seq<Name>, vs: seq<Value>, k: nat)
    requires |params| == |vs| && Distinct(params) && k < |params|
    ensures BindParams(params, vs)[params[k]] == vs[k]
    decreases |params|
  {
    var n := |params| - 1;
    if k < n {
      assert params[..n][k] == params[k] && vs[..n][k] == vs[k];
      ParamValue(params[..n], vs[..n], k);
    }
  }

  // ----- how statements change the set of live names -----

  predicate HasEnv(o: Outcome) {
    o.Normal? || o.Broke? || o.Continued? || o.Exited?
  }

  /** Completing a statement leaves exactly the names in scope that its scoping says;
      an abrupt exit has at least the names it started with. */
  ghost predicate KeepsNames(env: Env, s: Stmt, o: Outcome) {
    && (HasEnv(o) ==> env.Keys <= o.env.Keys)
    && (o.Normal? ==> o.env.Keys == ScopeAfter(env.Keys, s))
  }

  lemma {:induction false} ExecKeepsNames(p: Program, env: Env, s: Stmt, fuel: Fuel)
    ensures KeepsNames(env, s, ExecStmt(p, env, s, fuel))
    decreases fuel.depth, fuel.turns, s, 1
  {
    match s
    case Block(body) => ExecStmtsKeepNames(p, env, body, fuel);
    case If(_, t, els) =>
      ExecKeepsNames(p, env, t, fuel);
      if els.Some? { ExecKeepsNames(p, env, els.value, fuel); }
    case Loop(_, _) => LoopKeepsNames(p, env, s, fuel);
    case _ =>
  }

  lemma {:induction false} LoopKeepsNames(p: Program, env: Env, s: Stmt, fuel: Fuel)
    requires s.Loop?
    ensures KeepsNames(env, s, ExecLoop(p, env, s, fuel))
    decreases fuel.depth, fuel.turns, s, 0
  {
    ExecKeepsNames(p, env, s.loopBody, fuel);
    var o := Leave(ExecStmt(p, env, s.loopBody, fuel), env.Keys);
    if fuel.turns > 0 && (o.Normal? || o.Continued?) { LoopKeepsNames(p, o.env, s, AfterTurn(fuel)); }
  }

  lemma {:induction false} ExecStmtsKeepNames(p: Program, env: Env, ss: Stmts, fuel: Fuel)
    ensures var o := ExecStmts(p, env, ss, fuel); HasEnv(o) ==> env.Keys <= o.env.Keys
    decreases fuel.depth, fuel.turns, ss
  {
    if ss.Seq? {
      ExecKeepsNames(p, env, ss.head, fuel);
      var o := ExecStmt(p, env, ss.head, fuel);
      if o.Normal? { ExecStmtsKeepNames(p, o.env, ss.tail, fuel); }
    }
  }

  /** A statement that returns on every way through does not complete. */
  lemma {:induction false} ReturnsSound(p: Program, env: Env, s: Stmt, fuel: Fuel)
    requires Returns(s)
    ensures !ExecStmt(p, env, s, fuel).Normal?
    decreases s
  {
    hide EvalExpr;
    match s
    case Return(_) =>
    case Block(body) => ReturnsInSound(p, env, body, fuel);
    case If(_, t, els) =>
      ReturnsSound(p, env, t, fuel);
      ReturnsSound(p, env, els.value, fuel);
  }

  lemma {:induction false} ReturnsInSound(p: Program, env: Env, ss: Stmts, fuel: Fuel)
    requires ReturnsIn(ss)
    ensures !ExecStmts(p, env, ss, fuel).Normal?
    decreases ss
  {
    hide ExecStmt;
    if Returns(ss.head) {
      ReturnsSound(p, env, ss.head, fuel);
    } else if ExecStmt(p, env, ss.head, fuel).Normal? {
      ReturnsInSound(p, ExecStmt(p, env, ss.head, fuel).env, ss.tail, fuel);
    }
  }

  /** Without a `return` without a value, nothing exits. */
  lemma {:induction false} NoExit(p: Program, env: Env, s: Stmt, fuel: Fuel)
    requires !Exits(s)
    ensures !ExecStmt(p, env, s, fuel).Exited?
    decreases fuel.depth, fuel.turns, s, 1
  {
    hide EvalExpr;
    match s
    case Block(body) => NoExits(p, env, body, fuel);
    case If(_, t, els) =>
      NoExit(p, env, t, fuel);
      if els.Some? { NoExit(p, env, els.value, fuel); }
    case Loop(_, _) => NoLoopExit(p, env, s, fuel);
    case _ =>
  }

  lemma {:induction false} NoLoopExit(p: Program, env: Env, s: Stmt, fuel: Fuel)
    requires s.Loop? && !Exits(s)
    ensures !ExecLoop(p, env, s, fuel).Exited?
    decreases fuel.depth, fuel.turns, s, 0
  {
    hide EvalExpr;
    NoExit(p, env, s.loopBody, fuel);
    var o := Leave(ExecStmt(p, env, s.loopBody, fuel), env.Keys);
    if fuel.turns > 0 && (o.Normal? || o.Continued?) { NoLoopExit(p, o.env, s, AfterTurn(fuel)); }
  }

  lemma {:induction false} NoExits(p: Program, env: Env, ss: Stmts, fuel: Fuel)
    requires !ExitsIn(ss)
    ensures !ExecStmts(p, env, ss, fuel).Exited?
    decreases fuel.depth, fuel.turns, ss
  {
    hide EvalExpr;
    if ss.Seq? {
      NoExit(p, env, ss.head, fuel);
      var o := ExecStmt(p, env, ss.head, fuel);
      if o.Normal? { NoExits(p, o.env, ss.tail, fuel); }
    }
  }

  /** One turn of a loop. */
  lemma IterationParts(p: Program, env: Env, s: Stmt, fuel: Fuel)
    requires s.Loop?
    ensures var r := if s.guard.Some? then EvalExpr(p, env, s.guard.value, fuel) else Val(Bool(true));
            var b := Leave(ExecStmt(p, env, s.loopBody, fuel), env.Keys);
            ExecLoop(p, env, s, fuel) ==
            if !r.Val? then Stopped(r)
            else if !BranchTruth(r.v) then Normal(env)
            else if fuel.turns == 0 then Timeout
            else if b.Normal? || b.Continued? then ExecLoop(p, b.env, s, AfterTurn(fuel))
            else if b.Broke? then Normal(b.env)
            else b
    ensures var b := Leave(ExecStmt(p, env, s.loopBody, fuel), env.Keys); HasEnv(b) ==> b.env.Keys == env.Keys
  {
    hide EvalExpr, ExecStmt;
    ExecKeepsNames(p, env, s.loopBody, fuel);
  }
}
