/**
 Renaming declarations apart does not change what a program means: activation for activation
 the interpreter gives the same result.
 */
module HidingRun {
  import opened Values
  import opened Source
  import opened Hiding

  /** A program without a use of a hidden name, and the program with its declarations renamed. */
  ghost predicate Twins(p: Program, q: Program, base: nat) {
    && NothingHiddenIsUsed(p, base) && q == RenamedProgram(p, base)
    && GlobalsOf(q.funcs) == GlobalsOf(p.funcs) && forall x <- GlobalsOf(p.funcs) :: x < base
  }

  /** The variables in scope have the values of their new names. */
  ghost predicate SameValues(lex: map<Name, Name>, env: Env, env': Env) {
    forall x <- lex :: x in env && lex[x] in env' && env'[lex[x]] == env[x]
  }

  /** Variables that are not in scope keep their values. */
  ghost predicate OthersKept(lex: map<Name, Name>, env: Env, later: Env) {
    env.Keys <= later.Keys && forall y <- env :: y !in lex.Values ==> later[y] == env[y]
  }

  ghost predicate Apart(lex: map<Name, Name>) {
    forall x, y | x in lex && y in lex && lex[x] == lex[y] :: x == y
  }

  /** Both programs are at the same point of the text. */
  ghost predicate AtPoint(c: Names, env: Env, env': Env, base: nat) {
    && env.Keys == c.lex.Keys && SameValues(c.lex, env, env') && Apart(c.lex)
    && base <= c.next && forall y <- env' :: base <= y < c.next
  }

  /** The names in scope after a statement. */
  function LexAfter(c: Names, s: Stmt): map<Name, Name>
    requires Room(c, Declarations(s))
  {
    if s.VarDecl? then c.lex[s.x := c.next] else c.lex
  }

  lemma AfterLex(c: Names, s: Stmt)
    requires Room(c, Declarations(s))
    ensures After(c, s).lex == LexAfter(c, s)
  {
  }

  /** The same outcome; `normal` are the names in scope if it is normal completion. */
  ghost predicate SameOutcome(lex: map<Name, Name>, normal: map<Name, Name>, start: Env, o: Outcome, o': Outcome) {
    match o
    case Normal(e) => o'.Normal? && SameValues(normal, e, o'.env) && OthersKept(lex, start, o'.env)
    case Broke(e) => o'.Broke? && SameValues(lex, e, o'.env) && OthersKept(lex, start, o'.env)
    case Continued(e) => o'.Continued? && SameValues(lex, e, o'.env) && OthersKept(lex, start, o'.env)
    case Exited(e) => o'.Exited? && SameValues(lex, e, o'.env) && OthersKept(lex, start, o'.env)
    case _ => o' == o
  }

  lemma TwinArity(p: Program, q: Program, base: nat)
    requires Twins(p, q, base)
    ensures |q.funcs| == |p.funcs| && forall i | 0 <= i < |p.funcs| :: |q.funcs[i].params| == |p.funcs[i].params|
  {
    hide GlobalsOf, StmtOk;
  }

  lemma TwinFunc(p: Program, q: Program, base: nat, id: nat)
    requires Twins(p, q, base) && id < |p.funcs|
    ensures |q.funcs| == |p.funcs| && FuncOk(p, p.funcs[id], base) && q.funcs[id] == RenamedFunc(p.funcs[id], base)
  {
    hide GlobalsOf, StmtOk, RenamedFunc;
  }

  // ----- expressions -----

  lemma {:induction false} ExprRuns(p: Program, q: Program, base: nat, c: Names, flat: map<Name, Name>, env: Env, env': Env,
                                    e: Expr, fuel: Fuel)
    requires Twins(p, q, base) && AtPoint(c, env, env', base) && ExprOk(p, c.lex, flat, e)
    ensures EvalExpr(q, env', RenamedExpr(c.lex, e), fuel) == EvalExpr(p, env, e, fuel)
    decreases fuel.depth, fuel.turns, 1, e
  {
    hide GlobalsOf, NothingHiddenIsUsed, RenamedProgram, CallFunction, Apart;
    match e
    case Ident(x) =>
    case Binary(_, l, r) =>
      ExprRuns(p, q, base, c, flat, env, env', l, fuel);
      ExprRuns(p, q, base, c, flat, env, env', r, fuel);
    case Unary(_, a) => ExprRuns(p, q, base, c, flat, env, env', a, fuel);
    case Call(_, _) => CallRuns(p, q, base, c, flat, env, env', e, fuel);
    case _ =>
  }

  lemma {:induction false} CallRuns(p: Program, q: Program, base: nat, c: Names, flat: map<Name, Name>, env: Env, env': Env,
                                    e: Expr, fuel: Fuel)
    requires Twins(p, q, base) && AtPoint(c, env, env', base) && e.Call? && ExprOk(p, c.lex, flat, e)
    ensures EvalExpr(q, env', RenamedExpr(c.lex, e), fuel) == EvalExpr(p, env, e, fuel)
    decreases fuel.depth, fuel.turns, 1, e, 0
  {
    hide Twins, RenamedFunc, FuncOk, CallFunction, AtPoint, EvalArgs, RenamedArgs;
    ExprRuns(p, q, base, c, flat, env, env', e.callee, fuel);
    ArgsRun(p, q, base, c, flat, env, env', e.args, fuel);
    TwinArity(p, q, base);
    var f, a := EvalExpr(p, env, e.callee, fuel), EvalArgs(p, env, e.args, fuel);
    if f.Val? && a.Vals? && f.v.Function? && f.v.id < |p.funcs| {
      if |p.funcs[f.v.id].params| == |a.vs| { FuncRuns(p, q, base, f.v.id, a.vs, fuel); }
    }
  }

  lemma {:induction false} ArgsRun(p: Program, q: Program, base: nat, c: Names, flat: map<Name, Name>, env: Env, env': Env,
                                   args: Args, fuel: Fuel)
    requires Twins(p, q, base) && AtPoint(c, env, env', base) && ArgsOk(p, c.lex, flat, args)
    ensures EvalArgs(q, env', RenamedArgs(c.lex, args), fuel) == EvalArgs(p, env, args, fuel)
    decreases fuel.depth, fuel.turns, 1, args
  {
    hide Twins, AtPoint, EvalExpr, RenamedExpr, ExprOk;
    if args.Arg? {
      ExprRuns(p, q, base, c, flat, env, env', args.first, fuel);
      ArgsRun(p, q, base, c, flat, env, env', args.rest, fuel);
    }
  }

  // ----- statements -----

  lemma {:induction false} StmtRuns(p: Program, q: Program, base: nat, c: Names, env: Env, env': Env, s: Stmt, fuel: Fuel)
    requires Room(c, Declarations(s)) && Twins(p, q, base) && AtPoint(c, env, env', base) && StmtOk(p, c, s)
    ensures SameOutcome(c.lex, LexAfter(c, s), env', ExecStmt(p, env, s, fuel), ExecStmt(q, env', Renamed(c, s), fuel))
    decreases fuel.depth, fuel.turns, 2, s, 1
  {
    hide Twins, EvalExpr, RenamedExpr, ExprOk, Restrict, OthersKept;
    PointKept(c, env, env', base);
    match s
    case ExprStmt(e) => ExprRuns(p, q, base, c, c.flat, env, env', e, fuel);
    case VarDecl(x, e) => DeclRuns(p, q, base, c, env, env', s, fuel);
    case Assign(_, _) => StoreRuns(p, q, base, c, env, env', s, fuel);
    case CompoundAssign(_, _, _) => StoreRuns(p, q, base, c, env, env', s, fuel);
    case Block(body) =>
      ListRuns(p, q, base, c, env, env', body, fuel);
      LeaveSame(c, env, env', base, ExecStmts(p, env, body, fuel), ExecStmts(q, env', RenamedIn(c, body), fuel));
    case If(_, _, _) => IfRuns(p, q, base, c, env, env', s, fuel);
    case Loop(_, _) => LoopRuns(p, q, base, c, env, env', s, fuel);
    case Return(e) => if e.Some? { ExprRuns(p, q, base, c, c.flat, env, env', e.value, fuel); }
    case _ =>
  }

  lemma DeclRuns(p: Program, q: Program, base: nat, c: Names, env: Env, env': Env, s: Stmt, fuel: Fuel)
    requires s.VarDecl? && Room(c, Declarations(s)) && Twins(p, q, base) && AtPoint(c, env, env', base) && StmtOk(p, c, s)
    ensures SameOutcome(c.lex, LexAfter(c, s), env', ExecStmt(p, env, s, fuel), ExecStmt(q, env', Renamed(c, s), fuel))
    decreases fuel.depth, fuel.turns, 2, s, 0
  {
    hide Twins, EvalExpr, RenamedExpr, ExprOk;
    ExprRuns(p, q, base, c, c.flat[s.x := c.next], env, env', s.init, fuel);
  }

  lemma StoreRuns(p: Program, q: Program, base: nat, c: Names, env: Env, env': Env, s: Stmt, fuel: Fuel)
    requires (s.Assign? || s.CompoundAssign?) && Room(c, Declarations(s))
    requires Twins(p, q, base) && AtPoint(c, env, env', base) && StmtOk(p, c, s)
    ensures SameOutcome(c.lex, c.lex, env', ExecStmt(p, env, s, fuel), ExecStmt(q, env', Renamed(c, s), fuel))
    decreases fuel.depth, fuel.turns, 2, s, 0
  {
    hide Twins, EvalExpr, RenamedExpr, ExprOk, ApplyBin;
    ExprRuns(p, q, base, c, c.flat, env, env', s.value, fuel);
    assert c.lex[s.target] in c.lex.Values;
  }

  lemma LeaveSame(c: Names, env: Env, env': Env, base: nat, o: Outcome, o': Outcome)
    requires AtPoint(c, env, env', base) && SameOutcome(c.lex, c.lex, env', o, o')
    ensures SameOutcome(c.lex, c.lex, env', Leave(o, env.Keys), Leave(o', env'.Keys))
  {
  }

  lemma PointLater(c: Names, c': Names, env: Env, env': Env, base: nat)
    requires AtPoint(c, env, env', base) && c'.lex == c.lex && c'.next >= c.next
    ensures AtPoint(c', env, env', base)
  {
  }

  lemma IfRuns(p: Program, q: Program, base: nat, c: Names, env: Env, env': Env, s: Stmt, fuel: Fuel)
    requires s.If? && Room(c, Declarations(s)) && Twins(p, q, base) && AtPoint(c, env, env', base) && StmtOk(p, c, s)
    ensures SameOutcome(c.lex, c.lex, env', ExecStmt(p, env, s, fuel), ExecStmt(q, env', Renamed(c, s), fuel))
    decreases fuel.depth, fuel.turns, 2, s, 0
  {
    hide Twins, EvalExpr, RenamedExpr, ExprOk, AtPoint, Leave, SameValues, OthersKept;
    ExprRuns(p, q, base, c, c.flat, env, env', s.cond, fuel);
    StmtRuns(p, q, base, c, env, env', s.thn, fuel);
    LeaveSame(c, env, env', base, ExecStmt(p, env, s.thn, fuel), ExecStmt(q, env', Renamed(c, s.thn), fuel));
    if s.els.Some? {
      var a := After(c, s.thn).(lex := c.lex);
      PointLater(c, a, env, env', base);
      StmtRuns(p, q, base, a, env, env', s.els.value, fuel);
      LeaveSame(c, env, env', base, ExecStmt(p, env, s.els.value, fuel), ExecStmt(q, env', Renamed(a, s.els.value), fuel));
    }
    PointKept(c, env, env', base);
  }

  lemma PointKept(c: Names, env: Env, env': Env, base: nat)
    requires AtPoint(c, env, env', base)
    ensures SameValues(c.lex, env, env') && OthersKept(c.lex, env', env')
  {
  }

  lemma {:induction false} LoopRuns(p: Program, q: Program, base: nat, c: Names, env: Env, env': Env, s: Stmt, fuel: Fuel)
    requires s.Loop? && Room(c, Declarations(s)) && Twins(p, q, base) && AtPoint(c, env, env', base) && StmtOk(p, c, s)
    ensures SameOutcome(c.lex, c.lex, env', ExecLoop(p, env, s, fuel), ExecLoop(q, env', Renamed(c, s), fuel))
    decreases fuel.depth, fuel.turns, 2, s, 0
  {
    hide Twins, EvalExpr, RenamedExpr, ExprOk, Restrict, AtPoint, ExecStmt, SameValues, OthersKept, StmtOk,
         Declarations, Renamed;
    LoopRenamed(p, c, s);
    if s.guard.Some? { ExprRuns(p, q, base, c, c.flat, env, env', s.guard.value, fuel); }
    StmtRuns(p, q, base, c, env, env', s.loopBody, fuel);
    PointKept(c, env, env', base);
    var r, r' := ExecStmt(p, env, s.loopBody, fuel), ExecStmt(q, env', Renamed(c, s.loopBody), fuel);
    LeaveSame(c, env, env', base, r, r');
    var o, o' := Leave(r, env.Keys), Leave(r', env'.Keys);
    if fuel.turns > 0 && (o.Normal? || o.Continued?) {
      TurnTaken(p, q, base, c, env, env', s, fuel);
      LoopRuns(p, q, base, c, o.env, o'.env, s, AfterTurn(fuel));
      KeptFurther(c.lex, env', o'.env, ExecLoop(p, o.env, s, AfterTurn(fuel)), ExecLoop(q, o'.env, Renamed(c, s), AfterTurn(fuel)));
    }
  }

  /** One turn leaves both programs at the head of the loop again. */
  lemma TurnTaken(p: Program, q: Program, base: nat, c: Names, env: Env, env': Env, s: Stmt, fuel: Fuel)
    requires s.Loop? && Room(c, Declarations(s)) && AtPoint(c, env, env', base)
    requires var o, o' := ExecStmt(p, env, s.loopBody, fuel), ExecStmt(q, env', Renamed(c, s.loopBody), fuel);
             SameOutcome(c.lex, c.lex, env', Leave(o, env.Keys), Leave(o', env'.Keys)) && (o.Normal? || o.Continued?)
    ensures var o, o' := ExecStmt(p, env, s.loopBody, fuel), ExecStmt(q, env', Renamed(c, s.loopBody), fuel);
            AtPoint(c, Leave(o, env.Keys).env, Leave(o', env'.Keys).env, base)
  {
    hide ExecStmt, Renamed;
    ExecKeepsNames(p, env, s.loopBody, fuel);
  }

  lemma KeptFurther(lex: map<Name, Name>, env: Env, mid: Env, o: Outcome, o': Outcome)
    requires OthersKept(lex, env, mid) && SameOutcome(lex, lex, mid, o, o')
    ensures SameOutcome(lex, lex, env, o, o')
  {
  }

  lemma {:induction false} ListRuns(p: Program, q: Program, base: nat, c: Names, env: Env, env': Env, ss: Stmts, fuel: Fuel)
    requires Room(c, DeclarationsIn(ss)) && Twins(p, q, base) && AtPoint(c, env, env', base) && ListOk(p, c, ss)
    ensures SameOutcome(c.lex, c.lex, env', ExecStmts(p, env, ss, fuel), ExecStmts(q, env', RenamedIn(c, ss), fuel))
    decreases fuel.depth, fuel.turns, 2, ss
  {
    hide Twins, StmtOk, AtPoint, ExecStmt, Renamed, After, Reveal;
    PointKept(c, env, env', base);
    if ss.Seq? {
      var s, s' := ss.head, Renamed(c, ss.head);
      StmtRuns(p, q, base, c, env, env', s, fuel);
      var o, o' := ExecStmt(p, env, s, fuel), ExecStmt(q, env', s', fuel);
      if o.Normal? {
        StepTaken(p, q, base, c, env, env', s, fuel);
        ListRuns(p, q, base, After(c, s), o.env, o'.env, ss.tail, fuel);
        var r, r' := ExecStmts(p, o.env, ss.tail, fuel), ExecStmts(q, o'.env, RenamedIn(After(c, s), ss.tail), fuel);
        AfterLex(c, s);
        DeclaresNext(c, s);
        if s.VarDecl? { DeclFresh(q, c, env, env', base, s', fuel); }
        RevealSame(base, c, env, env', s, s', o'.env, r, r');
      }
    }
  }

  /** After a statement both programs are at the next one. */
  lemma StepTaken(p: Program, q: Program, base: nat, c: Names, env: Env, env': Env, s: Stmt, fuel: Fuel)
    requires Room(c, Declarations(s)) && AtPoint(c, env, env', base)
    requires var o, o' := ExecStmt(p, env, s, fuel), ExecStmt(q, env', Renamed(c, s), fuel);
             SameOutcome(c.lex, LexAfter(c, s), env', o, o') && o.Normal?
    ensures var o, o' := ExecStmt(p, env, s, fuel), ExecStmt(q, env', Renamed(c, s), fuel);
            AtPoint(After(c, s), o.env, o'.env, base) && OthersKept(c.lex, env', o'.env)
  {
    hide ExecStmt, Renamed, After;
    var s', a := Renamed(c, s), After(c, s);
    ExecKeepsNames(p, env, s, fuel);
    ExecKeepsNames(q, env', s', fuel);
    AfterLex(c, s);
    var o, o' := ExecStmt(p, env, s, fuel), ExecStmt(q, env', s', fuel);
    DeclaresNext(c, s);
    assert a.next >= c.next + (if s.VarDecl? then 1 else 0);
    LexApart(c, env, env', base, s);
  }

  lemma DeclaresNext(c: Names, s: Stmt)
    requires Room(c, Declarations(s))
    ensures s.VarDecl? ==> Renamed(c, s).VarDecl? && Renamed(c, s).x == c.next && After(c, s).next == c.next + 1
  {
  }

  lemma DeclFresh(q: Program, c: Names, env: Env, env': Env, base: nat, s: Stmt, fuel: Fuel)
    requires AtPoint(c, env, env', base) && s.VarDecl? && s.x == c.next
    ensures var o := ExecStmt(q, env', s, fuel); o.Normal? ==> env'.Keys <= o.env.Keys && forall y <- env' :: o.env[y] == env'[y]
  {
    hide EvalExpr;
  }

  /** The new name differs from those in use. */
  lemma LexApart(c: Names, env: Env, env': Env, base: nat, s: Stmt)
    requires Room(c, Declarations(s)) && AtPoint(c, env, env', base)
    ensures Apart(LexAfter(c, s)) && forall x <- c.lex :: c.lex[x] < c.next
  {
  }

  /** Giving a hidden variable back: under its new name it was never taken away. */
  lemma HiddenBack(c: Names, env: Env, env': Env, x: Name, mid: Env, e: Env, e': Env)
    requires SameValues(c.lex, env, env') && env.Keys == c.lex.Keys && Apart(c.lex) && c.next < NAMES && c.next !in env'
    requires env'.Keys <= mid.Keys && forall y <- env' :: mid[y] == env'[y]
    requires SameValues(c.lex[x := c.next], e, e') && OthersKept(c.lex[x := c.next], mid, e')
    ensures SameValues(c.lex, if x in env then e[x := env[x]] else e, e')
  {
    var lex := c.lex[x := c.next];
    if x in env { assert c.lex[x] !in lex.Values; }
    forall y <- c.lex
      ensures c.lex[y] in e' && e'[c.lex[y]] == if y == x then env[x] else e[y]
    {
      if y != x { assert lex[y] == c.lex[y]; }
    }
  }

  lemma StillKept(c: Names, env': Env, x: Name, mid: Env, e': Env)
    requires c.next < NAMES && c.next !in env' && env'.Keys <= mid.Keys && forall y <- env' :: mid[y] == env'[y]
    requires OthersKept(c.lex[x := c.next], mid, e')
    ensures OthersKept(c.lex, env', e')
  {
    var lex := c.lex[x := c.next];
    forall y <- env' | y !in c.lex.Values
      ensures e'[y] == env'[y]
    {
      assert y !in lex.Values;
    }
  }

  lemma RevealSame(base: nat, c: Names, env: Env, env': Env, s: Stmt, s': Stmt, mid: Env, r: Outcome, r': Outcome)
    requires Room(c, Declarations(s)) && AtPoint(c, env, env', base)
    requires (s.VarDecl? <==> s'.VarDecl?) && (s'.VarDecl? ==> s'.x == c.next)
    requires OthersKept(c.lex, env', mid)
    requires s.VarDecl? ==> SameOutcome(LexAfter(c, s), LexAfter(c, s), mid, r, r') && (forall y <- env' :: mid[y] == env'[y])
    requires !s.VarDecl? ==> SameOutcome(c.lex, c.lex, mid, r, r')
    ensures SameOutcome(c.lex, c.lex, env', Reveal(env, s, r), Reveal(env', s', r'))
  {
    hide SameValues, OthersKept, Apart;
    if s.VarDecl? {
      assert s'.x !in env';
      KeptKeys(c.lex, env', mid);
      if HasEnv(r) {
        HiddenBack(c, env, env', s.x, mid, r.env, r'.env);
        StillKept(c, env', s.x, mid, r'.env);
      }
    } else {
      KeptFurther(c.lex, env', mid, r, r');
    }
  }

  lemma KeptKeys(lex: map<Name, Name>, env: Env, later: Env)
    requires OthersKept(lex, env, later)
    ensures env.Keys <= later.Keys
  {
  }

  // ----- activations -----

  lemma ParamsRun(params: seq<Name>, vs: seq<Value>, base: nat)
    requires |params| == |vs| && Distinct(params) && base + |params| <= NAMES
    ensures var lex, env' := ParamNames(params, base), BindParams(NewParams(|params|, base), vs);
            SameValues(lex, BindParams(params, vs), env') && Apart(lex) && (forall y <- env' :: base <= y < base + |params|) &&
            (params != [] ==> params[0] in lex && lex[params[0]] == base)
  {
    hide BindParams, ParamNames, NewParams;
    var lex, qs := ParamNames(params, base), NewParams(|params|, base);
    forall x <- lex
      ensures x in BindParams(params, vs) && lex[x] in BindParams(qs, vs)
      ensures BindParams(qs, vs)[lex[x]] == BindParams(params, vs)[x]
    {
      var i := lex[x] - base;
      ParamValue(params, vs, i);
      ParamValue(qs, vs, i);
    }
    if params != [] {
      var i := lex[params[0]] - base;
      assert params[i] == params[0];
    }
  }

  lemma FuncPoint(d: FuncDecl, vs: seq<Value>, base: nat)
    requires |d.params| == |vs| && Distinct(d.params) && base + |d.params| <= NAMES
    ensures AtPoint(Start(d, base), BindParams(d.params, vs), BindParams(NewParams(|d.params|, base), vs), base)
  {
    hide BindParams, ParamNames, NewParams;
    ParamsRun(d.params, vs, base);
  }

  lemma FinishSame(d: FuncDecl, base: nat, start: Env, o: Outcome, o': Outcome)
    requires FuncRoom(d, base) && Distinct(d.params)
    requires SameOutcome(Start(d, base).lex, Start(d, base).lex, start, o, o')
    ensures Finish(RenamedFunc(d, base), o') == Finish(d, o)
  {
    hide ParamNames, Renamed;
    if d.params != [] {
      var lex := ParamNames(d.params, base);
      var i := lex[d.params[0]] - base;
      assert d.params[i] == d.params[0];
    }
  }

  lemma {:induction false} FuncRuns(p: Program, q: Program, base: nat, id: nat, vs: seq<Value>, fuel: Fuel)
    requires Twins(p, q, base) && id < |p.funcs| && |p.funcs[id].params| == |vs|
    ensures |q.funcs| == |p.funcs| && |q.funcs[id].params| == |vs|
    ensures CallFunction(q, id, vs, fuel) == CallFunction(p, id, vs, fuel)
    decreases fuel.depth, fuel.turns, 0
  {
    hide Twins, StmtOk, Renamed, ExecStmt, BindParams, ParamNames, NewParams, Finish, AtPoint, SameOutcome;
    TwinFunc(p, q, base, id);
    var d := p.funcs[id];
    if fuel.depth > 0 {
      var c, env, env' := Start(d, base), BindParams(d.params, vs), BindParams(NewParams(|d.params|, base), vs);
      FuncPoint(d, vs, base);
      StmtRuns(p, q, base, c, env, env', d.body, InCall(fuel));
      FinishSame(d, base, env', ExecStmt(p, env, d.body, InCall(fuel)), ExecStmt(q, env', Renamed(c, d.body), InCall(fuel)));
    }
  }

  /** The interpreter cannot tell a program from the one with its declarations renamed. */
  lemma RenamedRuns(p: Program, base: nat, id: nat, vs: seq<Value>, fuel: Fuel)
    requires NothingHiddenIsUsed(p, base) && id < |p.funcs| && |p.funcs[id].params| == |vs|
    ensures CallFunction(RenamedProgram(p, base), id, vs, fuel) == CallFunction(p, id, vs, fuel)
  {
    hide StmtOk, GlobalsOf, ScopedProgram, RenamedFunc, CallFunction;
    var q := RenamedProgram(p, base);
    RenamedScoped(p, base);
    NamesBelow(p, base);
    FuncRuns(p, q, base, id, vs, fuel);
  }
}
