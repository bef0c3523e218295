/**
 Runs that differ in the values of variables nobody mentions.  A call without arguments
 overwrites registers of its caller; what it destroys is not mentioned again, so the run
 goes on as if it had other values.
 */
module Overwriting {
  import opened Values
  import opened Source

  /** The same variables, with the same values for these names. */
  ghost predicate Alike(live: set<Name>, env: Env, env': Env) {
    env.Keys == env'.Keys && forall x <- live :: x in env ==> env[x] == env'[x]
  }

  ghost predicate AlikeOn(live: set<Name>, o: Outcome, o': Outcome) {
    match o
    case Normal(env) => o'.Normal? && Alike(live, env, o'.env)
    case Broke(env) => o'.Broke? && Alike(live, env, o'.env)
    case Continued(env) => o'.Continued? && Alike(live, env, o'.env)
    case Exited(env) => o'.Exited? && Alike(live, env, o'.env)
    case _ => o' == o
  }

  /** Two outcomes of a statement that the rest of the program cannot tell apart. */
  ghost predicate AlikeAfter(live: set<Name>, s: Stmt, o: Outcome, o': Outcome) {
    AlikeOn(if o.Normal? then LiveAfter(live, s) else Kept(live, Clobbers(s)), o, o')
  }

  lemma AlikeSelf(live: set<Name>, o: Outcome)
    ensures AlikeOn(live, o, o)
  {
  }

  lemma AlikeTrans(live: set<Name>, o: Outcome, o1: Outcome, o2: Outcome)
    requires AlikeOn(live, o, o1) && AlikeOn(live, o1, o2)
    ensures AlikeOn(live, o, o2)
  {
  }

  lemma AlikeLess(live: set<Name>, less: set<Name>, o: Outcome, o': Outcome)
    requires AlikeOn(live, o, o') && less <= live
    ensures AlikeOn(less, o, o')
  {
  }

  lemma AlikeLeave(live: set<Name>, dom: set<Name>, o: Outcome, o': Outcome)
    requires AlikeOn(live, o, o')
    ensures AlikeOn(live, Leave(o, dom), Leave(o', dom))
  {
  }

  lemma LeaveAlike(live: set<Name>, kept: set<Name>, dom: set<Name>, s: Stmt, o: Outcome, o': Outcome)
    requires AlikeAfter(live, s, o, o') && kept <= Kept(live, Clobbers(s))
    ensures AlikeOn(kept, Leave(o, dom), Leave(o', dom))
  {
    hide AlikeOn;
    AlikeLess(if o.Normal? then LiveAfter(live, s) else Kept(live, Clobbers(s)), kept, o, o');
    AlikeLeave(kept, dom, o, o');
  }

  lemma AlikeKeys(live: set<Name>, o: Outcome, o': Outcome)
    requires AlikeOn(live, o, o')
    ensures (HasEnv(o) <==> HasEnv(o')) && (HasEnv(o) ==> o'.env.Keys == o.env.Keys)
    ensures o'.Normal? == o.Normal?
  {
  }

  /** The same names are in scope afterwards. */
  lemma AlikeKeeps(p: Program, live: set<Name>, env: Env, s: Stmt, fuel: Fuel, o': Outcome)
    requires AlikeAfter(live, s, ExecStmt(p, env, s, fuel), o')
    ensures KeepsNames(env, s, o')
  {
    hide ExecStmt;
    ExecKeepsNames(p, env, s, fuel);
  }

  /** Names in scope are no functions. */
  ghost predicate NoFunctions(p: Program, dom: set<Name>) {
    dom !! GlobalsOf(p.funcs).Keys
  }

  lemma {:induction false} EvalAlike(p: Program, live: set<Name>, env: Env, env': Env, e: Expr, fuel: Fuel)
    requires Alike(live, env, env') && NoFunctions(p, env.Keys) && ScopedExpr(p, live, e)
    ensures EvalExpr(p, env', e, fuel) == EvalExpr(p, env, e, fuel)
    decreases e
  {
    hide GlobalsOf, EvalArgs, CallFunction, ApplyBin, ApplyUn;
    match e
    case Ident(x) => GlobalsApart(p, env, x);
    case Binary(_, l, r) =>
      EvalAlike(p, live, env, env', l, fuel);
      EvalAlike(p, live, env, env', r, fuel);
    case Unary(_, a) => EvalAlike(p, live, env, env', a, fuel);
    case Call(c, args) =>
      EvalAlike(p, live, env, env', c, fuel);
      ArgsAlike(p, live, env, env', args, fuel);
    case _ =>
  }

  lemma GlobalsApart(p: Program, env: Env, x: Name)
    requires NoFunctions(p, env.Keys)
    ensures x in GlobalsOf(p.funcs) ==> x !in env
  {
    hide GlobalsOf;
  }

  lemma {:induction false} ArgsAlike(p: Program, live: set<Name>, env: Env, env': Env, args: Args, fuel: Fuel)
    requires Alike(live, env, env') && NoFunctions(p, env.Keys) && ScopedArgs(p, live, args)
    ensures EvalArgs(p, env', args, fuel) == EvalArgs(p, env, args, fuel)
    decreases args
  {
    hide EvalExpr, ScopedExpr, Alike, NoFunctions;
    if args.Arg? {
      EvalAlike(p, live, env, env', args.first, fuel);
      ArgsAlike(p, live, env, env', args.rest, fuel);
    }
  }

  /** A function called without arguments is the same function, whatever the variables are. */
  lemma BareAlike(p: Program, env: Env, env': Env, e: Expr, fuel: Fuel)
    requires env.Keys == env'.Keys && NoFunctions(p, env.Keys) && CallsFunction(p, e)
    ensures EvalExpr(p, env', e, fuel) == EvalExpr(p, env, e, fuel)
  {
    hide GlobalsOf, CallFunction;
    GlobalsApart(p, env, e.callee.x);
    assert EvalExpr(p, env', e.callee, fuel) == EvalExpr(p, env, e.callee, fuel);
    assert EvalArgs(p, env', e.args, fuel) == Vals([]) == EvalArgs(p, env, e.args, fuel);
  }

  lemma UseAlike(p: Program, live: set<Name>, env: Env, env': Env, e: Expr, fuel: Fuel)
    requires Alike(live, env, env') && NoFunctions(p, env.Keys) && (ScopedExpr(p, live, e) || CallsFunction(p, e))
    ensures EvalExpr(p, env', e, fuel) == EvalExpr(p, env, e, fuel)
  {
    hide EvalExpr, ScopedExpr, CallsFunction, NoFunctions, Alike;
    assert env.Keys == env'.Keys by { KeysAlike(live, env, env'); }
    if ScopedExpr(p, live, e) { EvalAlike(p, live, env, env', e, fuel); } else { BareAlike(p, env, env', e, fuel); }
  }

  lemma KeysAlike(live: set<Name>, env: Env, env': Env)
    requires Alike(live, env, env')
    ensures env.Keys == env'.Keys
  {
  }

  // ----- statements -----

  /** The two runs are at the same statement. */
  ghost predicate Twin(p: Program, live: set<Name>, env: Env, env': Env) {
    Alike(live, env, env') && NoFunctions(p, env.Keys) && live <= env.Keys
  }

  lemma {:induction false} ExecAlike(p: Program, live: set<Name>, env: Env, env': Env, s: Stmt, fuel: Fuel)
    requires Twin(p, live, env, env') && ScopedStmt(p, env.Keys, live, s) && DeclaresAnew(p, env.Keys, s)
    ensures AlikeAfter(live, s, ExecStmt(p, env, s, fuel), ExecStmt(p, env', s, fuel))
    decreases fuel.depth, fuel.turns, s, 1
  {
    hide GlobalsOf, EvalExpr, ScopedExpr, CallsFunction, GivesValue, ExecStmts, ExecLoop, ApplyBin;
    match s
    case ExprStmt(e) => UseAlike(p, live, env, env', e, fuel);
    case VarDecl(_, e) => UseAlike(p, live, env, env', e, fuel);
    case Assign(_, e) => UseAlike(p, live, env, env', e, fuel);
    case CompoundAssign(_, _, e) => UseAlike(p, live, env, env', e, fuel);
    case Block(body) =>
      ListAlike(p, live, env, env', body, fuel);
      AlikeLeave(Kept(live, ClobbersIn(body)), env.Keys, ExecStmts(p, env, body, fuel), ExecStmts(p, env', body, fuel));
    case If(_, _, _) => IfAlike(p, live, env, env', s, fuel);
    case Loop(_, _) => LoopAlike(p, live, env, env', s, fuel);
    case Return(e) => if e.Some? { UseAlike(p, live, env, env', e.value, fuel); }
    case _ =>
  }

  lemma {:induction false} IfAlike(p: Program, live: set<Name>, env: Env, env': Env, s: Stmt, fuel: Fuel)
    requires s.If? && Twin(p, live, env, env') && ScopedStmt(p, env.Keys, live, s) && DeclaresAnew(p, env.Keys, s)
    ensures AlikeAfter(live, s, ExecStmt(p, env, s, fuel), ExecStmt(p, env', s, fuel))
    decreases fuel.depth, fuel.turns, s, 0
  {
    hide GlobalsOf, EvalExpr, ScopedExpr, CallsFunction, GivesValue;
    var after, kept := Kept(live, BareCall(s.cond)), Kept(live, Clobbers(s));
    UseAlike(p, live, env, env', s.cond, fuel);
    ArmAlike(p, after, kept, env, env', s.thn, fuel);
    if s.els.Some? { ArmAlike(p, after, kept, env, env', s.els.value, fuel); }
  }

  lemma {:induction false} ArmAlike(p: Program, live: set<Name>, kept: set<Name>, env: Env, env': Env, s: Stmt, fuel: Fuel)
    requires Twin(p, live, env, env') && ScopedStmt(p, env.Keys, live, s) && DeclaresAnew(p, env.Keys, s)
    requires kept <= Kept(live, Clobbers(s))
    ensures AlikeOn(kept, Leave(ExecStmt(p, env, s, fuel), env.Keys), Leave(ExecStmt(p, env', s, fuel), env.Keys))
    decreases fuel.depth, fuel.turns, s, 2
  {
    hide ExecStmt, Twin, ScopedStmt, AlikeOn;
    ExecAlike(p, live, env, env', s, fuel);
    LeaveAlike(live, kept, env.Keys, s, ExecStmt(p, env, s, fuel), ExecStmt(p, env', s, fuel));
  }

  lemma {:induction false} LoopAlike(p: Program, live: set<Name>, env: Env, env': Env, s: Stmt, fuel: Fuel)
    requires s.Loop? && Twin(p, live, env, env') && ScopedStmt(p, env.Keys, live, s) && DeclaresAnew(p, env.Keys, s)
    ensures AlikeOn(Kept(live, Clobbers(s)), ExecLoop(p, env, s, fuel), ExecLoop(p, env', s, fuel))
    decreases fuel.depth, fuel.turns, s, 0
  {
    hide GlobalsOf, EvalExpr, ScopedExpr, CallsFunction, GivesValue, ExecStmt;
    var each := Kept(live, Clobbers(s));
    if s.guard.Some? { UseAlike(p, each, env, env', s.guard.value, fuel); }
    ArmAlike(p, each, each, env, env', s.loopBody, fuel);
    ExecKeepsNames(p, env, s.loopBody, fuel);
    var b, b' := Leave(ExecStmt(p, env, s.loopBody, fuel), env.Keys), Leave(ExecStmt(p, env', s.loopBody, fuel), env.Keys);
    if fuel.turns > 0 && (b.Normal? || b.Continued?) {
      assert b.env.Keys == env.Keys;
      LoopAlike(p, each, b.env, b'.env, s, AfterTurn(fuel));
    }
  }

  lemma LiveInScope(p: Program, dom: set<Name>, live: set<Name>, s: Stmt)
    requires live <= dom && NoFunctions(p, dom) && ScopedStmt(p, dom, live, s) && DeclaresAnew(p, dom, s)
    ensures LiveAfter(live, s) <= ScopeAfter(dom, s) && NoFunctions(p, ScopeAfter(dom, s))
  {
    hide GlobalsOf;
  }

  lemma {:induction false} ListAlike(p: Program, live: set<Name>, env: Env, env': Env, ss: Stmts, fuel: Fuel)
    requires Twin(p, live, env, env') && ScopedStmts(p, env.Keys, live, ss) && DeclareAnew(p, env.Keys, ss)
    ensures AlikeOn(Kept(live, ClobbersIn(ss)), ExecStmts(p, env, ss, fuel), ExecStmts(p, env', ss, fuel))
    decreases fuel.depth, fuel.turns, ss
  {
    hide GlobalsOf, ExecStmt, ScopedStmt;
    if ss.Seq? {
      var s := ss.head;
      ExecAlike(p, live, env, env', s, fuel);
      ExecKeepsNames(p, env, s, fuel);
      var o, o' := ExecStmt(p, env, s, fuel), ExecStmt(p, env', s, fuel);
      if o.Normal? {
        var after := LiveAfter(live, s);
        LiveInScope(p, env.Keys, live, s);
        ListAlike(p, after, o.env, o'.env, ss.tail, fuel);
        AlikeLess(Kept(after, ClobbersIn(ss.tail)), Kept(live, ClobbersIn(ss)),
                  ExecStmts(p, o.env, ss.tail, fuel), ExecStmts(p, o'.env, ss.tail, fuel));
      }
    }
  }
}
