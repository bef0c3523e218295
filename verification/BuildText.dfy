/**
 What the builder makes of the text of a statement: where it leaves the current block
 closed, so that what follows is dropped, which names its flat table has afterwards, and
 whether it gets through at all.
 */
module BuildText {
  import opened Values
  import opened Source
  import opened Ir
  import opened Build
  import opened BuildShape

  /** The statement closes the current block. */
  predicate Ends(s: Stmt)
    decreases s
  {
    match s
    case Break => true
    case Continue => true
    case Return(_) => true
    case Block(body) => EndsIn(body)
    case _ => false
  }

  predicate EndsIn(ss: Stmts)
    decreases ss
  {
    match ss
    case Done => false
    case Seq(s, rest) => Ends(s) || EndsIn(rest)
  }

  /** The names bound after a statement: those declared anywhere in its text, but not in
      what follows a statement that closes the block. */
  function NamesAfter(names: set<Name>, s: Stmt): (r: set<Name>)
    ensures names <= r
    decreases s
  {
    match s
    case VarDecl(x, _) => names + {x}
    case Block(body) => NamesAfterIn(names, body)
    case If(_, t, els) =>
      var a := NamesAfter(names, t);
      if els.Some? then NamesAfter(a, els.value) else a
    case Loop(_, body) => NamesAfter(names, body)
    case _ => names
  }

  function NamesAfterIn(names: set<Name>, ss: Stmts): (r: set<Name>)
    ensures names <= r
    decreases ss
  {
    match ss
    case Done => names
    case Seq(s, rest) =>
      var a := NamesAfter(names, s);
      if Ends(s) then a else NamesAfterIn(a, rest)
  }

  /** Every assignment goes to a parameter or to a name declared earlier in the text. */
  predicate TargetsKnown(names: set<Name>, s: Stmt)
    decreases s
  {
    match s
    case Assign(x, _) => x in names
    case CompoundAssign(x, _, _) => x in names
    case Block(body) => TargetsKnownIn(names, body)
    case If(_, t, els) =>
      TargetsKnown(names, t) && (els.Some? ==> TargetsKnown(NamesAfter(names, t), els.value))
    case Loop(_, body) => TargetsKnown(names, body)
    case _ => true
  }

  predicate TargetsKnownIn(names: set<Name>, ss: Stmts)
    decreases ss
  {
    match ss
    case Done => true
    case Seq(s, rest) => TargetsKnown(names, s) && (Ends(s) || TargetsKnownIn(NamesAfter(names, s), rest))
  }

  // ----- the builder agrees with the text -----

  ghost predicate FollowsText(g: Ctx, s: Stmt, r: Ctx) {
    HasBlock(r) && (Terminated(r) <==> Ends(s)) && r.names.Keys == NamesAfter(g.names.Keys, s)
  }

  lemma {:induction false} StmtText(visible: set<Name>, g: Ctx, s: Stmt)
    requires Inv(g) && !Terminated(g) && BuildStmt(visible, g, s).Some?
    ensures FollowsText(g, s, BuildStmt(visible, g, s).value)
    decreases s, 1
  {
    hide CodeOk, Constants, BuildExpr, Extends, ExprShape, BuildBranches, BuildStmts, BuildGuard;
    match s
    case ExprStmt(e) => ExprText(visible, g, e);
    case VarDecl(x, e) => DeclText(visible, g, s);
    case Assign(_, e) => ExprText(visible, g, e);
    case CompoundAssign(_, _, e) => ExprText(visible, g, e);
    case Block(body) => StmtsText(visible, g, body);
    case If(c, _, _) =>
      ExprText(visible, g, c);
      BranchesText(visible, BuildExpr(visible, g, c).g, BuildExpr(visible, g, c).r, s);
    case Loop(_, _) => LoopText(visible, g, s);
    case Break =>
    case Continue =>
    case Return(e) => if e.Some? { ExprText(visible, g, e.value); }
  }

  lemma ExprText(visible: set<Name>, g: Ctx, e: Expr)
    requires Inv(g) && !Terminated(g) && BuildExpr(visible, g, e).BuiltExpr?
    ensures var r := BuildExpr(visible, g, e);
            Inv(r.g) && SameShape(g, r.g) && HasBlock(r.g) && !Terminated(r.g) && r.r < r.g.nv
  {
    hide Inv, BuildExpr;
    ExprKeepsShape(visible, g, e);
    InvBlock(BuildExpr(visible, g, e).g);
  }

  lemma DeclText(visible: set<Name>, g: Ctx, s: Stmt)
    requires s.VarDecl? && Inv(g) && !Terminated(g) && BuildStmt(visible, g, s).Some?
    ensures FollowsText(g, s, BuildStmt(visible, g, s).value)
  {
    hide CodeOk, Constants, BuildExpr;
    var h := Fresh(g).(names := g.names[s.x := g.nv]);
    FreshShape(g, 1);
    NamesInv(Fresh(g), s.x, g.nv);
    ExprText(visible, h, s.init);
  }

  lemma BranchesText(visible: set<Name>, g: Ctx, cond: Reg, s: Stmt)
    requires s.If? && Inv(g) && !Terminated(g) && cond < g.nv && BuildBranches(visible, g, cond, s).Some?
    ensures FollowsText(g, s, BuildBranches(visible, g, cond, s).value)
    decreases s, 0
  {
    hide CodeOk, Constants, BuildStmt, BuildBranches, EndsInTerminator, Extends, Filled, ThenDone, ElseDone,
         BranchHead;
    var t := |g.blocks|;
    var g1 := BranchHead(g, cond, s);
    HeadShape(g, cond, s);
    SwitchInv(g1, t, g1.loops);
    EmptyOpen(g1, t);
    BranchesParts(visible, g, cond, s);
    StmtText(visible, g1.(cur := t), s.thn);
    FillBlock(visible, g1, t, s.thn, t + 1);
    var g2 := ThenDone(visible, g, cond, s);
    StillOpen(g1, t, g2, t + 1);
    if s.els.Some? {
      StillOpen(g1, t, g2, t + 2);
      SwitchInv(g2, t + 2, g2.loops);
      EmptyOpen(g2, t + 2);
      StmtText(visible, g2.(cur := t + 2), s.els.value);
      FillBlock(visible, g2, t + 2, s.els.value, t + 1);
      StillOpen(g2, t + 2, ElseDone(visible, g, cond, s), t + 1);
    }
    EmptyOpen(ElseDone(visible, g, cond, s), t + 1);
  }

  /** Filling one block leaves another empty one empty. */
  lemma StillOpen(h: Ctx, c: BlockId, k: Ctx, b: BlockId)
    requires Filled(h, c, k) && b < |h.blocks| && b != c && h.blocks[b] == []
    ensures b < |k.blocks| && k.blocks[b] == []
  {
  }

  lemma LoopText(visible: set<Name>, g: Ctx, s: Stmt)
    requires s.Loop? && Inv(g) && !Terminated(g) && BuildStmt(visible, g, s).Some?
    ensures FollowsText(g, s, BuildStmt(visible, g, s).value)
    decreases s, 0
  {
    hide CodeOk, Constants, BuildStmt, BuildGuard, EndsInTerminator, Extends, Filled;
    InvBlock(g);
    var c := |g.blocks|;
    LoopParts(visible, g, s);
    LoopHeadShape(g);
    GuardShape(visible, LoopHead(g), s.guard, c);
    var k := LoopGuarded(visible, g, s);
    StillOpen(LoopHead(g), c, k, c + 1);
    StillOpen(LoopHead(g), c, k, c + 2);
    SwitchInv(k, c + 1, k.loops);
    EmptyOpen(k, c + 1);
    StmtText(visible, k.(cur := c + 1), s.loopBody);
    FillBlock(visible, k, c + 1, s.loopBody, c);
    StillOpen(k, c + 1, LoopDone(visible, g, s), c + 2);
    EmptyOpen(LoopDone(visible, g, s), c + 2);
  }

  lemma {:induction false} StmtsText(visible: set<Name>, g: Ctx, ss: Stmts)
    requires Inv(g) && !Terminated(g) && BuildStmts(visible, g, ss).Some?
    ensures var r := BuildStmts(visible, g, ss).value;
            HasBlock(r) && (Terminated(r) <==> EndsIn(ss)) && r.names.Keys == NamesAfterIn(g.names.Keys, ss)
    decreases ss
  {
    hide CodeOk, Constants, BuildStmt, EndsInTerminator;
    if ss.Seq? {
      StmtText(visible, g, ss.head);
      StmtKeepsShape(visible, g, ss.head);
      var a := BuildStmt(visible, g, ss.head).value;
      if !Terminated(a) { StmtsText(visible, a, ss.tail); } else { NothingMore(visible, a, ss.tail); }
    }
  }

  /** A closed block takes no further statement. */
  lemma NothingMore(visible: set<Name>, g: Ctx, ss: Stmts)
    requires HasBlock(g) && Terminated(g)
    ensures BuildStmts(visible, g, ss) == Some(g)
  {
    hide BuildStmt, EndsInTerminator;
  }

  // ----- whether the builder gets through -----

  /** Every identifier is a name the builder has or can load as a global. */
  predicate Named(visible: set<Name>, names: set<Name>, e: Expr) {
    match e
    case Ident(x) => x in names || x in visible
    case Binary(_, l, r) => Named(visible, names, l) && Named(visible, names, r)
    case Unary(_, a) => Named(visible, names, a)
    case Call(f, args) => Named(visible, names, f) && NamedArgs(visible, names, args)
    case _ => true
  }

  predicate NamedArgs(visible: set<Name>, names: set<Name>, args: Args) {
    match args
    case NoArgs => true
    case Arg(e, rest) => Named(visible, names, e) && NamedArgs(visible, names, rest)
  }

  /** `inLoop`: the statement is inside a loop.  A declared name is bound before its
      initialiser. */
  predicate Buildable(visible: set<Name>, names: set<Name>, inLoop: bool, s: Stmt)
    decreases s
  {
    match s
    case ExprStmt(e) => Named(visible, names, e)
    case VarDecl(x, e) => Named(visible, names + {x}, e)
    case Assign(x, e) => x in names && Named(visible, names, e)
    case CompoundAssign(x, op, e) => x in names && Named(visible, names, e) && Compound(op)
    case Block(body) => BuildableIn(visible, names, inLoop, body)
    case If(c, t, els) =>
      Named(visible, names, c) && Buildable(visible, names, inLoop, t) &&
      (els.Some? ==> Buildable(visible, NamesAfter(names, t), inLoop, els.value))
    case Loop(guard, body) =>
      (guard.Some? ==> Named(visible, names, guard.value)) && Buildable(visible, names, true, body)
    case Break => inLoop
    case Continue => inLoop
    case Return(e) => e.Some? ==> Named(visible, names, e.value)
  }

  predicate BuildableIn(visible: set<Name>, names: set<Name>, inLoop: bool, ss: Stmts)
    decreases ss
  {
    match ss
    case Done => true
    case Seq(s, rest) =>
      Buildable(visible, names, inLoop, s) && (Ends(s) || BuildableIn(visible, NamesAfter(names, s), inLoop, rest))
  }

  lemma {:induction false} ExprBuildsIff(visible: set<Name>, g: Ctx, e: Expr)
    requires HasBlock(g)
    ensures BuildExpr(visible, g, e).BuiltExpr? <==> Named(visible, g.names.Keys, e)
    decreases e
  {
    hide BuildArgs, BuildCall;
    match e
    case Binary(_, l, r) =>
      ExprBuildsIff(visible, g, l);
      if BuildExpr(visible, g, l).BuiltExpr? { ExprBuildsIff(visible, BuildExpr(visible, g, l).g, r); }
    case Unary(_, a) => ExprBuildsIff(visible, g, a);
    case Call(f, args) =>
      ExprBuildsIff(visible, g, f);
      if BuildExpr(visible, g, f).BuiltExpr? { ArgsBuildIff(visible, BuildExpr(visible, g, f).g, args); }
    case _ =>
  }

  lemma {:induction false} ArgsBuildIff(visible: set<Name>, g: Ctx, args: Args)
    requires HasBlock(g)
    ensures BuildArgs(visible, g, args).BuiltArgs? <==> NamedArgs(visible, g.names.Keys, args)
    decreases args
  {
    hide BuildExpr, Named;
    if args.Arg? {
      ExprBuildsIff(visible, g, args.first);
      if BuildExpr(visible, g, args.first).BuiltExpr? {
        ArgsBuildIff(visible, BuildExpr(visible, g, args.first).g, args.rest);
      }
    }
  }

  /** A statement is built exactly if its targets and identifiers are names the builder has by
      then and its breaks are inside loops. */
  lemma {:induction false} StmtBuildsIff(visible: set<Name>, g: Ctx, s: Stmt)
    requires Inv(g) && !Terminated(g)
    ensures BuildStmt(visible, g, s).Some? <==> Buildable(visible, g.names.Keys, g.loops != [], s)
    decreases s, 1
  {
    hide CodeOk, Constants, BuildExpr, BuildBranches, BuildStmts, BuildGuard, Named, EndsInTerminator;
    InvBlock(g);
    match s
    case ExprStmt(e) => ExprBuildsIff(visible, g, e);
    case VarDecl(x, e) =>
      var h := Fresh(g).(names := g.names[x := g.nv]);
      assert h.names.Keys == g.names.Keys + {x};
      ExprBuildsIff(visible, h, e);
    case Assign(_, e) => ExprBuildsIff(visible, g, e);
    case CompoundAssign(_, _, e) => ExprBuildsIff(visible, g, e);
    case Block(body) => StmtsBuildIff(visible, g, body);
    case If(c, _, _) =>
      ExprBuildsIff(visible, g, c);
      var r := BuildExpr(visible, g, c);
      if r.BuiltExpr? {
        ExprText(visible, g, c);
        BranchesBuildIff(visible, r.g, r.r, s);
      }
    case Loop(_, _) => LoopBuildsIff(visible, g, s);
    case Return(e) => if e.Some? { ExprBuildsIff(visible, g, e.value); }
    case _ =>
  }

  lemma BranchesBuildIff(visible: set<Name>, g: Ctx, cond: Reg, s: Stmt)
    requires s.If? && Inv(g) && !Terminated(g) && cond < g.nv
    ensures var names, inLoop := g.names.Keys, g.loops != [];
            BuildBranches(visible, g, cond, s).Some? <==>
            Buildable(visible, names, inLoop, s.thn) &&
            (s.els.Some? ==> Buildable(visible, NamesAfter(names, s.thn), inLoop, s.els.value))
    decreases s, 0
  {
    hide CodeOk, Constants, BuildStmt, BuildBranches, EndsInTerminator, Extends, Filled, Buildable, NamesAfter;
    var t := |g.blocks|;
    var g1 := BranchHead(g, cond, s);
    HeadShape(g, cond, s);
    SwitchInv(g1, t, g1.loops);
    EmptyOpen(g1, t);
    BranchesUnfold(visible, g, cond, s);
    StmtBuildsIff(visible, g1.(cur := t), s.thn);
    var a := BuildStmt(visible, g1.(cur := t), s.thn);
    if a.Some? {
      StmtText(visible, g1.(cur := t), s.thn);
      FillBlock(visible, g1, t, s.thn, t + 1);
      var g2 := CloseWith(a.value, Jump(t + 1));
      if s.els.Some? {
        StillOpen(g1, t, g2, t + 2);
        SwitchInv(g2, t + 2, g2.loops);
        EmptyOpen(g2, t + 2);
        SameLoops(g1, t, g2);
        StmtBuildsIff(visible, g2.(cur := t + 2), s.els.value);
      }
    }
  }

  lemma SameLoops(h: Ctx, c: BlockId, k: Ctx)
    requires Filled(h, c, k)
    ensures k.loops == h.loops
  {
  }

  lemma LoopBuildsIff(visible: set<Name>, g: Ctx, s: Stmt)
    requires s.Loop? && Inv(g) && !Terminated(g)
    ensures BuildStmt(visible, g, s).Some? <==>
            (s.guard.Some? ==> Named(visible, g.names.Keys, s.guard.value)) && Buildable(visible, g.names.Keys, true, s.loopBody)
    decreases s, 0
  {
    hide CodeOk, Constants, BuildStmt, BuildGuard, EndsInTerminator, Extends, Filled, Buildable, Named;
    InvBlock(g);
    var c := |g.blocks|;
    var h := LoopHead(g);
    LoopHeadShape(g);
    LoopUnfolds(visible, g, s);
    GuardBuildsIff(visible, h, s.guard, c);
    var r := BuildGuard(visible, h, s.guard, c);
    if r.Some? {
      GuardShape(visible, h, s.guard, c);
      StillOpen(h, c, r.value, c + 1);
      SwitchInv(r.value, c + 1, r.value.loops);
      EmptyOpen(r.value, c + 1);
      StmtBuildsIff(visible, r.value.(cur := c + 1), s.loopBody);
    }
  }

  lemma GuardBuildsIff(visible: set<Name>, g: Ctx, guard: Option<Expr>, c: BlockId)
    requires HasBlock(g)
    ensures BuildGuard(visible, g, guard, c).Some? <==> (guard.Some? ==> Named(visible, g.names.Keys, guard.value))
  {
    hide BuildExpr, Named;
    if guard.Some? { ExprBuildsIff(visible, g, guard.value); }
  }

  lemma {:induction false} StmtsBuildIff(visible: set<Name>, g: Ctx, ss: Stmts)
    requires Inv(g) && !Terminated(g)
    ensures BuildStmts(visible, g, ss).Some? <==> BuildableIn(visible, g.names.Keys, g.loops != [], ss)
    decreases ss
  {
    hide CodeOk, Constants, BuildStmt, EndsInTerminator, Buildable;
    if ss.Seq? {
      StmtBuildsIff(visible, g, ss.head);
      var a := BuildStmt(visible, g, ss.head);
      if a.Some? {
        StmtText(visible, g, ss.head);
        StmtKeepsShape(visible, g, ss.head);
        if Terminated(a.value) { NothingMore(visible, a.value, ss.tail); } else { StmtsBuildIff(visible, a.value, ss.tail); }
      }
    }
  }

  /** A function is built exactly if its text says so. */
  lemma FuncBuildsIff(visible: set<Name>, d: FuncDecl)
    ensures BuildFunc(visible, d).Some? <==> Buildable(visible, Params(d), false, d.body)
  {
    hide BuildStmt, Buildable, BindRegs, CodeOk, Constants;
    StartShape(d);
    assert StartFunc(d).names.Keys == Params(d);
    StmtBuildsIff(visible, StartFunc(d), d.body);
  }
}
