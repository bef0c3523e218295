/**
 Renaming declarations apart does not change what the builder makes of a function: its table
 of names is the only place where names occur.
 */
module HidingBuild {
  import opened Values
  import opened Source
  import opened Ir
  import opened Build
  import opened BuildShape
  import opened BuildText
  import opened Hiding

  /** The two tables have the same register for a name and for its new name; functions are in
      neither. */
  ghost predicate SameTables(flat: map<Name, Name>, a: map<Name, Reg>, b: map<Name, Reg>, base: nat) {
    && a.Keys == flat.Keys && (forall x <- flat :: flat[x] in b && b[flat[x]] == a[x]) && forall y <- b :: base <= y
  }

  ghost predicate Visibles(p: Program, visible: set<Name>, base: nat) {
    visible == GlobalsOf(p.funcs).Keys && forall x <- visible :: x < base
  }

  function WithNames(r: BuiltExpr, names: map<Name, Reg>): BuiltExpr {
    if r.NoExpr? then NoExpr else BuiltExpr(r.g.(names := names), r.r)
  }

  lemma {:induction false} ExprSame(p: Program, visible: set<Name>, g: Ctx, b: map<Name, Reg>, lex: map<Name, Name>,
                                    flat: map<Name, Name>, base: nat, e: Expr)
    requires HasBlock(g) && Visibles(p, visible, base) && SameTables(flat, g.names, b, base) && ExprOk(p, lex, flat, e)
    ensures BuildExpr(visible, g.(names := b), RenamedExpr(lex, e)) == WithNames(BuildExpr(visible, g, e), b)
    decreases e
  {
    hide GlobalsOf;
    match e
    case Binary(_, l, r) =>
      ExprSame(p, visible, g, b, lex, flat, base, l);
      var a := BuildExpr(visible, g, l);
      if a.BuiltExpr? { ExprSame(p, visible, a.g, b, lex, flat, base, r); }
    case Unary(_, a) => ExprSame(p, visible, g, b, lex, flat, base, a);
    case Call(f, args) => CallSame(p, visible, g, b, lex, flat, base, e);
    case _ =>
  }

  lemma {:induction false} CallSame(p: Program, visible: set<Name>, g: Ctx, b: map<Name, Reg>, lex: map<Name, Name>,
                                    flat: map<Name, Name>, base: nat, e: Expr)
    requires e.Call?
    requires HasBlock(g) && Visibles(p, visible, base) && SameTables(flat, g.names, b, base) && ExprOk(p, lex, flat, e)
    ensures BuildExpr(visible, g.(names := b), RenamedExpr(lex, e)) == WithNames(BuildExpr(visible, g, e), b)
    decreases e, 0
  {
    hide GlobalsOf, BuildCall, BuildArgs, RenamedArgs, Visibles, SameTables;
    ExprSame(p, visible, g, b, lex, flat, base, e.callee);
    var c := BuildExpr(visible, g, e.callee);
    if c.BuiltExpr? {
      ArgsSame(p, visible, c.g, b, lex, flat, base, e.args);
      var a := BuildArgs(visible, c.g, e.args);
      if a.BuiltArgs? { CallWindowSame(a.g, b, c.r, a.rs); }
    }
  }

  lemma {:induction false} ArgsSame(p: Program, visible: set<Name>, g: Ctx, b: map<Name, Reg>, lex: map<Name, Name>,
                                    flat: map<Name, Name>, base: nat, args: Args)
    requires HasBlock(g) && Visibles(p, visible, base) && SameTables(flat, g.names, b, base) && ArgsOk(p, lex, flat, args)
    ensures var r := BuildArgs(visible, g, args);
            BuildArgs(visible, g.(names := b), RenamedArgs(lex, args)) ==
            if r.NoArgs? then BuiltArgs.NoArgs else BuiltArgs(r.g.(names := b), r.rs)
    decreases args
  {
    hide GlobalsOf, BuildExpr, RenamedExpr, Visibles, SameTables;
    if args.Arg? {
      ExprSame(p, visible, g, b, lex, flat, base, args.first);
      var f := BuildExpr(visible, g, args.first);
      if f.BuiltExpr? { ArgsSame(p, visible, f.g, b, lex, flat, base, args.rest); }
    }
  }

  lemma CallWindowSame(g: Ctx, b: map<Name, Reg>, callee: Reg, args: seq<Reg>)
    requires HasBlock(g)
    ensures BuildCall(g.(names := b), callee, args) == WithNames(BuildCall(g, callee, args), b)
  {
    MovesSame(g.(nv := g.nv + |args|), b, g.nv, args);
    assert g.(names := b).(nv := g.nv + |args|) == g.(nv := g.nv + |args|).(names := b);
  }

  lemma {:induction false} MovesSame(g: Ctx, b: map<Name, Reg>, start: Reg, args: seq<Reg>)
    requires HasBlock(g)
    ensures EmitMoves(g.(names := b), start, args) == EmitMoves(g, start, args).(names := b)
    decreases |args|
  {
    if args != [] { MovesSame(g, b, start, args[..|args| - 1]); }
  }

  // ----- statements -----

  /** The second building has got as far as the first, with the tables still in step. */
  ghost predicate InStep(c: Names, r: Option<Ctx>, t: Option<Ctx>, base: nat) {
    && (r.Some? <==> t.Some?)
    && (r.Some? ==> t.value == r.value.(names := t.value.names) && SameTables(c.flat, r.value.names, t.value.names, base))
  }

  ghost predicate Ready(p: Program, visible: set<Name>, c: Names, g: Ctx, b: map<Name, Reg>, base: nat) {
    && Inv(g) && !Terminated(g) && Visibles(p, visible, base) && SameTables(c.flat, g.names, b, base)
    && base <= c.next && (forall x <- c.flat :: c.flat[x] < c.next)
  }

  lemma {:induction false} StmtSame(p: Program, visible: set<Name>, c: Names, g: Ctx, b: map<Name, Reg>, base: nat, s: Stmt)
    requires Room(c, Declarations(s)) && Ready(p, visible, c, g, b, base) && StmtOk(p, c, s)
    ensures InStep(After(c, s), BuildStmt(visible, g, s), BuildStmt(visible, g.(names := b), Renamed(c, s)), base)
    ensures forall x <- After(c, s).flat :: After(c, s).flat[x] < After(c, s).next
    decreases s, 1
  {
    hide GlobalsOf, ExprOk, BuildExpr, RenamedExpr, CodeOk, Constants, Visibles;
    match s
    case ExprStmt(e) => ExprSame(p, visible, g, b, c.lex, c.flat, base, e);
    case VarDecl(_, _) => DeclSame(p, visible, c, g, b, base, s);
    case Assign(_, e) => ExprSame(p, visible, g, b, c.lex, c.flat, base, e);
    case CompoundAssign(_, _, e) => CompoundSame(p, visible, c, g, b, base, s);
    case Block(body) => ListSame(p, visible, c, g, b, base, body);
    case If(_, _, _) => IfSame(p, visible, c, g, b, base, s);
    case Loop(_, _) => LoopSame(p, visible, c, g, b, base, s);
    case Return(e) => if e.Some? { ExprSame(p, visible, g, b, c.lex, c.flat, base, e.value); }
    case _ =>
  }

  lemma DeclSame(p: Program, visible: set<Name>, c: Names, g: Ctx, b: map<Name, Reg>, base: nat, s: Stmt)
    requires s.VarDecl? && Room(c, Declarations(s)) && Ready(p, visible, c, g, b, base) && StmtOk(p, c, s)
    ensures InStep(After(c, s), BuildStmt(visible, g, s), BuildStmt(visible, g.(names := b), Renamed(c, s)), base)
  {
    hide GlobalsOf, ExprOk, BuildExpr, RenamedExpr, CodeOk, Constants, Visibles;
    var h := Fresh(g).(names := g.names[s.x := g.nv]);
    var b' := b[c.next := g.nv];
    assert SameTables(After(c, s).flat, h.names, b', base);
    ExprSame(p, visible, h, b', c.lex, After(c, s).flat, base, s.init);
    assert Fresh(g.(names := b)).(names := b') == h.(names := b');
  }

  lemma CompoundSame(p: Program, visible: set<Name>, c: Names, g: Ctx, b: map<Name, Reg>, base: nat, s: Stmt)
    requires s.CompoundAssign? && Room(c, Declarations(s)) && Ready(p, visible, c, g, b, base) && StmtOk(p, c, s)
    ensures InStep(After(c, s), BuildStmt(visible, g, s), BuildStmt(visible, g.(names := b), Renamed(c, s)), base)
  {
    hide GlobalsOf, ExprOk, BuildExpr, RenamedExpr, CodeOk, Constants, Visibles;
    ExprSame(p, visible, g, b, c.lex, c.flat, base, s.value);
  }

  lemma IfSame(p: Program, visible: set<Name>, c: Names, g: Ctx, b: map<Name, Reg>, base: nat, s: Stmt)
    requires s.If? && Room(c, Declarations(s)) && Ready(p, visible, c, g, b, base) && StmtOk(p, c, s)
    ensures InStep(After(c, s), BuildStmt(visible, g, s), BuildStmt(visible, g.(names := b), Renamed(c, s)), base)
    ensures forall x <- After(c, s).flat :: After(c, s).flat[x] < After(c, s).next
    decreases s, 0
  {
    hide GlobalsOf, ExprOk, BuildExpr, RenamedExpr, CodeOk, Constants, Visibles, SameTables, BuildStmt, BuildBranches;
    ExprSame(p, visible, g, b, c.lex, c.flat, base, s.cond);
    var e, s' := BuildExpr(visible, g, s.cond), Renamed(c, s);
    IfUnfolds(visible, g, s);
    IfUnfolds(visible, g.(names := b), s');
    if e.BuiltExpr? { ExprText(visible, g, s.cond); }
    if e.BuiltExpr? { ArmsSame(p, visible, c, e.g, b, base, e.r, s); } else { StmtFlat(c, s); }
  }

  /** New names are below the next one. */
  lemma {:induction false} StmtFlat(c: Names, s: Stmt)
    requires Room(c, Declarations(s)) && forall x <- c.flat :: c.flat[x] < c.next
    ensures forall x <- After(c, s).flat :: After(c, s).flat[x] < After(c, s).next
    decreases s
  {
    match s
    case Block(body) => ListFlat(c, body);
    case If(_, t, els) =>
      StmtFlat(c, t);
      if els.Some? { StmtFlat(After(c, t).(lex := c.lex), els.value); }
    case Loop(_, body) => StmtFlat(c, body);
    case _ =>
  }

  lemma {:induction false} ListFlat(c: Names, ss: Stmts)
    requires Room(c, DeclarationsIn(ss)) && forall x <- c.flat :: c.flat[x] < c.next
    ensures forall x <- AfterIn(c, ss).flat :: AfterIn(c, ss).flat[x] < AfterIn(c, ss).next
    decreases ss
  {
    hide After;
    if ss.Seq? {
      StmtFlat(c, ss.head);
      ListFlat(After(c, ss.head), ss.tail);
    }
  }

  /** Closing the block and moving on to another one leaves the tables alone. */
  lemma ClosedSame(c: Names, r: Option<Ctx>, t: Option<Ctx>, base: nat, i: Inst, cur: BlockId)
    requires InStep(c, r, t, base) && r.Some? && HasBlock(r.value)
    ensures InStep(c, Some(CloseWith(r.value, i).(cur := cur)), Some(CloseWith(t.value, i).(cur := cur)), base)
  {
    hide SameTables, EndsInTerminator;
  }

  lemma ArmsSame(p: Program, visible: set<Name>, c: Names, g: Ctx, b: map<Name, Reg>, base: nat, cond: Reg, s: Stmt)
    requires s.If? && cond < g.nv && Room(c, Declarations(s)) && Ready(p, visible, c, g, b, base) && StmtOk(p, c, s)
    ensures InStep(After(c, s), BuildBranches(visible, g, cond, s),
                   BuildBranches(visible, g.(names := b), cond, Renamed(c, s)), base)
    ensures forall x <- After(c, s).flat :: After(c, s).flat[x] < After(c, s).next
    decreases s, 0, 0
  {
    hide GlobalsOf, ExprOk, RenamedExpr, CodeOk, Constants, Visibles, SameTables, BuildStmt, EndsInTerminator,
         Extends, Filled, BuildBranches, BranchHead;
    StmtFlat(c, s);
    var t := |g.blocks|;
    var g1, s' := BranchHead(g, cond, s), Renamed(c, s);
    HeadShape(g, cond, s);
    BranchesUnfold(visible, g, cond, s);
    BranchesUnfold(visible, g.(names := b), cond, s');
    SwitchInv(g1, t, g1.loops);
    EmptyOpen(g1, t);
    StmtSame(p, visible, c, g1.(cur := t), b, base, s.thn);
    HeadSame(g, b, cond, s, s');
    var a, a' := BuildStmt(visible, g1.(cur := t), s.thn), BuildStmt(visible, g1.(cur := t).(names := b), s'.thn);
    if a.Some? {
      ClosedSame(After(c, s.thn), a, a', base, Jump(t + 1), t + 1);
      if s.els.Some? {
        ClosedSame(After(c, s.thn), a, a', base, Jump(t + 1), t + 2);
        var b2, g2 := a'.value.names, CloseWith(a.value, Jump(t + 1)).(cur := t + 2);
        ElseSame(p, visible, c, g, a.value, b2, base, cond, s);
        var r, r' := BuildStmt(visible, g2, s.els.value), BuildStmt(visible, g2.(names := b2), s'.els.value);
        if r.Some? { ClosedSame(After(c, s), r, r', base, Jump(t + 1), t + 1); }
      }
    }
  }

  lemma HeadSame(g: Ctx, b: map<Name, Reg>, cond: Reg, s: Stmt, s': Stmt)
    requires s.If? && s'.If? && (s.els.Some? <==> s'.els.Some?) && HasBlock(g)
    ensures BranchHead(g.(names := b), cond, s') == BranchHead(g, cond, s).(names := b)
  {
  }

  lemma ElseSame(p: Program, visible: set<Name>, c: Names, g: Ctx, a: Ctx, b: map<Name, Reg>, base: nat, cond: Reg, s: Stmt)
    requires s.If? && s.els.Some? && cond < g.nv && Room(c, Declarations(s)) && StmtOk(p, c, s)
    requires Inv(g) && !Terminated(g) && Visibles(p, visible, base) && base <= c.next && HasBlock(a)
    requires BuildStmt(visible, BranchHead(g, cond, s).(cur := |g.blocks|), s.thn) == Some(a)
    requires var c2 := After(c, s.thn);
             SameTables(c2.flat, a.names, b, base) && forall x <- c2.flat :: c2.flat[x] < c2.next
    ensures var g2 := CloseWith(a, Jump(|g.blocks| + 1)).(cur := |g.blocks| + 2);
            HasBlock(g2) &&
            InStep(After(c, s), BuildStmt(visible, g2, s.els.value),
                   BuildStmt(visible, g2.(names := b), Renamed(c, s).els.value), base)
    decreases s, 0, 0, 0
  {
    hide GlobalsOf, ExprOk, RenamedExpr, CodeOk, Constants, Visibles, SameTables, BuildStmt, EndsInTerminator,
         Extends, Filled, BranchHead;
    var c2 := After(c, s.thn).(lex := c.lex);
    ElseReady(p, visible, c2, g, a, b, base, cond, s);
    StmtSame(p, visible, c2, CloseWith(a, Jump(|g.blocks| + 1)).(cur := |g.blocks| + 2), b, base, s.els.value);
  }

  /** The `else` arm's block, once the `then` arm has been closed. */
  lemma ElseReady(p: Program, visible: set<Name>, c: Names, g: Ctx, a: Ctx, b: map<Name, Reg>, base: nat, cond: Reg, s: Stmt)
    requires s.If? && s.els.Some? && cond < g.nv && Inv(g) && !Terminated(g)
    requires BuildStmt(visible, BranchHead(g, cond, s).(cur := |g.blocks|), s.thn) == Some(a) && HasBlock(a)
    requires Visibles(p, visible, base) && SameTables(c.flat, a.names, b, base)
    requires base <= c.next && forall x <- c.flat :: c.flat[x] < c.next
    ensures Ready(p, visible, c, CloseWith(a, Jump(|g.blocks| + 1)).(cur := |g.blocks| + 2), b, base)
  {
    hide CodeOk, Constants, Visibles, SameTables, BuildStmt, EndsInTerminator, Extends, BranchHead;
    var t := |g.blocks|;
    var g1 := BranchHead(g, cond, s);
    HeadShape(g, cond, s);
    FillBlock(visible, g1, t, s.thn, t + 1);
    var g2 := CloseWith(a, Jump(t + 1));
    StillOpen(g1, t, g2, t + 2);
    SwitchInv(g2, t + 2, g2.loops);
    EmptyOpen(g2, t + 2);
  }

  lemma LoopSame(p: Program, visible: set<Name>, c: Names, g: Ctx, b: map<Name, Reg>, base: nat, s: Stmt)
    requires s.Loop? && Room(c, Declarations(s)) && Ready(p, visible, c, g, b, base) && StmtOk(p, c, s)
    ensures InStep(After(c, s), BuildStmt(visible, g, s), BuildStmt(visible, g.(names := b), Renamed(c, s)), base)
    ensures forall x <- After(c, s).flat :: After(c, s).flat[x] < After(c, s).next
    decreases s, 0
  {
    hide GlobalsOf, ExprOk, StmtOk, Declarations, Renamed, After, BuildExpr, RenamedExpr, CodeOk, Constants, Visibles,
         SameTables, BuildStmt, EndsInTerminator, Extends, Filled, BuildGuard;
    LoopRenamed(p, c, s);
    StmtFlat(c, s);
    var k := |g.blocks|;
    var h := LoopHead(g);
    LoopHeadShape(g);
    LoopUnfolds(visible, g, s);
    LoopUnfolds(visible, g.(names := b), Renamed(c, s));
    GuardSame(p, visible, c, h, b, base, s, k);
    assert LoopHead(g.(names := b)) == h.(names := b);
    var r := BuildGuard(visible, h, s.guard, k);
    if r.Some? {
      GuardShape(visible, h, s.guard, k);
      StillOpen(h, k, r.value, k + 1);
      SwitchInv(r.value, k + 1, r.value.loops);
      EmptyOpen(r.value, k + 1);
      StmtSame(p, visible, c, r.value.(cur := k + 1), b, base, s.loopBody);
    }
  }

  lemma GuardSame(p: Program, visible: set<Name>, c: Names, h: Ctx, b: map<Name, Reg>, base: nat, s: Stmt, k: BlockId)
    requires s.Loop? && (s.guard.Some? ==> ExprOk(p, c.lex, c.flat, s.guard.value)) && HasBlock(h)
    requires Visibles(p, visible, base) && SameTables(c.flat, h.names, b, base)
    ensures var guard := if s.guard.Some? then Some(RenamedExpr(c.lex, s.guard.value)) else None;
            var r, t := BuildGuard(visible, h, s.guard, k), BuildGuard(visible, h.(names := b), guard, k);
            if r.None? then t.None? else t == Some(r.value.(names := b))
  {
    hide GlobalsOf, ExprOk, BuildExpr, RenamedExpr, Visibles, SameTables;
    if s.guard.Some? { ExprSame(p, visible, h, b, c.lex, c.flat, base, s.guard.value); }
  }

  lemma {:induction false} ListSame(p: Program, visible: set<Name>, c: Names, g: Ctx, b: map<Name, Reg>, base: nat, ss: Stmts)
    requires Room(c, DeclarationsIn(ss)) && Ready(p, visible, c, g, b, base) && ListOk(p, c, ss)
    ensures InStep(AfterIn(c, ss), BuildStmts(visible, g, ss), BuildStmts(visible, g.(names := b), RenamedIn(c, ss)), base)
    ensures forall x <- AfterIn(c, ss).flat :: AfterIn(c, ss).flat[x] < AfterIn(c, ss).next
    decreases ss
  {
    hide GlobalsOf, StmtOk, CodeOk, Constants, Visibles, SameTables, BuildStmt, EndsInTerminator, After, Renamed;
    ListFlat(c, ss);
    if ss.Seq? {
      StmtSame(p, visible, c, g, b, base, ss.head);
      var a := BuildStmt(visible, g, ss.head);
      if a.Some? {
        var b2 := BuildStmt(visible, g.(names := b), Renamed(c, ss.head)).value.names;
        StmtText(visible, g, ss.head);
        StmtKeepsShape(visible, g, ss.head);
        if Terminated(a.value) {
          NothingMore(visible, a.value, ss.tail);
          NothingMore(visible, a.value.(names := b2), RenamedIn(After(c, ss.head), ss.tail));
        } else {
          ListSame(p, visible, After(c, ss.head), a.value, b2, base, ss.tail);
        }
      }
    }
  }

  // ----- functions -----

  lemma ParamsSame(params: seq<Name>, base: nat)
    requires base + |params| <= NAMES && Distinct(params)
    ensures SameTables(ParamNames(params, base), BindRegs(params), BindRegs(NewParams(|params|, base)), base)
    ensures forall x <- ParamNames(params, base) :: ParamNames(params, base)[x] < base + |params|
  {
    var qs := NewParams(|params|, base);
    forall x <- params
      ensures ParamNames(params, base)[x] in BindRegs(qs)
      ensures BindRegs(qs)[ParamNames(params, base)[x]] == BindRegs(params)[x]
    {
      var y := ParamNames(params, base)[x];
      assert qs[y - base] == y && y in qs;
      var k := BindRegs(qs)[y];
      assert qs[k] == y;
    }
  }

  lemma FuncSame(p: Program, visible: set<Name>, d: FuncDecl, base: nat)
    requires Visibles(p, visible, base) && FuncOk(p, d, base)
    ensures BuildFunc(visible, RenamedFunc(d, base)) == BuildFunc(visible, d)
  {
    hide GlobalsOf, StmtOk, Visibles, SameTables, BuildStmt, Renamed, BindRegs, ParamNames, NewParams, CodeOk,
         Constants;
    var c, g, e := Start(d, base), StartFunc(d), RenamedFunc(d, base);
    StartShape(d);
    ParamsSame(d.params, base);
    StmtSame(p, visible, c, g, BindRegs(e.params), base, d.body);
  }

  lemma {:induction false} FuncsSame(p: Program, visible: set<Name>, ds: seq<FuncDecl>, es: seq<FuncDecl>, base: nat)
    requires Visibles(p, visible, base) && |ds| == |es|
    requires forall i | 0 <= i < |ds| :: FuncOk(p, ds[i], base) && es[i] == RenamedFunc(ds[i], base)
    ensures BuildFuncs(visible, es) == BuildFuncs(visible, ds)
    decreases |ds|
  {
    hide GlobalsOf, FuncOk, RenamedFunc, BuildFunc, Visibles;
    if ds != [] {
      var n := |ds| - 1;
      FuncSame(p, visible, ds[n], base);
      FuncsSame(p, visible, ds[..n], es[..n], base);
    }
  }
}
