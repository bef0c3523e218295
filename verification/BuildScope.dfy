/**
 The builder's name table.  It is flat and is never restored when a scope ends, so it
 agrees with lexical scoping exactly as long as no declaration reuses a visible name.
 */
module BuildScope {
  import opened Values
  import opened Source
  import opened Ir
  import opened Build
  import opened BuildShape

  function Visible(p: Program): set<Name> {
    GlobalsOf(p.funcs).Keys
  }

  /** The names of `dom` have registers of their own, and no local hides a function. */
  ghost predicate NamesFor(p: Program, dom: set<Name>, names: map<Name, Reg>) {
    && dom <= names.Keys
    && names.Keys !! GlobalsOf(p.funcs).Keys
    && forall x, y | x in dom && y in dom && names[x] == names[y] :: x == y
  }

  ghost predicate Agree(dom: set<Name>, a: map<Name, Reg>, b: map<Name, Reg>) {
    forall x <- dom :: x in a && x in b && b[x] == a[x]
  }

  lemma DeclareNames(p: Program, dom: set<Name>, g: Ctx, x: Name)
    requires Inv(g) && NamesFor(p, dom, g.names) && x !in dom && x !in GlobalsOf(p.funcs)
    ensures NamesFor(p, dom + {x}, g.names[x := g.nv])
    ensures Agree(dom, g.names, g.names[x := g.nv])
  {
  }

  /** Statements keep the registers of the names in scope and bind a declared name afresh. */
  lemma {:induction false} StmtNames(p: Program, dom: set<Name>, g: Ctx, s: Stmt)
    requires Inv(g) && !Terminated(g) && NamesFor(p, dom, g.names) && DeclaresAnew(p, dom, s)
    requires BuildStmt(Visible(p), g, s).Some?
    ensures var g' := BuildStmt(Visible(p), g, s).value;
            NamesFor(p, ScopeAfter(dom, s), g'.names) && Agree(dom, g.names, g'.names)
    decreases s, 1
  {
    hide CodeOk, Constants;
    match s
    case VarDecl(x, e) => DeclareNames(p, dom, g, x);
    case Block(body) => StmtsNames(p, dom, g, body);
    case If(c, _, _) =>
      ExprKeepsShape(Visible(p), g, c);
      var r := BuildExpr(Visible(p), g, c);
      BranchNames(p, dom, r.g, r.r, s);
    case Loop(_, _) => LoopNames(p, dom, g, s);
    case _ =>
  }

  lemma BranchNames(p: Program, dom: set<Name>, g: Ctx, cond: Reg, s: Stmt)
    requires s.If? && Inv(g) && !Terminated(g) && cond < g.nv && NamesFor(p, dom, g.names) && DeclaresAnew(p, dom, s)
    requires BuildBranches(Visible(p), g, cond, s).Some?
    ensures var g' := BuildBranches(Visible(p), g, cond, s).value;
            NamesFor(p, dom, g'.names) && Agree(dom, g.names, g'.names)
    decreases s, 0
  {
    hide CodeOk, Constants, BuildStmt, BuildBranches, EndsInTerminator, Extends, Filled, NamesFor, Agree, GlobalsOf,
         Visible, ThenDone, ElseDone, BranchHead;
    var t := |g.blocks|;
    var g1 := BranchHead(g, cond, s);
    HeadShape(g, cond, s);
    SwitchInv(g1, t, g1.loops);
    EmptyOpen(g1, t);
    BranchesParts(Visible(p), g, cond, s);
    InnerNames(p, dom, g1.(cur := t), s.thn);
    if s.els.Some? {
      FillBlock(Visible(p), g1, t, s.thn, t + 1);
      var g2 := ThenDone(Visible(p), g, cond, s);
      OtherArmOpen(g1, t, g2);
      SwitchInv(g2, t + 2, g2.loops);
      EmptyOpen(g2, t + 2);
      InnerNames(p, dom, g2.(cur := t + 2), s.els.value);
      var g3 := ElseDone(Visible(p), g, cond, s);
      AgreeTransitive(dom, g.names, g2.names, g3.names);
    }
  }

  lemma OtherArmOpen(g: Ctx, t: BlockId, g': Ctx)
    requires Filled(g, t, g') && t + 2 < |g.blocks| && g.blocks[t + 2] == []
    ensures t + 2 < |g'.blocks| && g'.blocks[t + 2] == []
  {
  }

  lemma AgreeTransitive(dom: set<Name>, a: map<Name, Reg>, b: map<Name, Reg>, c: map<Name, Reg>)
    requires Agree(dom, a, b) && Agree(dom, b, c)
    ensures Agree(dom, a, c)
  {
  }

  lemma LoopNames(p: Program, dom: set<Name>, g: Ctx, s: Stmt)
    requires s.Loop? && Inv(g) && !Terminated(g) && NamesFor(p, dom, g.names) && DeclaresAnew(p, dom, s)
    requires BuildStmt(Visible(p), g, s).Some?
    ensures var g' := BuildStmt(Visible(p), g, s).value;
            NamesFor(p, dom, g'.names) && Agree(dom, g.names, g'.names)
    decreases s, 0
  {
    hide CodeOk, Constants, BuildStmt, BuildGuard, EndsInTerminator, Extends, Filled, NamesFor, Agree, GlobalsOf,
         Visible;
    InvBlock(g);
    var c := |g.blocks|;
    LoopParts(Visible(p), g, s);
    LoopHeadShape(g);
    GuardShape(Visible(p), LoopHead(g), s.guard, c);
    var k := LoopGuarded(Visible(p), g, s);
    GuardLeavesBody(LoopHead(g), k, c);
    SwitchInv(k, c + 1, k.loops);
    EmptyOpen(k, c + 1);
    InnerNames(p, dom, k.(cur := c + 1), s.loopBody);
  }

  /** A nested statement: what it declares goes out of scope with it. */
  lemma InnerNames(p: Program, dom: set<Name>, g: Ctx, s: Stmt)
    requires Inv(g) && !Terminated(g) && NamesFor(p, dom, g.names) && DeclaresAnew(p, dom, s)
    requires BuildStmt(Visible(p), g, s).Some?
    ensures var g' := BuildStmt(Visible(p), g, s).value;
            NamesFor(p, dom, g'.names) && Agree(dom, g.names, g'.names)
    decreases s, 2
  {
    StmtNames(p, dom, g, s);
  }

  lemma {:induction false} StmtsNames(p: Program, dom: set<Name>, g: Ctx, ss: Stmts)
    requires Inv(g) && NamesFor(p, dom, g.names) && DeclareAnew(p, dom, ss)
    requires BuildStmts(Visible(p), g, ss).Some?
    ensures var g' := BuildStmts(Visible(p), g, ss).value;
            NamesFor(p, dom, g'.names) && Agree(dom, g.names, g'.names)
    decreases ss
  {
    hide CodeOk, Constants;
    if ss.Seq? && !Terminated(g) {
      StmtNames(p, dom, g, ss.head);
      StmtKeepsShape(Visible(p), g, ss.head);
      StmtsNames(p, ScopeAfter(dom, ss.head), BuildStmt(Visible(p), g, ss.head).value, ss.tail);
    }
  }
}
