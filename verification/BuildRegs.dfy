/**
 Every register the builder hands out is a parameter or is named by some instruction.  The
 8-bit check of the lowering therefore bounds the register count of built functions.
 */
module BuildRegs {
  import opened Values
  import opened Source
  import opened Ir
  import opened Build
  import opened BuildShape
  import opened Lower
  import opened LowerLayout

  ghost predicate Used(blocks: Code, r: Reg) {
    exists b, k :: 0 <= b < |blocks| && 0 <= k < |blocks[b]| && r in Regs(blocks[b][k])
  }

  /** All registers from `lo` on are in use. */
  ghost predicate Covers(lo: nat, g: Ctx) {
    forall r | lo <= r < g.nv :: Used(g.blocks, r)
  }

  lemma UsedGrows(blocks: Code, more: Code, r: Reg)
    requires Within(blocks, more) && Used(blocks, r)
    ensures Used(more, r)
  {
    var b, k :| 0 <= b < |blocks| && 0 <= k < |blocks[b]| && r in Regs(blocks[b][k]);
    assert blocks[b] <= more[b];
    assert more[b][k] == blocks[b][k];
  }

  lemma CoversGrows(lo: nat, g: Ctx, g': Ctx)
    requires Covers(lo, g) && Within(g.blocks, g'.blocks)
    ensures forall r | lo <= r < g.nv :: Used(g'.blocks, r)
  {
    hide Used;
    forall r | lo <= r < g.nv
      ensures Used(g'.blocks, r)
    {
      UsedGrows(g.blocks, g'.blocks, r);
    }
  }

  /** Nothing new was allocated. */
  lemma CoversSame(lo: nat, g: Ctx, g': Ctx)
    requires Covers(lo, g) && Within(g.blocks, g'.blocks) && g'.nv <= g.nv
    ensures Covers(lo, g')
  {
    hide Used;
    CoversGrows(lo, g, g');
  }

  lemma EmitWithin(g: Ctx, i: Inst)
    requires HasBlock(g)
    ensures Within(g.blocks, Emit(g, i).blocks)
    ensures forall r <- Regs(i) :: Used(Emit(g, i).blocks, r)
  {
    var g' := Emit(g, i);
    assert g'.blocks[g.cur][|g.blocks[g.cur]|] == i;
  }

  lemma EmitCovers(lo: nat, g: Ctx, i: Inst)
    requires HasBlock(g) && Covers(lo, g)
    ensures Covers(lo, Emit(g, i))
  {
    hide Used;
    EmitWithin(g, i);
    CoversSame(lo, g, Emit(g, i));
  }

  lemma DefineCovers(lo: nat, g: Ctx, i: Inst)
    requires HasBlock(g) && Covers(lo, g) && g.nv in Regs(i)
    ensures Covers(lo, Define(g, i).g)
  {
    hide Used;
    EmitWithin(Fresh(g), i);
    CoversGrows(lo, g, Define(g, i).g);
  }

  lemma {:induction false} ExprCovers(visible: set<Name>, lo: nat, g: Ctx, e: Expr)
    requires HasBlock(g) && Covers(lo, g) && BuildExpr(visible, g, e).BuiltExpr?
    ensures Covers(lo, BuildExpr(visible, g, e).g)
    decreases e
  {
    hide Covers;
    match e
    case IntLit(i) => DefineCovers(lo, g, Constant(g.nv, Int(i)));
    case BoolLit(b) => DefineCovers(lo, g, Constant(g.nv, Bool(b)));
    case Ident(x) => if x !in g.names { DefineCovers(lo, g, LoadGlobal(g.nv, x)); }
    case Binary(op, left, right) =>
      ExprCovers(visible, lo, g, left);
      var l := BuildExpr(visible, g, left);
      ExprCovers(visible, lo, l.g, right);
      var r := BuildExpr(visible, l.g, right);
      DefineCovers(lo, r.g, Bin(op, r.g.nv, l.r, r.r));
    case Unary(op, operand) =>
      ExprCovers(visible, lo, g, operand);
      var a := BuildExpr(visible, g, operand);
      DefineCovers(lo, a.g, UnaryInst(op, a.g.nv, a.r));
    case Call(callee, args) =>
      ExprCovers(visible, lo, g, callee);
      var c := BuildExpr(visible, g, callee);
      ArgsCover(visible, lo, c.g, args);
      var a := BuildArgs(visible, c.g, args);
      CallCovers(lo, a.g, c.r, a.rs);
  }

  lemma {:induction false} ArgsCover(visible: set<Name>, lo: nat, g: Ctx, args: Args)
    requires HasBlock(g) && Covers(lo, g) && BuildArgs(visible, g, args).BuiltArgs?
    ensures Covers(lo, BuildArgs(visible, g, args).g)
    decreases args
  {
    hide Covers;
    if args.Arg? {
      ExprCovers(visible, lo, g, args.first);
      ArgsCover(visible, lo, BuildExpr(visible, g, args.first).g, args.rest);
    }
  }

  /** Every slot of the argument window is filled by a move. */
  lemma {:induction false} MovesCover(g: Ctx, start: Reg, args: seq<Reg>)
    requires HasBlock(g)
    ensures var g' := EmitMoves(g, start, args);
            Within(g.blocks, g'.blocks) && forall r | start <= r < start + |args| :: Used(g'.blocks, r)
    decreases |args|
  {
    hide Used;
    if args != [] {
      var n := |args| - 1;
      var g1 := EmitMoves(g, start, args[..n]);
      var i := Move(start + n, args[n]);
      MovesCover(g, start, args[..n]);
      EmitWithin(g1, i);
      WithinTrans(g.blocks, g1.blocks, Emit(g1, i).blocks);
      forall r | start <= r < start + |args|
        ensures Used(Emit(g1, i).blocks, r)
      {
        if r < start + n { UsedGrows(g1.blocks, Emit(g1, i).blocks, r); } else { assert r in Regs(i); }
      }
    }
  }

  lemma WithinTrans(a: Code, b: Code, c: Code)
    requires Within(a, b) && Within(b, c)
    ensures Within(a, c)
  {
    forall k | 0 <= k < |a|
      ensures a[k] <= c[k]
    {
      assert a[k] <= b[k] <= c[k];
    }
  }

  lemma CallCovers(lo: nat, g: Ctx, callee: Reg, args: seq<Reg>)
    requires HasBlock(g) && Covers(lo, g)
    ensures Covers(lo, BuildCall(g, callee, args).g)
  {
    hide Used;
    var start := g.nv;
    var g0 := g.(nv := g.nv + |args|);
    var g1 := EmitMoves(g0, start, args);
    MovesCover(g0, start, args);
    CoversGrows(lo, g, g1);
    DefineCovers(lo, g1, Ir.Call(g1.nv, callee, if args == [] then None else Some(start), |args|));
  }

  // ----- statements -----

  lemma {:induction false} StmtCovers(visible: set<Name>, lo: nat, g: Ctx, s: Stmt)
    requires Inv(g) && !Terminated(g) && Covers(lo, g) && BuildStmt(visible, g, s).Some?
    ensures Covers(lo, BuildStmt(visible, g, s).value)
    decreases s, 1
  {
    hide Inv, Covers, BuildExpr;
    InvBlock(g);
    match s
    case ExprStmt(e) => ExprCovers(visible, lo, g, e);
    case VarDecl(_, _) => DeclCovers(visible, lo, g, s);
    case Assign(x, e) =>
      ExprCovers(visible, lo, g, e);
      var r := BuildExpr(visible, g, e);
      EmitCovers(lo, r.g, Move(g.names[x], r.r));
    case CompoundAssign(x, op, e) =>
      ExprCovers(visible, lo, g, e);
      var r := BuildExpr(visible, g, e);
      var t := Define(r.g, Bin(op, r.g.nv, g.names[x], r.r));
      DefineCovers(lo, r.g, Bin(op, r.g.nv, g.names[x], r.r));
      EmitCovers(lo, t.g, Move(g.names[x], t.r));
    case Block(body) => StmtsCover(visible, lo, g, body);
    case If(c, _, _) =>
      ExprCovers(visible, lo, g, c);
      ExprKeepsShape(visible, g, c);
      var r := BuildExpr(visible, g, c);
      BranchesCover(visible, lo, r.g, r.r, s);
    case Loop(_, _) => LoopCovers(visible, lo, g, s);
    case Break => EmitCovers(lo, g, Jump(g.loops[|g.loops| - 1] + 2));
    case Continue => EmitCovers(lo, g, Jump(g.loops[|g.loops| - 1]));
    case Return(e) =>
      if e.Some? {
        ExprCovers(visible, lo, g, e.value);
        var r := BuildExpr(visible, g, e.value);
        EmitCovers(lo, r.g, Ir.Return(Some(r.r)));
      } else {
        EmitCovers(lo, g, Ir.Return(None));
      }
  }

  /** A declaration reserves its register before building the initialiser, and uses it after. */
  lemma DeclCovers(visible: set<Name>, lo: nat, g: Ctx, s: Stmt)
    requires s.VarDecl? && Inv(g) && !Terminated(g) && Covers(lo, g) && BuildStmt(visible, g, s).Some?
    ensures Covers(lo, BuildStmt(visible, g, s).value)
  {
    hide CodeOk, Constants, Used, BuildExpr, Within;
    var dst := g.nv;
    var g0 := Fresh(g).(names := g.names[s.x := dst]);
    FreshShape(g, 1);
    NamesInv(Fresh(g), s.x, dst);
    ExprKeepsShape(visible, g0, s.init);
    var r := BuildExpr(visible, g0, s.init);
    ExprCovers(visible, dst + 1, g0, s.init);
    ExtendsWithin(g0, r.g);
    CoversGrows(lo, g, r.g);
    var g' := Emit(r.g, Move(dst, r.r));
    EmitWithin(r.g, Move(dst, r.r));
    assert dst in Regs(Move(dst, r.r));
    forall q | lo <= q < g'.nv
      ensures Used(g'.blocks, q)
    {
      if q != dst { UsedGrows(r.g.blocks, g'.blocks, q); }
    }
  }

  lemma ExtendsWithin(g: Ctx, g': Ctx)
    requires Extends(g, g')
    ensures Within(g.blocks, g'.blocks)
  {
    WithinExtended(g, g', g'.blocks);
  }

  lemma CloseCovers(lo: nat, g: Ctx, i: Inst)
    requires HasBlock(g) && Covers(lo, g)
    ensures Covers(lo, CloseWith(g, i))
  {
    hide Covers;
    EmitCovers(lo, g, i);
  }

  lemma AddBlocksCovers(lo: nat, g: Ctx, n: nat)
    requires Covers(lo, g)
    ensures Covers(lo, AddBlocks(g, n))
  {
    hide Used;
    var g' := AddBlocks(g, n);
    assert forall b | 0 <= b < |g.blocks| :: g'.blocks[..|g.blocks|][b] == g'.blocks[b];
    CoversSame(lo, g, g');
  }

  /** Coverage does not depend on where building goes on. */
  lemma SwitchCovers(lo: nat, g: Ctx, c: BlockId, loops: seq<BlockId>)
    requires Covers(lo, g)
    ensures Covers(lo, g.(cur := c, loops := loops))
  {
  }

  lemma BranchesCover(visible: set<Name>, lo: nat, g: Ctx, cond: Reg, s: Stmt)
    requires s.If? && Inv(g) && !Terminated(g) && cond < g.nv && Covers(lo, g)
    requires BuildBranches(visible, g, cond, s).Some?
    ensures Covers(lo, BuildBranches(visible, g, cond, s).value)
    decreases s, 0
  {
    hide CodeOk, Constants, BuildStmt, EndsInTerminator, Covers, Extends;
    var t := |g.blocks|;
    var join := t + 1;
    var n := if s.els.None? then 2 else 3;
    var br := Branch(cond, t, if s.els.None? then join else t + 2);
    OpenShape(g, n, br);
    AddBlocksCovers(lo, g, n);
    EmitCovers(lo, AddBlocks(g, n), br);
    var g1 := Emit(AddBlocks(g, n), br);
    ArmCovers(visible, lo, g1, t, s.thn, join);
    var g2 := CloseWith(BuildStmt(visible, g1.(cur := t), s.thn).value, Jump(join));
    SwitchCovers(lo, g2, join, g2.loops);
    if s.els.Some? {
      ArmCovers(visible, lo, g2, t + 2, s.els.value, join);
      var g3 := CloseWith(BuildStmt(visible, g2.(cur := t + 2), s.els.value).value, Jump(join));
      SwitchCovers(lo, g3, join, g3.loops);
    }
  }

  lemma ArmCovers(visible: set<Name>, lo: nat, h: Ctx, c: BlockId, s: Stmt, out: BlockId)
    requires Inv(h) && c < |h.blocks| && h.blocks[c] == [] && out < |h.blocks| && Covers(lo, h)
    requires BuildStmt(visible, h.(cur := c), s).Some?
    ensures var k := CloseWith(BuildStmt(visible, h.(cur := c), s).value, Jump(out));
            Inv(k) && Filled(h, c, k) && Covers(lo, k)
    decreases s, 2
  {
    hide CodeOk, Constants, Covers, BuildStmt, EndsInTerminator;
    var h1 := h.(cur := c);
    SwitchInv(h, c, h.loops);
    SwitchCovers(lo, h, c, h.loops);
    EmptyOpen(h, c);
    StmtCovers(visible, lo, h1, s);
    CloseCovers(lo, BuildStmt(visible, h1, s).value, Jump(out));
    FillBlock(visible, h, c, s, out);
  }

  lemma LoopCovers(visible: set<Name>, lo: nat, g: Ctx, s: Stmt)
    requires s.Loop? && Inv(g) && !Terminated(g) && Covers(lo, g) && BuildStmt(visible, g, s).Some?
    ensures Covers(lo, BuildStmt(visible, g, s).value)
    decreases s, 0
  {
    hide Inv, Covers, BuildStmt, EndsInTerminator, Extends, LoopDone;
    InvBlock(g);
    var c := |g.blocks|;
    LoopParts(visible, g, s);
    LoopHeadShape(g);
    AddBlocksCovers(lo, g, 3);
    EmitCovers(lo, AddBlocks(g, 3), Jump(c));
    var h := LoopHead(g);
    SwitchCovers(lo, Emit(AddBlocks(g, 3), Jump(c)), c, g.loops + [c]);
    GuardShape(visible, h, s.guard, c);
    GuardCovers(visible, lo, h, s.guard, c);
    var k := LoopGuarded(visible, g, s);
    ArmCovers(visible, lo, k, c + 1, s.loopBody, c);
    LoopDoneIs(visible, g, s);
    SwitchCovers(lo, LoopDone(visible, g, s), c + 2, g.loops);
  }

  lemma GuardCovers(visible: set<Name>, lo: nat, g: Ctx, guard: Option<Expr>, c: BlockId)
    requires HasBlock(g) && Covers(lo, g) && BuildGuard(visible, g, guard, c).Some?
    ensures Covers(lo, BuildGuard(visible, g, guard, c).value)
  {
    hide Covers, BuildExpr;
    if guard.None? {
      EmitCovers(lo, g, Jump(c + 1));
    } else {
      ExprCovers(visible, lo, g, guard.value);
      var r := BuildExpr(visible, g, guard.value);
      EmitCovers(lo, r.g, Branch(r.r, c + 1, c + 2));
    }
  }

  lemma {:induction false} StmtsCover(visible: set<Name>, lo: nat, g: Ctx, ss: Stmts)
    requires Inv(g) && Covers(lo, g) && BuildStmts(visible, g, ss).Some?
    ensures Covers(lo, BuildStmts(visible, g, ss).value)
    decreases ss
  {
    hide CodeOk, Constants, Covers, BuildStmt, Extends;
    if ss.Seq? && !Terminated(g) {
      StmtKeepsShape(visible, g, ss.head);
      StmtCovers(visible, lo, g, ss.head);
      StmtsCover(visible, lo, BuildStmt(visible, g, ss.head).value, ss.tail);
    }
  }

  // ----- functions -----

  /** No register of a built function is idle: above the parameters each one is named. */
  lemma FuncCovers(visible: set<Name>, d: FuncDecl)
    requires BuildFunc(visible, d).Some?
    ensures var f := BuildFunc(visible, d).value; forall r | f.arity <= r < f.nregs :: Used(f.blocks, r)
  {
    hide Inv, BuildStmt, Used, BindRegs;
    var g := StartFunc(d);
    StartShape(d);
    StmtCovers(visible, |d.params|, g, d.body);
    CloseCovers(|d.params|, BuildStmt(visible, g, d.body).value, Ir.Return(None));
  }

  lemma UsedSmall(f: Func, r: Reg)
    requires Lowerable(f) && Used(f.blocks, r)
    ensures r <= 255
  {
    hide Emitted, Entries, Flat;
    var b, k :| 0 <= b < |f.blocks| && 0 <= k < |f.blocks[b]| && r in Regs(f.blocks[b][k]);
    InFlat(f, b, k);
  }

  /** What lowering accepts has 8-bit registers only. */
  lemma FewRegisters(visible: set<Name>, d: FuncDecl)
    requires BuildFunc(visible, d).Some? && Lowerable(BuildFunc(visible, d).value)
    ensures BuildFunc(visible, d).value.nregs <= 256
  {
    hide BuildFunc, Used, Emitted, Encodable, Entries;
    var f := BuildFunc(visible, d).value;
    FuncCovers(visible, d);
    if f.nregs - 1 >= f.arity { UsedSmall(f, f.nregs - 1); }
  }
}
