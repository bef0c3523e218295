/**
 The shape of what the builder produces, whatever the program: which blocks a statement
 may touch, that every block ends in its only terminator, that conditional edges go
 forward, and that registers, targets and constants stay within their bounds.
 */
module BuildShape {
  import opened Values
  import opened Source
  import opened Ir
  import opened Build

  /** From `g` to `g'` only the current block grew; other old blocks are untouched, and
      building continues in the same block or in a new one. */
  ghost predicate Extends(g: Ctx, g': Ctx) {
    && HasBlock(g) && HasBlock(g')
    && |g.blocks| <= |g'.blocks| && g.nv <= g'.nv
    && (g'.cur == g.cur || g'.cur >= |g.blocks|)
    && g.blocks[g.cur] <= g'.blocks[g.cur]
    && (forall b | 0 <= b < |g.blocks| && b != g.cur :: g'.blocks[b] == g.blocks[b])
    && g'.loops == g.loops
  }

  /** `code` contains at least what has been built so far. */
  ghost predicate Within(blocks: Code, code: Code) {
    |blocks| <= |code| && forall b | 0 <= b < |blocks| :: blocks[b] <= code[b]
  }

  lemma WithinExtended(g: Ctx, g': Ctx, code: Code)
    requires Extends(g, g') && Within(g'.blocks, code)
    ensures Within(g.blocks, code)
  {
    forall b | 0 <= b < |g.blocks|
      ensures g.blocks[b] <= code[b]
    {
      assert g.blocks[b] <= g'.blocks[b];
    }
  }

  predicate AllBelow(rs: seq<Reg>, n: nat) {
    forall k | 0 <= k < |rs| :: rs[k] < n
  }

  /** The argument window of a call lies above its callee and within the registers. */
  predicate WindowOk(i: Inst, nv: nat)
    requires i.Call?
  {
    match i.argStart
    case None => i.argc == 0
    case Some(s) => i.callee < s && s + i.argc <= nv
  }

  predicate InstOk(i: Inst, b: BlockId, nb: nat, nv: nat) {
    && (forall r <- Regs(i) :: r < nv)
    && (forall t <- Targets(i) :: t < nb)
    && (i.Branch? ==> i.onTrue > b && i.onFalse > b)
    && (i.Call? ==> WindowOk(i, nv))
    && (i.Constant? ==> i.v.Int? || i.v.Bool?)
  }

  /** Instructions of block `b` are in bounds and a terminator can only be the last one. */
  ghost predicate BlockOk(block: seq<Inst>, b: BlockId, nb: nat, nv: nat) {
    && (forall k | 0 <= k < |block| :: InstOk(block[k], b, nb, nv))
    && (forall k | 0 <= k < |block| - 1 :: !IsTerminator(block[k]))
  }

  ghost predicate CodeOk(blocks: Code, nv: nat) {
    forall b | 0 <= b < |blocks| :: BlockOk(blocks[b], b, |blocks|, nv)
  }

  function UsesConstant(i: Inst): nat {
    if i.Constant? || i.LoadGlobal? then 1 else 0
  }

  function ConstantsIn(block: seq<Inst>): nat {
    if block == [] then 0 else ConstantsIn(block[..|block| - 1]) + UsesConstant(block[|block| - 1])
  }

  function Constants(blocks: Code): nat {
    if blocks == [] then 0 else Constants(blocks[..|blocks| - 1]) + ConstantsIn(blocks[|blocks| - 1])
  }

  ghost predicate Inv(g: Ctx) {
    && HasBlock(g) && CodeOk(g.blocks, g.nv)
    && (forall x <- g.names :: g.names[x] < g.nv)
    && (forall l <- g.loops :: l + 2 < |g.blocks|)
    && Constants(g.blocks) <= g.nv
  }

  /** Every block that was opened between `g` and `g'` and left again is closed. */
  ghost predicate Closes(g: Ctx, g': Ctx)
    requires HasBlock(g) && HasBlock(g') && |g.blocks| <= |g'.blocks|
  {
    && (forall b | |g.blocks| <= b < |g'.blocks| && b != g'.cur :: EndsInTerminator(g'.blocks[b]))
    && (g'.cur != g.cur ==> EndsInTerminator(g'.blocks[g.cur]))
  }

  // ----- one instruction, new blocks -----

  lemma {:induction false} ConstantsAppend(blocks: Code, cur: BlockId, i: Inst)
    requires cur < |blocks|
    ensures Constants(blocks[cur := blocks[cur] + [i]]) == Constants(blocks) + UsesConstant(i)
  {
    var n := |blocks| - 1;
    var blocks' := blocks[cur := blocks[cur] + [i]];
    if cur == n {
      assert (blocks[n] + [i])[..|blocks[n]|] == blocks[n];
      assert blocks'[..n] == blocks[..n];
    } else {
      ConstantsAppend(blocks[..n], cur, i);
      assert blocks'[..n] == blocks[..n][cur := blocks[..n][cur] + [i]];
    }
  }

  lemma {:induction false} ConstantsEmpty(blocks: Code, n: nat)
    ensures Constants(blocks + seq(n, _ => [])) == Constants(blocks)
    decreases n
  {
    if n == 0 {
      assert blocks + seq(n, _ => []) == blocks;
    } else {
      ConstantsEmpty(blocks, n - 1);
      var more := blocks + seq(n, _ => []);
      assert more[..|more| - 1] == blocks + seq(n - 1, _ => []);
    }
  }

  lemma EmitShape(g: Ctx, i: Inst)
    requires Inv(g) && !Terminated(g) && InstOk(i, g.cur, |g.blocks|, g.nv)
    requires Constants(g.blocks) + UsesConstant(i) <= g.nv
    ensures var g' := Emit(g, i); Inv(g') && Extends(g, g') && (Terminated(g') <==> IsTerminator(i))
  {
    var g' := Emit(g, i);
    ConstantsAppend(g.blocks, g.cur, i);
    assert g'.blocks[g.cur] == g.blocks[g.cur] + [i];
    forall b | 0 <= b < |g'.blocks|
      ensures BlockOk(g'.blocks[b], b, |g'.blocks|, g'.nv)
    {
      assert BlockOk(g.blocks[b], b, |g.blocks|, g.nv);
    }
  }

  lemma FreshShape(g: Ctx, n: nat)
    requires Inv(g)
    ensures var g' := g.(nv := g.nv + n); Inv(g') && Extends(g, g')
  {
    var g' := g.(nv := g.nv + n);
    forall b | 0 <= b < |g'.blocks|
      ensures BlockOk(g'.blocks[b], b, |g'.blocks|, g'.nv)
    {
      assert BlockOk(g.blocks[b], b, |g.blocks|, g.nv);
    }
  }

  lemma AddBlocksShape(g: Ctx, n: nat)
    requires Inv(g)
    ensures var g' := AddBlocks(g, n); Inv(g') && Extends(g, g')
  {
    var g' := AddBlocks(g, n);
    ConstantsEmpty(g.blocks, n);
    forall b | 0 <= b < |g'.blocks|
      ensures BlockOk(g'.blocks[b], b, |g'.blocks|, g'.nv)
    {
      if b < |g.blocks| { assert BlockOk(g.blocks[b], b, |g.blocks|, g.nv); }
    }
  }

  lemma ExtendsTrans(a: Ctx, b: Ctx, c: Ctx)
    requires Extends(a, b) && Extends(b, c)
    ensures Extends(a, c)
  {
    assert a.blocks[a.cur] <= b.blocks[a.cur] <= c.blocks[a.cur];
  }

  /** A fresh destination defined by one instruction. */
  lemma DefineShape(g: Ctx, i: Inst)
    requires Inv(g) && !Terminated(g) && !IsTerminator(i)
    requires InstOk(i, g.cur, |g.blocks|, g.nv + 1)
    ensures var r := Define(g, i); Inv(r.g) && Extends(g, r.g) && !Terminated(r.g) && r.r < r.g.nv == g.nv + 1
  {
    FreshShape(g, 1);
    EmitShape(Fresh(g), i);
    ExtendsTrans(g, Fresh(g), Define(g, i).g);
  }

  lemma ExtendsSelf(g: Ctx)
    requires HasBlock(g)
    ensures Extends(g, g)
  {
  }

  // ----- expressions -----

  ghost predicate ExprShape(g: Ctx, g': Ctx) {
    Inv(g') && Extends(g, g') && SameShape(g, g') && !Terminated(g') && g.nv <= g'.nv
  }

  lemma {:induction false} ExprKeepsShape(visible: set<Name>, g: Ctx, e: Expr)
    requires Inv(g) && !Terminated(g)
    ensures var r := BuildExpr(visible, g, e); r.BuiltExpr? ==> ExprShape(g, r.g) && r.r < r.g.nv
    decreases e
  {
    hide CodeOk, Constants, Extends;
    var r := BuildExpr(visible, g, e);
    if r.NoExpr? { return; }
    match e
    case IntLit(i) => DefineShape(g, Constant(g.nv, Int(i)));
    case BoolLit(b) => DefineShape(g, Constant(g.nv, Bool(b)));
    case Ident(x) =>
      ExtendsSelf(g);
      if x !in g.names { DefineShape(g, LoadGlobal(g.nv, x)); }
    case Binary(op, left, right) =>
      ExprKeepsShape(visible, g, left);
      var l := BuildExpr(visible, g, left);
      ExprKeepsShape(visible, l.g, right);
      var rr := BuildExpr(visible, l.g, right);
      DefineShape(rr.g, Bin(op, rr.g.nv, l.r, rr.r));
      ExtendsTrans(g, l.g, rr.g);
      ExtendsTrans(g, rr.g, r.g);
    case Unary(op, operand) =>
      ExprKeepsShape(visible, g, operand);
      var a := BuildExpr(visible, g, operand);
      DefineShape(a.g, UnaryInst(op, a.g.nv, a.r));
      ExtendsTrans(g, a.g, r.g);
    case Call(callee, args) =>
      ExprKeepsShape(visible, g, callee);
      var c := BuildExpr(visible, g, callee);
      ArgsKeepShape(visible, c.g, args);
      var a := BuildArgs(visible, c.g, args);
      CallShape(a.g, c.r, a.rs);
      ExtendsTrans(g, c.g, a.g);
      ExtendsTrans(g, a.g, r.g);
  }

  lemma {:induction false} ArgsKeepShape(visible: set<Name>, g: Ctx, args: Args)
    requires Inv(g) && !Terminated(g)
    ensures var r := BuildArgs(visible, g, args);
            r.BuiltArgs? ==> ExprShape(g, r.g) && AllBelow(r.rs, r.g.nv)
    decreases args
  {
    var r := BuildArgs(visible, g, args);
    if r.NoArgs? || args.NoArgs? { return; }
    ExprKeepsShape(visible, g, args.first);
    var f := BuildExpr(visible, g, args.first);
    ArgsKeepShape(visible, f.g, args.rest);
    ExtendsTrans(g, f.g, r.g);
  }

  lemma CallShape(g: Ctx, callee: Reg, args: seq<Reg>)
    requires Inv(g) && !Terminated(g) && callee < g.nv && AllBelow(args, g.nv)
    ensures var r := BuildCall(g, callee, args); ExprShape(g, r.g) && r.r < r.g.nv
  {
    hide CodeOk, Constants;
    var start := g.nv;
    var g0 := g.(nv := g.nv + |args|);
    FreshShape(g, |args|);
    MovesShape(g0, start, args);
    var g1 := EmitMoves(g0, start, args);
    DefineShape(g1, Ir.Call(g1.nv, callee, if args == [] then None else Some(start), |args|));
    ExtendsTrans(g, g0, g1);
    ExtendsTrans(g, g1, BuildCall(g, callee, args).g);
  }

  lemma {:induction false} MovesShape(g: Ctx, start: Reg, args: seq<Reg>)
    requires Inv(g) && !Terminated(g) && start + |args| <= g.nv && AllBelow(args, g.nv)
    ensures ExprShape(g, EmitMoves(g, start, args))
    ensures Constants(EmitMoves(g, start, args).blocks) == Constants(g.blocks)
    decreases |args|
  {
    hide CodeOk, Constants;
    if args != [] {
      var n := |args| - 1;
      MovesShape(g, start, args[..n]);
      var g1 := EmitMoves(g, start, args[..n]);
      EmitShape(g1, Move(start + n, args[n]));
      ConstantsAppend(g1.blocks, g1.cur, Move(start + n, args[n]));
      ExtendsTrans(g, g1, EmitMoves(g, start, args));
    }
  }

  // ----- statements -----

  /** `k` is `h` with its empty block `c` built and closed, together with the blocks that
      took; the other blocks of `h` are as they were. */
  ghost predicate Filled(h: Ctx, c: BlockId, k: Ctx) {
    && c < |h.blocks| <= |k.blocks| && h.nv <= k.nv && k.loops == h.loops
    && (forall b | 0 <= b < |h.blocks| && b != c :: k.blocks[b] == h.blocks[b])
    && EndsInTerminator(k.blocks[c])
    && (forall b | |h.blocks| <= b < |k.blocks| :: EndsInTerminator(k.blocks[b]))
  }

  ghost predicate StmtShape(g: Ctx, g': Ctx) {
    Inv(g') && Extends(g, g') && Closes(g, g')
  }

  lemma ShapeTrans(a: Ctx, b: Ctx, c: Ctx)
    requires StmtShape(a, b) && StmtShape(b, c)
    ensures StmtShape(a, c)
  {
    hide CodeOk, Constants;
    ExtendsTrans(a, b, c);
    forall x | |a.blocks| <= x < |c.blocks| && x != c.cur
      ensures EndsInTerminator(c.blocks[x])
    {
      if x < |b.blocks| && x != b.cur { assert c.blocks[x] == b.blocks[x]; }
    }
  }

  lemma CloseShape(g: Ctx, t: BlockId)
    requires Inv(g) && t < |g.blocks|
    ensures var g' := CloseWith(g, Jump(t)); Inv(g') && Extends(g, g') && Terminated(g')
  {
    if !Terminated(g) { EmitShape(g, Jump(t)); }
  }

  lemma SwitchInv(g: Ctx, c: BlockId, loops: seq<BlockId>)
    requires Inv(g) && c < |g.blocks| && forall l <- loops :: l + 2 < |g.blocks|
    ensures Inv(g.(cur := c, loops := loops))
  {
  }

  /** Building a statement in the empty block `c` of `h` and closing it fills the block. */
  lemma FillBlock(visible: set<Name>, h: Ctx, c: BlockId, s: Stmt, out: BlockId)
    requires Inv(h) && c < |h.blocks| && h.blocks[c] == [] && out < |h.blocks|
    requires BuildStmt(visible, h.(cur := c), s).Some?
    ensures var k := CloseWith(BuildStmt(visible, h.(cur := c), s).value, Jump(out));
            Inv(k) && Filled(h, c, k)
    decreases s, 2
  {
    var h1 := h.(cur := c);
    SwitchInv(h, c, h.loops);
    StmtKeepsShape(visible, h1, s);
    var a := BuildStmt(visible, h1, s).value;
    CloseShape(a, out);
    hide CodeOk, Constants;
    var k := CloseWith(a, Jump(out));
    assert forall b | 0 <= b < |a.blocks| && b != a.cur :: k.blocks[b] == a.blocks[b];
    assert forall b | |h.blocks| <= b < |k.blocks| :: EndsInTerminator(k.blocks[b]);
  }

  lemma {:induction false} StmtKeepsShape(visible: set<Name>, g: Ctx, s: Stmt)
    requires Inv(g) && !Terminated(g) && BuildStmt(visible, g, s).Some?
    ensures StmtShape(g, BuildStmt(visible, g, s).value)
    decreases s, 1
  {
    hide Inv, Closes, Extends, BuildExpr;
    InvBlock(g);
    match s
    case ExprStmt(e) => ExprKeepsShape(visible, g, e); SameBlocksShape(g, BuildExpr(visible, g, e).g);
    case VarDecl(_, _) => DeclKeepsShape(visible, g, s);
    case Assign(x, e) =>
      NameInv(g, x);
      ExprKeepsShape(visible, g, e);
      var r := BuildExpr(visible, g, e);
      MoveShape(r.g, g.names[x], r.r);
      EndShape(g, r.g, Emit(r.g, Move(g.names[x], r.r)));
    case CompoundAssign(_, _, _) => CompoundKeepsShape(visible, g, s);
    case Block(body) => StmtsKeepShape(visible, g, body);
    case If(c, _, _) =>
      ExprKeepsShape(visible, g, c);
      var r := BuildExpr(visible, g, c);
      SameBlocksShape(g, r.g);
      BranchesKeepShape(visible, r.g, r.r, s);
      ShapeTrans(g, r.g, BuildStmt(visible, g, s).value);
    case Loop(_, _) => LoopKeepsShape(visible, g, s);
    case Break =>
      LoopInv(g);
      EmitJumpShape(g, g.loops[|g.loops| - 1] + 2);
      SameBlocksShape(g, BuildStmt(visible, g, s).value);
    case Continue =>
      LoopInv(g);
      EmitJumpShape(g, g.loops[|g.loops| - 1]);
      SameBlocksShape(g, BuildStmt(visible, g, s).value);
    case Return(e) =>
      if e.Some? {
        ExprKeepsShape(visible, g, e.value);
        var r := BuildExpr(visible, g, e.value);
        ReturnShape(r.g, Some(r.r));
        EndShape(g, r.g, Emit(r.g, Ir.Return(Some(r.r))));
      } else {
        ReturnShape(g, None);
        SameBlocksShape(g, Emit(g, Ir.Return(None)));
      }
  }

  lemma InvBlock(g: Ctx)
    requires Inv(g)
    ensures HasBlock(g)
  {
    hide CodeOk, Constants;
  }

  /** Nothing was opened, so nothing has to be closed. */
  lemma SameBlocksShape(g: Ctx, g': Ctx)
    requires Inv(g') && Extends(g, g') && SameShape(g, g')
    ensures StmtShape(g, g')
  {
    hide CodeOk, Constants;
  }

  lemma EndShape(g: Ctx, g1: Ctx, g': Ctx)
    requires Extends(g, g1) && SameShape(g, g1) && Inv(g') && Extends(g1, g') && SameShape(g1, g')
    ensures StmtShape(g, g')
  {
    hide Inv;
    ExtendsTrans(g, g1, g');
  }

  lemma NameInv(g: Ctx, x: Name)
    requires Inv(g) && x in g.names
    ensures g.names[x] < g.nv
  {
    hide CodeOk, Constants;
  }

  lemma LoopInv(g: Ctx)
    requires Inv(g) && g.loops != []
    ensures g.loops[|g.loops| - 1] + 2 < |g.blocks|
  {
    hide CodeOk, Constants;
    assert g.loops[|g.loops| - 1] in g.loops;
  }

  lemma DeclKeepsShape(visible: set<Name>, g: Ctx, s: Stmt)
    requires s.VarDecl? && Inv(g) && !Terminated(g) && BuildStmt(visible, g, s).Some?
    ensures StmtShape(g, BuildStmt(visible, g, s).value)
  {
    hide CodeOk, Constants, BuildExpr;
    var g0 := Fresh(g).(names := g.names[s.x := g.nv]);
    FreshShape(g, 1);
    NamesInv(Fresh(g), s.x, g.nv);
    ExprKeepsShape(visible, g0, s.init);
    var r := BuildExpr(visible, g0, s.init);
    MoveShape(r.g, g.nv, r.r);
    ExtendsTrans(g0, r.g, Emit(r.g, Move(g.nv, r.r)));
  }

  lemma CompoundKeepsShape(visible: set<Name>, g: Ctx, s: Stmt)
    requires s.CompoundAssign? && Inv(g) && !Terminated(g) && BuildStmt(visible, g, s).Some?
    ensures StmtShape(g, BuildStmt(visible, g, s).value)
  {
    hide CodeOk, Constants, BuildExpr, Extends;
    NameInv(g, s.target);
    var dst := g.names[s.target];
    ExprKeepsShape(visible, g, s.value);
    var r := BuildExpr(visible, g, s.value);
    DefineShape(r.g, Bin(s.op, r.g.nv, dst, r.r));
    var t := Define(r.g, Bin(s.op, r.g.nv, dst, r.r));
    MoveShape(t.g, dst, t.r);
    ExtendsTrans(g, r.g, t.g);
    EndShape(g, t.g, Emit(t.g, Move(dst, t.r)));
  }

  lemma NamesInv(g: Ctx, x: Name, r: Reg)
    requires Inv(g) && r < g.nv
    ensures Inv(g.(names := g.names[x := r]))
  {
  }

  lemma MoveShape(g: Ctx, dst: Reg, src: Reg)
    requires Inv(g) && !Terminated(g) && dst < g.nv && src < g.nv
    ensures var g' := Emit(g, Move(dst, src)); Inv(g') && Extends(g, g')
  {
    EmitShape(g, Move(dst, src));
  }

  lemma EmitJumpShape(g: Ctx, t: BlockId)
    requires Inv(g) && !Terminated(g) && t < |g.blocks|
    ensures var g' := Emit(g, Jump(t)); Inv(g') && Extends(g, g') && Terminated(g')
  {
    EmitShape(g, Jump(t));
  }

  lemma ReturnShape(g: Ctx, v: Option<Reg>)
    requires Inv(g) && !Terminated(g) && (v.Some? ==> v.value < g.nv)
    ensures var g' := Emit(g, Ir.Return(v)); Inv(g') && Extends(g, g') && Terminated(g')
  {
    EmitShape(g, Ir.Return(v));
  }

  /** New blocks, and the current one closed by a jump or branch into them. */
  lemma OpenShape(g: Ctx, n: nat, i: Inst)
    requires Inv(g) && !Terminated(g) && n > 0 && (i.Jump? || i.Branch?)
    requires InstOk(i, g.cur, |g.blocks| + n, g.nv)
    ensures var g' := Emit(AddBlocks(g, n), i);
            Inv(g') && Extends(g, g') && Terminated(g') && |g'.blocks| == |g.blocks| + n && g'.nv == g.nv &&
            forall b | |g.blocks| <= b < |g'.blocks| :: g'.blocks[b] == []
  {
    hide CodeOk;
    var g0 := AddBlocks(g, n);
    AddBlocksShape(g, n);
    assert g0.blocks[g.cur] == g.blocks[g.cur];
    EmitShape(g0, i);
    ExtendsTrans(g, g0, Emit(g0, i));
  }

  lemma BranchesKeepShape(visible: set<Name>, g: Ctx, cond: Reg, s: Stmt)
    requires s.If? && Inv(g) && !Terminated(g) && cond < g.nv && BuildBranches(visible, g, cond, s).Some?
    ensures StmtShape(g, BuildBranches(visible, g, cond, s).value)
    decreases s, 0
  {
    hide CodeOk, Constants, BuildStmt, EndsInTerminator;
    var t := |g.blocks|;
    var join := t + 1;
    var n := if s.els.None? then 2 else 3;
    var br := Branch(cond, t, if s.els.None? then join else t + 2);
    OpenShape(g, n, br);
    var g1 := Emit(AddBlocks(g, n), br);
    FillBlock(visible, g1, t, s.thn, join);
    var g2 := CloseWith(BuildStmt(visible, g1.(cur := t), s.thn).value, Jump(join));
    if s.els.None? {
      assert forall b | |g.blocks| <= b < |g2.blocks| && b != join :: EndsInTerminator(g2.blocks[b]);
      JoinShape(g, g1, g2, join);
    } else {
      FillBlock(visible, g2, t + 2, s.els.value, join);
      var g3 := CloseWith(BuildStmt(visible, g2.(cur := t + 2), s.els.value).value, Jump(join));
      forall b | |g.blocks| <= b < |g3.blocks| && b != join
        ensures EndsInTerminator(g3.blocks[b])
      {
        if b < |g2.blocks| && b != t + 2 { assert g3.blocks[b] == g2.blocks[b]; }
      }
      JoinShape(g, g1, g3, join);
    }
  }

  /** Once all arms are closed, building goes on in the join block. */
  lemma JoinShape(g: Ctx, g1: Ctx, k: Ctx, join: BlockId)
    requires Extends(g, g1) && Terminated(g1) && g1.cur == g.cur && |g.blocks| <= join < |g1.blocks|
    requires Inv(k) && |g1.blocks| <= |k.blocks| && g1.nv <= k.nv && k.loops == g1.loops
    requires forall b | 0 <= b < |g.blocks| :: k.blocks[b] == g1.blocks[b]
    requires forall b | |g.blocks| <= b < |k.blocks| && b != join :: EndsInTerminator(k.blocks[b])
    ensures StmtShape(g, k.(cur := join))
  {
    hide CodeOk, Constants;
    SwitchInv(k, join, k.loops);
  }

  lemma GuardShape(visible: set<Name>, g: Ctx, guard: Option<Expr>, c: BlockId)
    requires Inv(g) && g.cur == c && g.blocks[c] == [] && c + 2 < |g.blocks|
    requires BuildGuard(visible, g, guard, c).Some?
    ensures var k := BuildGuard(visible, g, guard, c).value; Inv(k) && Filled(g, c, k)
  {
    hide CodeOk, Constants, BuildExpr, Extends, Filled, EndsInTerminator;
    ExtendsSelf(g);
    EmptyOpen(g, c);
    assert g.(cur := c) == g;
    if guard.None? {
      GuardEnd(g, g, Jump(c + 1));
    } else {
      ExprKeepsShape(visible, g, guard.value);
      var r := BuildExpr(visible, g, guard.value);
      GuardEnd(g, r.g, Branch(r.r, c + 1, c + 2));
    }
  }

  /** The terminator of a condition block closes it. */
  lemma GuardEnd(g: Ctx, h: Ctx, i: Inst)
    requires Inv(h) && Extends(g, h) && SameShape(g, h) && !Terminated(h) && g.blocks[g.cur] == []
    requires (i.Jump? || i.Branch?) && InstOk(i, h.cur, |h.blocks|, h.nv)
    ensures Inv(Emit(h, i)) && Filled(g, g.cur, Emit(h, i))
  {
    hide CodeOk, Constants;
    EmitShape(h, i);
  }

  /** The contexts of a loop: its condition block open, its body block open, all closed. */
  function LoopHead(g: Ctx): Ctx
    requires HasBlock(g)
  {
    var c := |g.blocks|;
    Emit(AddBlocks(g, 3), Jump(c)).(cur := c, loops := g.loops + [c])
  }

  ghost function LoopGuarded(visible: set<Name>, g: Ctx, s: Stmt): Ctx
    requires HasBlock(g) && s.Loop? && BuildStmt(visible, g, s).Some?
  {
    BuildGuard(visible, LoopHead(g), s.guard, |g.blocks|).value
  }

  ghost function LoopDone(visible: set<Name>, g: Ctx, s: Stmt): Ctx
    requires HasBlock(g) && s.Loop? && BuildStmt(visible, g, s).Some?
  {
    CloseWith(BuildStmt(visible, LoopGuarded(visible, g, s).(cur := |g.blocks| + 1), s.loopBody).value, Jump(|g.blocks|))
  }

  lemma LoopParts(visible: set<Name>, g: Ctx, s: Stmt)
    requires HasBlock(g) && s.Loop? && BuildStmt(visible, g, s).Some?
    ensures var c := |g.blocks|;
            BuildGuard(visible, LoopHead(g), s.guard, c).Some? &&
            BuildStmt(visible, LoopGuarded(visible, g, s).(cur := c + 1), s.loopBody).Some? &&
            BuildStmt(visible, g, s).value == LoopDone(visible, g, s).(cur := c + 2, loops := g.loops)
  {
    hide BuildGuard, EndsInTerminator;
  }

  lemma LoopHeadShape(g: Ctx)
    requires Inv(g) && !Terminated(g)
    ensures var h := LoopHead(g);
            var c := |g.blocks|;
            Inv(h) && !Terminated(h) && |h.blocks| == c + 3 && h.blocks[c] == h.blocks[c + 1] == h.blocks[c + 2] == [] &&
            Extends(g, Emit(AddBlocks(g, 3), Jump(c))) && h.names == g.names && h.nv == g.nv
  {
    hide CodeOk, Constants;
    var c := |g.blocks|;
    OpenShape(g, 3, Jump(c));
    SwitchInv(Emit(AddBlocks(g, 3), Jump(c)), c, g.loops + [c]);
  }

  lemma EmptyOpen(g: Ctx, c: BlockId)
    requires c < |g.blocks| && g.blocks[c] == []
    ensures !Terminated(g.(cur := c))
  {
  }

  lemma LoopDoneIs(visible: set<Name>, g: Ctx, s: Stmt)
    requires HasBlock(g) && s.Loop? && BuildStmt(visible, g, s).Some?
    ensures LoopDone(visible, g, s) ==
            CloseWith(BuildStmt(visible, LoopGuarded(visible, g, s).(cur := |g.blocks| + 1), s.loopBody).value,
                      Jump(|g.blocks|))
  {
    hide BuildStmt;
  }

  lemma LoopKeepsShape(visible: set<Name>, g: Ctx, s: Stmt)
    requires s.Loop? && Inv(g) && !Terminated(g) && BuildStmt(visible, g, s).Some?
    ensures StmtShape(g, BuildStmt(visible, g, s).value)
    decreases s, 0
  {
    hide Inv, BuildStmt, EndsInTerminator, Extends, Filled;
    InvBlock(g);
    var c := |g.blocks|;
    LoopParts(visible, g, s);
    LoopHeadShape(g);
    GuardShape(visible, LoopHead(g), s.guard, c);
    var k := LoopGuarded(visible, g, s);
    GuardLeavesBody(LoopHead(g), k, c);
    FillBlock(visible, k, c + 1, s.loopBody, c);
    LoopEnd(g, k, LoopDone(visible, g, s));
  }

  lemma GuardLeavesBody(h: Ctx, k: Ctx, c: BlockId)
    requires Filled(h, c, k) && c + 2 < |h.blocks| && h.blocks[c + 1] == []
    ensures c + 2 < |k.blocks| && k.blocks[c + 1] == []
  {
  }

  lemma LoopEnd(g: Ctx, k: Ctx, k': Ctx)
    requires Inv(g) && !Terminated(g) && Inv(k')
    requires Filled(LoopHead(g), |g.blocks|, k) && Filled(k, |g.blocks| + 1, k')
    ensures StmtShape(g, k'.(cur := |g.blocks| + 2, loops := g.loops))
  {
    hide CodeOk, Constants;
    var c := |g.blocks|;
    LoopHeadShape(g);
    var g0 := Emit(AddBlocks(g, 3), Jump(c));
    OpenShape(g, 3, Jump(c));
    SwitchInv(k', c + 2, g.loops);
    var g' := k'.(cur := c + 2, loops := g.loops);
    assert forall b | 0 <= b < c :: g'.blocks[b] == g0.blocks[b];
    forall b | c <= b < |g'.blocks| && b != c + 2
      ensures EndsInTerminator(g'.blocks[b])
    {
      if b == c { assert g'.blocks[b] == k.blocks[b]; }
    }
  }

  lemma {:induction false} StmtsKeepShape(visible: set<Name>, g: Ctx, ss: Stmts)
    requires Inv(g) && BuildStmts(visible, g, ss).Some?
    ensures StmtShape(g, BuildStmts(visible, g, ss).value)
    decreases ss
  {
    hide CodeOk, Constants;
    if ss.Seq? && !Terminated(g) {
      StmtKeepsShape(visible, g, ss.head);
      var g1 := BuildStmt(visible, g, ss.head).value;
      StmtsKeepShape(visible, g1, ss.tail);
      ShapeTrans(g, g1, BuildStmts(visible, g1, ss.tail).value);
    }
  }

  // ----- whole functions -----

  /** Everything the lowering and the machine rely on: a block 0 to start in, closed blocks
      whose only terminator is the last instruction, edges and registers in bounds,
      conditional edges that go forward, and at most one constant per register. */
  ghost predicate WellBuilt(f: Func) {
    && f.blocks != [] && f.arity <= f.nregs
    && CodeOk(f.blocks, f.nregs)
    && (forall b | 0 <= b < |f.blocks| :: EndsInTerminator(f.blocks[b]))
    && Constants(f.blocks) <= f.nregs
  }

  lemma StartShape(d: FuncDecl)
    ensures Inv(StartFunc(d)) && !Terminated(StartFunc(d))
  {
    assert Constants([[]]) == 0;
  }

  /** Every function the builder completes is well built, whatever its source. */
  lemma FuncShape(visible: set<Name>, d: FuncDecl)
    ensures var f := BuildFunc(visible, d); f.Some? ==> WellBuilt(f.value)
  {
    var g0 := StartFunc(d);
    var r := BuildStmt(visible, g0, d.body);
    if r.None? { return; }
    StartShape(d);
    StmtKeepsShape(visible, g0, d.body);
    if !Terminated(r.value) { ReturnShape(r.value, None); }
    var g := CloseWith(r.value, Ir.Return(None));
    forall b | 0 <= b < |g.blocks|
      ensures EndsInTerminator(g.blocks[b])
    {
      if b != r.value.cur { assert g.blocks[b] == r.value.blocks[b]; }
    }
  }

  /** The contexts of a conditional: its arms' blocks open, an arm closed, all closed. */
  function BranchHead(g: Ctx, cond: Reg, s: Stmt): Ctx
    requires HasBlock(g) && s.If?
  {
    var t := |g.blocks|;
    Emit(AddBlocks(g, if s.els.Some? then 3 else 2), Branch(cond, t, if s.els.Some? then t + 2 else t + 1))
  }

  /** The context after the `then` arm, closed by a jump to the join block. */
  ghost function ThenDone(visible: set<Name>, g: Ctx, cond: Reg, s: Stmt): (r: Ctx)
    requires HasBlock(g) && s.If?
    ensures |r.blocks| >= |g.blocks| + if s.els.Some? then 3 else 2
  {
    var r := BuildStmt(visible, BranchHead(g, cond, s).(cur := |g.blocks|), s.thn);
    if r.None? then BranchHead(g, cond, s) else CloseWith(r.value, Jump(|g.blocks| + 1))
  }

  ghost function ElseDone(visible: set<Name>, g: Ctx, cond: Reg, s: Stmt): Ctx
    requires HasBlock(g) && s.If?
  {
    var g2 := ThenDone(visible, g, cond, s);
    if s.els.None? then g2 else
    var r := BuildStmt(visible, g2.(cur := |g.blocks| + 2), s.els.value);
    if r.None? then g2 else CloseWith(r.value, Jump(|g.blocks| + 1))
  }

  lemma HeadShape(g: Ctx, cond: Reg, s: Stmt)
    requires s.If? && Inv(g) && !Terminated(g) && cond < g.nv
    ensures var g1 := BranchHead(g, cond, s);
            var t := |g.blocks|;
            Inv(g1) && Extends(g, g1) && g1.names == g.names && g1.loops == g.loops && g1.nv == g.nv &&
            |g1.blocks| == (if s.els.Some? then t + 3 else t + 2) &&
            g1.blocks[t] == [] && g1.blocks[t + 1] == [] && (s.els.Some? ==> g1.blocks[t + 2] == [])
  {
    hide CodeOk, Constants;
    var t := |g.blocks|;
    OpenShape(g, if s.els.Some? then 3 else 2, Branch(cond, t, if s.els.Some? then t + 2 else t + 1));
  }

  lemma BranchesParts(visible: set<Name>, g: Ctx, cond: Reg, s: Stmt)
    requires s.If? && HasBlock(g) && BuildBranches(visible, g, cond, s).Some?
    ensures var t, g2, g3 := |g.blocks|, ThenDone(visible, g, cond, s), ElseDone(visible, g, cond, s);
            var a := BuildStmt(visible, BranchHead(g, cond, s).(cur := t), s.thn);
            BuildBranches(visible, g, cond, s) == Some(g3.(cur := t + 1)) &&
            a.Some? && g2 == CloseWith(a.value, Jump(t + 1)) &&
            if s.els.None? then g3 == g2
            else
              var b := BuildStmt(visible, g2.(cur := t + 2), s.els.value);
              b.Some? && g3 == CloseWith(b.value, Jump(t + 1))
  {
    hide BuildStmt, EndsInTerminator;
  }

  // ----- one step of building, whether it succeeds or not -----

  lemma IfUnfolds(visible: set<Name>, g: Ctx, s: Stmt)
    requires s.If? && HasBlock(g)
    ensures var r := BuildExpr(visible, g, s.cond);
            BuildStmt(visible, g, s) == if r.NoExpr? then None else BuildBranches(visible, r.g, r.r, s)
  {
    hide BuildExpr, BuildBranches;
  }

  lemma BranchesUnfold(visible: set<Name>, g: Ctx, cond: Reg, s: Stmt)
    requires s.If? && HasBlock(g)
    ensures var t := |g.blocks|;
            var a := BuildStmt(visible, BranchHead(g, cond, s).(cur := t), s.thn);
            BuildBranches(visible, g, cond, s) ==
            if a.None? then None
            else if s.els.None? then Some(CloseWith(a.value, Jump(t + 1)).(cur := t + 1))
            else
              var b := BuildStmt(visible, CloseWith(a.value, Jump(t + 1)).(cur := t + 2), s.els.value);
              if b.None? then None else Some(CloseWith(b.value, Jump(t + 1)).(cur := t + 1))
  {
    hide BuildStmt, EndsInTerminator;
  }

  lemma LoopUnfolds(visible: set<Name>, g: Ctx, s: Stmt)
    requires s.Loop? && HasBlock(g)
    ensures var c := |g.blocks|;
            var r := BuildGuard(visible, LoopHead(g), s.guard, c);
            BuildStmt(visible, g, s) ==
            if r.None? then None
            else
              var b := BuildStmt(visible, r.value.(cur := c + 1), s.loopBody);
              if b.None? then None else Some(CloseWith(b.value, Jump(c)).(cur := c + 2, loops := g.loops))
  {
    hide BuildGuard;
  }
}
