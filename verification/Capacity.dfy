/**
 What a function costs, read off its text: how many registers the builder hands out and how
 many instructions it emits, exactly, and which built functions fit the byte code's operands.
 Together with the condition on names this tells from the text what compiles.
 */
module Capacity {
  import opened Values
  import opened Source
  import opened Ir
  import opened Build
  import opened BuildScope
  import opened BuildShape
  import opened BuildText
  import opened Lower
  import BuildRegs
  import LowerLayout
  import opened Compiler
  import B = Bytecode

  // ----- the cost of a text -----

  /** Registers and instructions of an expression: one of each but for names in registers. */
  function ExprCost(names: set<Name>, e: Expr): nat {
    match e
    case IntLit(_) => 1
    case BoolLit(_) => 1
    case Ident(x) => if x in names then 0 else 1
    case Binary(_, l, r) => ExprCost(names, l) + ExprCost(names, r) + 1
    case Unary(_, a) => ExprCost(names, a) + 1
    case Call(f, args) => ExprCost(names, f) + ArgsCost(names, args) + ArgCount(args) + 1
  }

  function ArgsCost(names: set<Name>, args: Args): nat {
    match args
    case NoArgs => 0
    case Arg(e, rest) => ExprCost(names, e) + ArgsCost(names, rest)
  }

  function Registers(names: set<Name>, s: Stmt): nat
    decreases s
  {
    match s
    case ExprStmt(e) => ExprCost(names, e)
    case VarDecl(x, e) => 1 + ExprCost(names + {x}, e)
    case Assign(_, e) => ExprCost(names, e)
    case CompoundAssign(_, _, e) => ExprCost(names, e) + 1
    case Block(body) => RegistersIn(names, body)
    case If(c, t, els) =>
      ExprCost(names, c) + Registers(names, t) + if els.Some? then Registers(NamesAfter(names, t), els.value) else 0
    case Loop(guard, body) => (if guard.Some? then ExprCost(names, guard.value) else 0) + Registers(names, body)
    case Return(e) => if e.Some? then ExprCost(names, e.value) else 0
    case _ => 0
  }

  function RegistersIn(names: set<Name>, ss: Stmts): nat
    decreases ss
  {
    match ss
    case Done => 0
    case Seq(s, rest) => Registers(names, s) + if Ends(s) then 0 else RegistersIn(NamesAfter(names, s), rest)
  }

  /** The jump that closes an arm or a body. */
  function Closer(s: Stmt): nat {
    if Ends(s) then 0 else 1
  }

  function Rows(names: set<Name>, s: Stmt): nat
    decreases s
  {
    match s
    case ExprStmt(e) => ExprCost(names, e)
    case VarDecl(x, e) => ExprCost(names + {x}, e) + 1
    case Assign(_, e) => ExprCost(names, e) + 1
    case CompoundAssign(_, _, e) => ExprCost(names, e) + 2
    case Block(body) => RowsIn(names, body)
    case If(c, t, els) =>
      ExprCost(names, c) + 1 + Rows(names, t) + Closer(t) +
      if els.Some? then Rows(NamesAfter(names, t), els.value) + Closer(els.value) else 0
    case Loop(guard, body) =>
      2 + (if guard.Some? then ExprCost(names, guard.value) else 0) + Rows(names, body) + Closer(body)
    case Return(e) => 1 + if e.Some? then ExprCost(names, e.value) else 0
    case _ => 1
  }

  function RowsIn(names: set<Name>, ss: Stmts): nat
    decreases ss
  {
    match ss
    case Done => 0
    case Seq(s, rest) => Rows(names, s) + if Ends(s) then 0 else RowsIn(NamesAfter(names, s), rest)
  }

  // ----- counting instructions -----

  function Count(blocks: Code): nat {
    if blocks == [] then 0 else Count(blocks[..|blocks| - 1]) + |blocks[|blocks| - 1]|
  }

  lemma {:induction false} CountFlat(blocks: Code)
    ensures Count(blocks) == |Flat(blocks)|
    decreases |blocks|
  {
    if blocks != [] { CountFlat(blocks[..|blocks| - 1]); }
  }

  lemma {:induction false} CountOne(blocks: Code, c: BlockId, i: Inst)
    requires c < |blocks|
    ensures Count(blocks[c := blocks[c] + [i]]) == Count(blocks) + 1
    decreases |blocks|
  {
    var n := |blocks| - 1;
    var more := blocks[c := blocks[c] + [i]];
    if c < n {
      CountOne(blocks[..n], c, i);
      assert more[..n] == blocks[..n][c := blocks[..n][c] + [i]];
    } else {
      assert more[..n] == blocks[..n];
    }
  }

  lemma {:induction false} CountEmpty(blocks: Code, more: Code)
    requires forall k | 0 <= k < |more| :: more[k] == []
    ensures Count(blocks + more) == Count(blocks)
    decreases |more|
  {
    if more == [] {
      assert blocks + more == blocks;
    } else {
      var n := |more| - 1;
      assert (blocks + more)[..|blocks + more| - 1] == blocks + more[..n] && (blocks + more)[|blocks| + n] == [];
      CountEmpty(blocks, more[..n]);
    }
  }

  /** `regs` more registers and `rows` more instructions. */
  ghost predicate Grown(g: Ctx, g': Ctx, regs: nat, rows: nat) {
    g'.nv == g.nv + regs && Count(g'.blocks) == Count(g.blocks) + rows
  }

  lemma EmitGrows(g: Ctx, i: Inst)
    requires HasBlock(g)
    ensures Grown(g, Emit(g, i), 0, 1)
  {
    hide Count;
    CountOne(g.blocks, g.cur, i);
  }

  lemma AddGrows(g: Ctx, n: nat)
    ensures Grown(g, AddBlocks(g, n), 0, 0)
  {
    hide Count;
    CountEmpty(g.blocks, seq(n, _ => []));
  }

  // ----- the builder spends what the text says -----

  lemma {:induction false} ExprGrows(visible: set<Name>, g: Ctx, e: Expr)
    requires HasBlock(g) && BuildExpr(visible, g, e).BuiltExpr?
    ensures var n := ExprCost(g.names.Keys, e); Grown(g, BuildExpr(visible, g, e).g, n, n)
    decreases e
  {
    hide Count;
    match e
    case IntLit(i) => EmitGrows(Fresh(g), Constant(g.nv, Int(i)));
    case BoolLit(b) => EmitGrows(Fresh(g), Constant(g.nv, Bool(b)));
    case Ident(x) => if x !in g.names { EmitGrows(Fresh(g), LoadGlobal(g.nv, x)); }
    case Binary(op, l, r) =>
      ExprGrows(visible, g, l);
      var a := BuildExpr(visible, g, l);
      ExprGrows(visible, a.g, r);
      var b := BuildExpr(visible, a.g, r);
      EmitGrows(Fresh(b.g), Bin(op, b.g.nv, a.r, b.r));
    case Unary(op, a) =>
      ExprGrows(visible, g, a);
      var b := BuildExpr(visible, g, a);
      EmitGrows(Fresh(b.g), UnaryInst(op, b.g.nv, b.r));
    case Call(f, args) =>
      ExprGrows(visible, g, f);
      var c := BuildExpr(visible, g, f);
      ArgsGrow(visible, c.g, args);
      var a := BuildArgs(visible, c.g, args);
      CallGrows(a.g, c.r, a.rs);
  }

  lemma {:induction false} ArgsGrow(visible: set<Name>, g: Ctx, args: Args)
    requires HasBlock(g) && BuildArgs(visible, g, args).BuiltArgs?
    ensures var n := ArgsCost(g.names.Keys, args); Grown(g, BuildArgs(visible, g, args).g, n, n)
    decreases args
  {
    hide BuildExpr, ExprCost, Count;
    if args.Arg? {
      ExprGrows(visible, g, args.first);
      ArgsGrow(visible, BuildExpr(visible, g, args.first).g, args.rest);
    }
  }

  lemma {:induction false} MovesGrow(g: Ctx, start: Reg, args: seq<Reg>)
    requires HasBlock(g)
    ensures Grown(g, EmitMoves(g, start, args), 0, |args|)
    decreases |args|
  {
    hide Count;
    if args != [] {
      var n := |args| - 1;
      MovesGrow(g, start, args[..n]);
      EmitGrows(EmitMoves(g, start, args[..n]), Move(start + n, args[n]));
    }
  }

  lemma CallGrows(g: Ctx, callee: Reg, args: seq<Reg>)
    requires HasBlock(g)
    ensures Grown(g, BuildCall(g, callee, args).g, |args| + 1, |args| + 1)
  {
    hide Count, EmitMoves;
    var g0 := g.(nv := g.nv + |args|);
    var g1 := EmitMoves(g0, g.nv, args);
    MovesGrow(g0, g.nv, args);
    EmitGrows(Fresh(g1), Ir.Call(g1.nv, callee, if args == [] then None else Some(g.nv), |args|));
  }

  lemma {:induction false} StmtGrows(visible: set<Name>, g: Ctx, s: Stmt)
    requires Inv(g) && !Terminated(g) && BuildStmt(visible, g, s).Some?
    ensures Grown(g, BuildStmt(visible, g, s).value, Registers(g.names.Keys, s), Rows(g.names.Keys, s))
    decreases s, 1
  {
    hide CodeOk, Constants, BuildExpr, BuildBranches, BuildStmts, BuildGuard, ExprCost, Count, EndsInTerminator;
    InvBlock(g);
    match s
    case ExprStmt(e) => ExprGrows(visible, g, e);
    case VarDecl(x, e) =>
      var h := Fresh(g).(names := g.names[x := g.nv]);
      assert h.names.Keys == g.names.Keys + {x};
      ExprGrows(visible, h, e);
      var r := BuildExpr(visible, h, e);
      EmitGrows(r.g, Move(g.nv, r.r));
    case Assign(x, e) =>
      ExprGrows(visible, g, e);
      var r := BuildExpr(visible, g, e);
      EmitGrows(r.g, Move(g.names[x], r.r));
    case CompoundAssign(x, op, e) =>
      ExprGrows(visible, g, e);
      var r := BuildExpr(visible, g, e);
      var i := Bin(op, r.g.nv, g.names[x], r.r);
      EmitGrows(Fresh(r.g), i);
      EmitGrows(Define(r.g, i).g, Move(g.names[x], r.g.nv));
    case Block(body) => StmtsGrow(visible, g, body);
    case If(c, _, _) =>
      ExprGrows(visible, g, c);
      ExprText(visible, g, c);
      BranchesGrow(visible, BuildExpr(visible, g, c).g, BuildExpr(visible, g, c).r, s);
    case Loop(_, _) => LoopGrows(visible, g, s);
    case Break => EmitGrows(g, Jump(g.loops[|g.loops| - 1] + 2));
    case Continue => EmitGrows(g, Jump(g.loops[|g.loops| - 1]));
    case Return(e) =>
      if e.Some? {
        ExprGrows(visible, g, e.value);
        var r := BuildExpr(visible, g, e.value);
        EmitGrows(r.g, Ir.Return(Some(r.r)));
      } else {
        EmitGrows(g, Ir.Return(None));
      }
  }

  /** A statement built into an empty block and closed by a jump. */
  lemma ArmGrows(visible: set<Name>, h: Ctx, c: BlockId, s: Stmt, out: BlockId)
    requires Inv(h) && c < |h.blocks| && h.blocks[c] == [] && out < |h.blocks|
    requires BuildStmt(visible, h.(cur := c), s).Some?
    ensures var a := BuildStmt(visible, h.(cur := c), s).value;
            var k := CloseWith(a, Jump(out));
            Inv(k) && Filled(h, c, k) && k.names.Keys == NamesAfter(h.names.Keys, s) &&
            Grown(h, k, Registers(h.names.Keys, s), Rows(h.names.Keys, s) + Closer(s))
    decreases s, 2
  {
    hide CodeOk, Constants, BuildStmt, EndsInTerminator, Count, Registers, Rows, NamesAfter;
    SwitchInv(h, c, h.loops);
    EmptyOpen(h, c);
    StmtText(visible, h.(cur := c), s);
    StmtGrows(visible, h.(cur := c), s);
    FillBlock(visible, h, c, s, out);
    EmitGrows(BuildStmt(visible, h.(cur := c), s).value, Jump(out));
  }

  lemma BranchesGrow(visible: set<Name>, g: Ctx, cond: Reg, s: Stmt)
    requires s.If? && Inv(g) && !Terminated(g) && cond < g.nv && BuildBranches(visible, g, cond, s).Some?
    ensures var names := g.names.Keys;
            Grown(g, BuildBranches(visible, g, cond, s).value,
                  Registers(names, s.thn) + (if s.els.Some? then Registers(NamesAfter(names, s.thn), s.els.value) else 0),
                  1 + Rows(names, s.thn) + Closer(s.thn) +
                  (if s.els.Some? then Rows(NamesAfter(names, s.thn), s.els.value) + Closer(s.els.value) else 0))
    decreases s, 0
  {
    hide CodeOk, Constants, BuildStmt, BuildBranches, EndsInTerminator, Count, Registers, Rows, NamesAfter, Closer,
         Extends;
    var t := |g.blocks|;
    var g1 := BranchHead(g, cond, s);
    HeadShape(g, cond, s);
    HeadGrows(g, cond, s);
    BranchesParts(visible, g, cond, s);
    ArmGrows(visible, g1, t, s.thn, t + 1);
    if s.els.Some? {
      var g2 := ThenDone(visible, g, cond, s);
      StillOpen(g1, t, g2, t + 2);
      ArmGrows(visible, g2, t + 2, s.els.value, t + 1);
    }
  }

  lemma HeadGrows(g: Ctx, cond: Reg, s: Stmt)
    requires s.If? && HasBlock(g)
    ensures Grown(g, BranchHead(g, cond, s), 0, 1)
  {
    hide Count;
    var n := if s.els.Some? then 3 else 2;
    AddGrows(g, n);
    EmitGrows(AddBlocks(g, n), Branch(cond, |g.blocks|, if s.els.Some? then |g.blocks| + 2 else |g.blocks| + 1));
  }

  lemma LoopGrows(visible: set<Name>, g: Ctx, s: Stmt)
    requires s.Loop? && Inv(g) && !Terminated(g) && BuildStmt(visible, g, s).Some?
    ensures Grown(g, BuildStmt(visible, g, s).value, Registers(g.names.Keys, s), Rows(g.names.Keys, s))
    decreases s, 0
  {
    hide CodeOk, Constants, BuildStmt, BuildGuard, EndsInTerminator, Extends, Count, ExprCost;
    InvBlock(g);
    var c := |g.blocks|;
    var h := LoopHead(g);
    LoopHeadShape(g);
    LoopUnfolds(visible, g, s);
    AddGrows(g, 3);
    EmitGrows(AddBlocks(g, 3), Jump(c));
    GuardGrows(visible, h, s.guard, c);
    GuardShape(visible, h, s.guard, c);
    var k := BuildGuard(visible, h, s.guard, c).value;
    StillOpen(h, c, k, c + 1);
    ArmGrows(visible, k, c + 1, s.loopBody, c);
  }

  lemma GuardGrows(visible: set<Name>, g: Ctx, guard: Option<Expr>, c: BlockId)
    requires HasBlock(g) && BuildGuard(visible, g, guard, c).Some?
    ensures var n := if guard.Some? then ExprCost(g.names.Keys, guard.value) else 0;
            Grown(g, BuildGuard(visible, g, guard, c).value, n, n + 1)
  {
    hide BuildExpr, ExprCost, Count;
    if guard.Some? {
      ExprGrows(visible, g, guard.value);
      var r := BuildExpr(visible, g, guard.value);
      EmitGrows(r.g, Branch(r.r, c + 1, c + 2));
    } else {
      EmitGrows(g, Jump(c + 1));
    }
  }

  lemma {:induction false} StmtsGrow(visible: set<Name>, g: Ctx, ss: Stmts)
    requires Inv(g) && !Terminated(g) && BuildStmts(visible, g, ss).Some?
    ensures Grown(g, BuildStmts(visible, g, ss).value, RegistersIn(g.names.Keys, ss), RowsIn(g.names.Keys, ss))
    decreases ss
  {
    hide CodeOk, Constants, BuildStmt, EndsInTerminator, Count, Registers, Rows;
    if ss.Seq? {
      StmtText(visible, g, ss.head);
      StmtGrows(visible, g, ss.head);
      StmtKeepsShape(visible, g, ss.head);
      var a := BuildStmt(visible, g, ss.head).value;
      if Terminated(a) { NothingMore(visible, a, ss.tail); } else { StmtsGrow(visible, a, ss.tail); }
    }
  }

  /** The registers and instructions of a built function, exactly. */
  lemma FuncCost(visible: set<Name>, d: FuncDecl)
    requires BuildFunc(visible, d).Some?
    ensures var f := BuildFunc(visible, d).value;
            f.arity == |d.params| && f.nregs == |d.params| + Registers(Params(d), d.body) &&
            |Flat(f.blocks)| == Rows(Params(d), d.body) + Closer(d.body)
  {
    hide BuildStmt, BindRegs, CodeOk, Constants, Count, Registers, Rows, EndsInTerminator;
    var g := StartFunc(d);
    StartShape(d);
    assert g.names.Keys == Params(d);
    StmtText(visible, g, d.body);
    StmtGrows(visible, g, d.body);
    var a := BuildStmt(visible, g, d.body).value;
    EmitGrows(a, Ir.Return(None));
    StartCount();
    CountFlat(BuildFunc(visible, d).value.blocks);
  }

  lemma StartCount()
    ensures Count([[]]) == 0
  {
    assert Count([]) == 0;
  }

  // ----- what fits the byte code -----

  lemma {:induction false} CodeSize(list: seq<Inst>)
    ensures |Emitted(list).code| <= 7 * |list|
    decreases |list|
  {
    if list != [] {
      CodeSize(list[..|list| - 1]);
      RawSize(list[|list| - 1], |Emitted(list[..|list| - 1]).constants|);
    }
  }

  lemma RawSize(i: Inst, k: nat)
    ensures |Raw(i, k)| <= 7
  {
    hide U16;
  }

  lemma EntryInCode(blocks: Code, b: BlockId)
    requires b < |blocks|
    ensures Entries(blocks)[b] <= 7 * |Flat(blocks)|
  {
    hide Emitted, Entries, Flat;
    LowerLayout.EntryAt(blocks, b);
    LowerLayout.FlatPrefix(blocks, b);
    CodeSize(Flat(blocks[..b]));
  }

  /** A jump leads to a block that its instruction names, from within the code. */
  lemma {:induction false} PatchOrigin(list: seq<Inst>, p: Patch)
    requires p in Emitted(list).patches
    ensures p.base <= |Emitted(list).code| && exists i <- list :: p.target in Targets(i)
    decreases |list|
  {
    var before, i := list[..|list| - 1], list[|list| - 1];
    assert list == before + [i];
    if p in Emitted(before).patches { PatchOrigin(before, p); } else { assert i in list && p.target in Targets(i); }
  }

  lemma {:induction false} InBlocks(blocks: Code, i: Inst) returns (b: BlockId, k: nat)
    requires i in Flat(blocks)
    ensures b < |blocks| && k < |blocks[b]| && blocks[b][k] == i
    decreases |blocks|
  {
    var n := |blocks| - 1;
    if i in blocks[n] {
      b := n;
      k :| 0 <= k < |blocks[n]| && blocks[n][k] == i;
    } else {
      b, k := InBlocks(blocks[..n], i);
    }
  }

  lemma BuiltInst(visible: set<Name>, d: FuncDecl, i: Inst)
    requires BuildFunc(visible, d).Some? && i in Flat(BuildFunc(visible, d).value.blocks)
    ensures var f := BuildFunc(visible, d).value;
            (forall r <- Regs(i) :: r < f.nregs) && (forall t <- Targets(i) :: t < |f.blocks|) &&
            (i.Constant? ==> i.v.Int? || i.v.Bool?)
  {
    hide BuildFunc, Constants, Flat;
    FuncShape(visible, d);
    var f := BuildFunc(visible, d).value;
    var b, k := InBlocks(f.blocks, i);
    BuiltAt(f, b, k);
  }

  lemma BuiltAt(f: Func, b: BlockId, k: nat)
    requires WellBuilt(f) && b < |f.blocks| && k < |f.blocks[b]|
    ensures InstOk(f.blocks[b][k], b, |f.blocks|, f.nregs)
  {
    hide InstOk, Constants;
    assert BlockOk(f.blocks[b], b, |f.blocks|, f.nregs);
  }

  /** A jump over more bytes than two can count. */
  ghost predicate TooFar(blocks: Code, p: Patch) {
    p.target < |Entries(blocks)| &&
    (Entries(blocks)[p.target] - p.base > 65535 || p.base - Entries(blocks)[p.target] > 65535)
  }

  ghost predicate NamesWideRegister(blocks: Code) {
    exists i <- Flat(blocks) :: exists r <- Regs(i) :: r > 255
  }

  /** A built function is refused for one of three reasons: too many parameters, a register
      that is no byte, or a jump that is too far. */
  lemma RefusedIff(visible: set<Name>, name: NameId, d: FuncDecl)
    requires BuildFunc(visible, d).Some?
    ensures var f := BuildFunc(visible, d).value;
            LowerFunc(name, f) == None <==>
            |d.params| > 255 || NamesWideRegister(f.blocks) || exists p <- Emitted(Flat(f.blocks)).patches :: TooFar(f.blocks, p)
  {
    hide BuildFunc, Emitted, Flat, Entries, ApplyAll;
    var f := BuildFunc(visible, d).value;
    FuncCost(visible, d);
    forall p <- Emitted(Flat(f.blocks)).patches
      ensures p.target < |Entries(f.blocks)|
    {
      PatchOrigin(Flat(f.blocks), p);
      var i :| i in Flat(f.blocks) && p.target in Targets(i);
      BuiltInst(visible, d, i);
    }
    forall i <- Flat(f.blocks)
      ensures i.Constant? ==> i.v.Int? || i.v.Bool?
    {
      BuiltInst(visible, d, i);
    }
  }

  /** Few registers and few instructions always fit: seven bytes each leave every jump within
      reach. */
  lemma SmallFits(visible: set<Name>, name: NameId, d: FuncDecl)
    requires BuildFunc(visible, d).Some?
    requires var f := BuildFunc(visible, d).value; |d.params| <= 255 && f.nregs <= 256 && |Flat(f.blocks)| <= 9362
    ensures LowerFunc(name, BuildFunc(visible, d).value).Some?
  {
    hide BuildFunc, Emitted, Flat, Entries, LowerFunc;
    var f := BuildFunc(visible, d).value;
    RefusedIff(visible, name, d);
    forall i <- Flat(f.blocks)
      ensures forall r <- Regs(i) :: r <= 255
    {
      BuiltInst(visible, d, i);
    }
    forall p <- Emitted(Flat(f.blocks)).patches
      ensures !TooFar(f.blocks, p)
    {
      CodeSize(Flat(f.blocks));
      PatchOrigin(Flat(f.blocks), p);
      if p.target < |Entries(f.blocks)| { EntryInCode(f.blocks, p.target); }
    }
  }

  // ----- what compiles -----

  /** The conditions on the text of a function: known names, at most 255 parameters and at most
      256 registers. */
  predicate TextFits(p: Program, d: FuncDecl) {
    && Buildable(Visible(p), Params(d), false, d.body)
    && |d.params| <= 255 && |d.params| + Registers(Params(d), d.body) <= 256
  }

  lemma FuncCompilesIff(p: Program, name: NameId, d: FuncDecl)
    requires Rows(Params(d), d.body) + Closer(d.body) <= 9362
    ensures TextFits(p, d) <==> BuildFunc(Visible(p), d).Some? && LowerFunc(name, BuildFunc(Visible(p), d).value).Some?
  {
    hide BuildFunc, Buildable, Registers, Rows, Flat, Emitted, Entries, Encodable, GlobalsOf;
    FuncBuildsIff(Visible(p), d);
    if BuildFunc(Visible(p), d).Some? {
      FuncCost(Visible(p), d);
      if TextFits(p, d) { SmallFits(Visible(p), name, d); }
      if LowerFunc(name, BuildFunc(Visible(p), d).value).Some? { BuildRegs.FewRegisters(Visible(p), d); }
    }
  }

  /** Programs whose functions have at most 9362 instructions compile exactly if the texts of
      all functions say so. */
  lemma CompilesIff(p: Program)
    requires forall d <- p.funcs :: Rows(Params(d), d.body) + Closer(d.body) <= 9362
    ensures Compile(p).Some? <==> forall d <- p.funcs :: TextFits(p, d)
  {
    hide BuildFunc, TextFits, LowerFunc, LowerAll, Rows, GlobalsOf, Lowerable;
    forall d <- p.funcs
      ensures TextFits(p, d) <==> BuildFunc(Visible(p), d).Some? && Lowerable(BuildFunc(Visible(p), d).value)
    {
      FuncCompilesIff(p, d.name, d);
    }
    var b := BuildFuncs(Visible(p), p.funcs);
    if b.Some? {
      LowerEach(p.funcs, b.value);
      forall i | 0 <= i < |p.funcs|
        ensures TextFits(p, p.funcs[i]) <==> Lowerable(b.value[i])
      {
        assert p.funcs[i] in p.funcs;
      }
    }
  }
}
