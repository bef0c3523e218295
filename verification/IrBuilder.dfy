/**
 The IR builder as the program has it: an object that appends to flat tables, allocates
 registers and blocks, keeps a flat name table and a loop stack, and patches `break` jumps
 when their loop is complete.  Every method is proved to build what `Build` specifies.
 */
module IrBuilder {
  import opened Values
  import opened Source
  import opened Build
  import opened BuildShape
  import opened BuilderRep
  import opened Tables
  import I = Ir

  type Reg = I.Reg

  /** What a finished function looks like in the tables. */
  ghost predicate Finished(ir: ModuleIr, visible: set<Name>, d: FuncDecl, f: FuncRecord) {
    && f.name == d.name && FuncIn(ir, f) && f.entryBlock == 0 && 0 < f.blocks.count
    && (forall k | 0 <= k < f.blocks.count :: BlocksOf(ir, f)[k].blockId == k)
    && FuncOf(ir, f) == BuildFunc(visible, d) && FuncOf(ir, f).Some?
    && Spells(ir, BlocksOf(ir, f), BuildFunc(visible, d).value.blocks)
  }

  lemma StillFinished(ir: ModuleIr, more: ModuleIr, visible: set<Name>, d: FuncDecl, f: FuncRecord)
    requires ir.blocks <= more.blocks && ir.insts <= more.insts && Finished(ir, visible, d, f)
    ensures Finished(more, visible, d, f)
  {
    hide FuncOf, BuildFunc, SpellsBlock, RowsOf;
    FuncExtends(ir, more, f);
  }

  class Builder {
    const visible: set<Name>
    var funcs: seq<FuncRecord>
    var blocks: seq<BlockRecord>
    var insts: seq<Row>

    // the function being built
    var fid: nat
    var curBid: nat
    var names: map<Name, Reg>
    var loops: seq<LoopPatch>

    ghost var pending: map<nat, nat>
    ghost var owner: seq<nat>
    /** The tables before this function, and the fixed part of its record. */
    ghost var base: ModuleIr
    ghost var head: FuncRecord

    constructor (visible: set<Name>)
      ensures this.visible == visible && funcs == [] && blocks == [] && insts == []
    {
      this.visible := visible;
      funcs, blocks, insts, fid, curBid, names, loops := [], [], [], 0, 0, map[], [];
    }

    ghost predicate InFunc()
      reads this
    {
      && fid + 1 == |funcs| && funcs[..fid] == base.funcs
      && base.blocks <= blocks && base.insts <= insts
      && funcs[fid] == head.(nextVreg := funcs[fid].nextVreg, blocks := Span(|base.blocks|, |blocks| - |base.blocks|))
    }

    ghost function View(): Tab
      requires InFunc()
      reads this
    {
      Tab(blocks[|base.blocks|..], insts, funcs[fid].nextVreg, curBid, names, loops, pending, owner, |base.insts|)
    }

    /** The tables hold the context `g`. */
    ghost predicate Builds(g: Ctx)
      reads this
    {
      InFunc() && Rep(View(), g)
    }

    // ----- primitives -----

    method AllocVReg(ghost g: Ctx) returns (r: Reg)
      requires Builds(g)
      modifies this`funcs
      ensures Builds(Fresh(g)) && r == g.nv
    {
      hide Rep;
      VregRep(View(), g, g.nv + 1, g.names);
      RepFields(View(), g);
      r := funcs[fid].nextVreg;
      funcs := funcs[fid := funcs[fid].(nextVreg := r + 1)];
    }

    method BindName(ghost g: Ctx, x: Name, r: Reg)
      requires Builds(g)
      modifies this`names
      ensures Builds(g.(names := g.names[x := r]))
    {
      hide Rep;
      VregRep(View(), g, g.nv, g.names[x := r]);
      RepFields(View(), g);
      names := names[x := r];
    }

    lemma RepFields(t: Tab, g: Ctx)
      requires Rep(t, g)
      ensures t.nv == g.nv && t.names == g.names && t.cur == g.cur < |g.blocks| == |t.recs| && |t.loops| == |g.loops|
      ensures forall j | 0 <= j < |t.loops| :: t.loops[j].continueTarget == g.loops[j]
    {
      hide Partition, BlockRep;
    }

    /** The record of the current block. */
    function Current(): BlockRecord
      requires fid < |funcs| && funcs[fid].blocks.begin + curBid < |blocks|
      reads this
    {
      blocks[funcs[fid].blocks.begin + curBid]
    }

    /** Appends a row to the current block; its first row fixes where the block starts. */
    method EmitRowOf(ghost g: Ctx, row: Row)
      requires Builds(g)
      modifies this`blocks, this`insts, this`owner
      ensures InFunc() && View() == EmitRow(old(View()), row)
    {
      hide Rep;
      RepFields(View(), g);
      ghost var before := View();
      var at := funcs[fid].blocks.begin + curBid;
      var rec := blocks[at];
      if rec.begin.None? { rec := rec.(begin := Some(|insts|)); }
      insts := insts + [row];
      owner := owner + [curBid];
      blocks := blocks[at := rec.(count := rec.count + 1)];
      assert blocks[|base.blocks|..] == EmitRow(before, row).recs;
    }

    method Emit(ghost g: Ctx, i: I.Inst)
      requires Builds(g)
      modifies this`blocks, this`insts, this`owner
      ensures Builds(Build.Emit(g, i))
    {
      hide Rep;
      EmitRep(View(), g, i);
      EmitRowOf(g, RowOf(i));
    }

    /** A new empty block at the end of the function. */
    method BeginBlock(ghost g: Ctx) returns (b: I.BlockId)
      requires Builds(g)
      modifies this`funcs, this`blocks
      ensures Builds(AddBlocks(g, 1)) && b == |g.blocks|
    {
      hide Rep;
      RepFields(View(), g);
      AddBlockRep(View(), g);
      ghost var before := View();
      var span := funcs[fid].blocks;
      b := span.count;
      blocks := blocks + [BlockRecord(b, None, 0)];
      funcs := funcs[fid := funcs[fid].(blocks := span.(count := b + 1))];
      assert blocks[|base.blocks|..] == before.recs + [BlockRecord(b, None, 0)];
    }

    method SwitchBlock(ghost g: Ctx, c: I.BlockId)
      requires Builds(g) && c < |g.blocks| && g.blocks[c] == []
      modifies this`curBid
      ensures Builds(g.(cur := c))
    {
      hide Rep;
      SwitchRep(View(), g, c);
      curBid := c;
    }

    method IsTerminated(ghost g: Ctx) returns (t: bool)
      requires Builds(g)
      ensures t == (HasBlock(g) && Terminated(g))
    {
      hide Rep;
      RepFields(View(), g);
      TerminatedRep(View(), g);
      var b := Current();
      assert b == View().recs[curBid];
      if b.count == 0 || b.begin.None? { return false; }
      t := b.begin.value + b.count <= |insts| && IsTerminator(insts[b.begin.value + b.count - 1].kind);
    }

    /** Closes the current block unless it already is. */
    method Close(ghost g: Ctx, i: I.Inst)
      requires Builds(g) && HasBlock(g)
      modifies this`blocks, this`insts, this`owner
      ensures Builds(CloseWith(g, i))
    {
      hide Rep, Build.Emit;
      var done := IsTerminated(g);
      if !done { Emit(g, i); }
    }

    // ----- expressions -----

    /** Emits `i` into a fresh destination register, which the instruction already names. */
    method Define(ghost g: Ctx, i: I.Inst) returns (r: Reg)
      requires Builds(g) && HasBlock(g)
      modifies this`funcs, this`blocks, this`insts, this`owner
      ensures Builds(Build.Define(g, i).g) && r == g.nv
    {
      hide Rep, Build.Emit;
      r := AllocVReg(g);
      Emit(Fresh(g), i);
    }

    /** The number of the next register. */
    method NextVReg(ghost g: Ctx) returns (r: Reg)
      requires Builds(g)
      ensures r == g.nv
    {
      hide Rep;
      RepFields(View(), g);
      r := funcs[fid].nextVreg;
    }

    method LookupName(ghost g: Ctx, x: Name) returns (r: Option<Reg>)
      requires Builds(g)
      ensures r == if x in g.names then Some(g.names[x]) else None
    {
      hide Rep;
      RepFields(View(), g);
      if x in names { return Some(names[x]); }
      return None;
    }

    method BuildExpr(ghost g: Ctx, e: Expr) returns (ok: bool, r: Reg)
      requires Builds(g) && HasBlock(g)
      modifies this`funcs, this`blocks, this`insts, this`owner
      ensures var b := Build.BuildExpr(visible, g, e); ok == b.BuiltExpr? && (ok ==> Builds(b.g) && r == b.r)
      decreases e, 1
    {
      hide Rep, Builds, Build.Emit;
      var dst := NextVReg(g);
      match e
      case IntLit(i) =>
        r := Define(g, I.Constant(dst, Int(i)));
        ok := true;
      case BoolLit(b) =>
        r := Define(g, I.Constant(dst, Bool(b)));
        ok := true;
      case Ident(x) =>
        var local := LookupName(g, x);
        if local.Some? { return true, local.value; }
        if x !in visible { return false, 0; }
        r := Define(g, I.LoadGlobal(dst, x));
        ok := true;
      case Binary(_, _, _) => ok, r := BuildBinary(g, e);
      case Unary(op, operand) =>
        var a: Reg;
        ok, a := BuildExpr(g, operand);
        if !ok { return false, 0; }
        ghost var b := Build.BuildExpr(visible, g, operand);
        dst := NextVReg(b.g);
        r := Define(b.g, UnaryInst(op, dst, a));
      case Call(_, _) => ok, r := BuildCall(g, e);
    }

    /** Operands left to right, then the operation; `&&` and `||` are operations like any other. */
    method BuildBinary(ghost g: Ctx, e: Expr) returns (ok: bool, r: Reg)
      requires Builds(g) && HasBlock(g) && e.Binary?
      modifies this`funcs, this`blocks, this`insts, this`owner
      ensures var b := Build.BuildExpr(visible, g, e); ok == b.BuiltExpr? && (ok ==> Builds(b.g) && r == b.r)
      decreases e, 0
    {
      hide Rep, Builds, Build.Emit;
      r := 0;
      var left, right: Reg;
      ok, left := BuildExpr(g, e.left);
      if !ok { return; }
      ghost var l := Build.BuildExpr(visible, g, e.left);
      ok, right := BuildExpr(l.g, e.right);
      if !ok { return; }
      ghost var b := Build.BuildExpr(visible, l.g, e.right);
      var dst := NextVReg(b.g);
      r := Define(b.g, I.Bin(e.op, dst, left, right));
    }

    /** Callee and arguments first; then fresh consecutive slots, the moves into them and the call. */
    method BuildCall(ghost g: Ctx, e: Expr) returns (ok: bool, r: Reg)
      requires Builds(g) && HasBlock(g) && e.Call?
      modifies this`funcs, this`blocks, this`insts, this`owner
      ensures var b := Build.BuildExpr(visible, g, e); ok == b.BuiltExpr? && (ok ==> Builds(b.g) && r == b.r)
      decreases e, 0
    {
      hide Rep, Builds, Build.Emit, EmitMoves;
      r := 0;
      var callee, args;
      ok, callee := BuildExpr(g, e.callee);
      if !ok { return; }
      ghost var c := Build.BuildExpr(visible, g, e.callee);
      ok, args := BuildArgs(c.g, e.args);
      if !ok { return; }
      ghost var a := Build.BuildArgs(visible, c.g, e.args);
      var start := AllocSlots(a.g, |args|);
      ghost var g0 := a.g.(nv := a.g.nv + |args|);
      MoveArgs(g0, start, args);
      ghost var g1 := EmitMoves(g0, start, args);
      var dst := NextVReg(g1);
      r := Define(g1, I.Call(dst, callee, if args == [] then None else Some(start), |args|));
    }

    /** Evaluates the arguments in order. */
    method BuildArgs(ghost g: Ctx, args: Args) returns (ok: bool, regs: seq<Reg>)
      requires Builds(g) && HasBlock(g)
      modifies this`funcs, this`blocks, this`insts, this`owner
      ensures var b := Build.BuildArgs(visible, g, args); ok == b.BuiltArgs? && (ok ==> Builds(b.g) && regs == b.rs)
      decreases args, 0
    {
      hide Rep, Builds, Build.BuildExpr;
      regs := [];
      var rest := args;
      ghost var h := g;
      while rest.Arg?
        invariant Builds(h) && HasBlock(h)
        invariant rest == args || rest < args
        invariant Build.BuildArgs(visible, g, args) == Prepend(regs, Build.BuildArgs(visible, h, rest))
        decreases rest
      {
        var v: Reg;
        ok, v := BuildExpr(h, rest.first);
        if !ok { return; }
        regs := regs + [v];
        h := Build.BuildExpr(visible, h, rest.first).g;
        rest := rest.rest;
      }
      ok := true;
    }

    static ghost function Prepend(rs: seq<Reg>, b: BuiltArgs): BuiltArgs {
      match b
      case NoArgs => BuiltArgs.NoArgs
      case BuiltArgs(g, qs) => BuiltArgs(g, rs + qs)
    }

    /** `n` consecutive fresh registers. */
    method AllocSlots(ghost g: Ctx, n: nat) returns (start: Reg)
      requires Builds(g)
      modifies this`funcs
      ensures Builds(g.(nv := g.nv + n)) && start == g.nv
    {
      hide Rep, Builds;
      start := NextVReg(g);
      assert g.(nv := g.nv + 0) == g;
      var k := 0;
      while k < n
        invariant k <= n && Builds(g.(nv := g.nv + k))
      {
        var r := AllocVReg(g.(nv := g.nv + k));
        assert Fresh(g.(nv := g.nv + k)) == g.(nv := g.nv + (k + 1));
        k := k + 1;
      }
    }

    method MoveArgs(ghost g: Ctx, start: Reg, args: seq<Reg>)
      requires Builds(g) && HasBlock(g)
      modifies this`blocks, this`insts, this`owner
      ensures Builds(EmitMoves(g, start, args))
    {
      hide Rep, Builds, Build.Emit;
      var k := 0;
      assert args[..0] == [];
      while k < |args|
        invariant k <= |args| && Builds(EmitMoves(g, start, args[..k]))
      {
        assert args[..k + 1][..k] == args[..k] && args[..k + 1][k] == args[k];
        Emit(EmitMoves(g, start, args[..k]), I.Move(start + k, args[k]));
        k := k + 1;
      }
      assert args[..k] == args;
    }

    // ----- statements -----

    method BuildStmt(ghost g: Ctx, s: Stmt) returns (ok: bool)
      requires Builds(g) && Inv(g) && !Terminated(g)
      modifies this`funcs, this`blocks, this`insts, this`owner, this`curBid, this`names, this`loops, this`pending
      ensures var b := Build.BuildStmt(visible, g, s); ok == b.Some? && (ok ==> Builds(b.value))
      decreases s, 1
    {
      hide Rep, Builds, Inv, Build.BuildExpr, Build.Emit;
      InvBlock(g);
      match s
      case ExprStmt(e) =>
        var ignored;
        ok, ignored := BuildExpr(g, e);
      case VarDecl(_, _) => ok := BuildVarDecl(g, s);
      case Assign(x, e) =>
        var dst := LookupName(g, x);
        if dst.None? { return false; }
        var r;
        ok, r := BuildExpr(g, e);
        if ok { Emit(Build.BuildExpr(visible, g, e).g, I.Move(dst.value, r)); }
      case CompoundAssign(_, _, _) => ok := BuildCompound(g, s);
      case Block(body) => ok := BuildBlock(g, body);
      case If(_, _, _) => ok := BuildIf(g, s);
      case Loop(_, _) => ok := BuildLoop(g, s);
      case Break =>
        ok := HasLoop(g);
        if ok { EmitBreakJump(g); }
      case Continue =>
        ok := HasLoop(g);
        if ok {
          var c := ContinueTarget(g);
          Emit(g, I.Jump(c));
        }
      case Return(e) =>
        if e.None? {
          Emit(g, I.Return(None));
          ok := true;
        } else {
          var r;
          ok, r := BuildExpr(g, e.value);
          if ok { Emit(Build.BuildExpr(visible, g, e.value).g, I.Return(Some(r))); }
        }
    }

    method HasLoop(ghost g: Ctx) returns (b: bool)
      requires Builds(g)
      ensures b == (g.loops != [])
    {
      hide Rep;
      RepFields(View(), g);
      b := loops != [];
    }

    method ContinueTarget(ghost g: Ctx) returns (c: I.BlockId)
      requires Builds(g) && g.loops != []
      ensures c == g.loops[|g.loops| - 1]
    {
      hide Rep;
      RepFields(View(), g);
      c := loops[|loops| - 1].continueTarget;
    }

    /** A jump to a block not known yet; the loop remembers its row. */
    method EmitBreakJump(ghost g: Ctx)
      requires Builds(g) && g.loops != []
      modifies this`blocks, this`insts, this`owner, this`loops, this`pending
      ensures Builds(Build.Emit(g, I.Jump(g.loops[|g.loops| - 1] + 2)))
    {
      hide Rep;
      RepFields(View(), g);
      EmitBreakRep(View(), g);
      var row := |insts|;
      EmitRowOf(g, RowOf(I.Jump(UNSET)));
      var top := |loops| - 1;
      loops := loops[top := loops[top].(breaks := loops[top].breaks + [row])];
      pending := pending[row := top];
    }

    /** The name is bound before its initialiser is built. */
    method BuildVarDecl(ghost g: Ctx, s: Stmt) returns (ok: bool)
      requires Builds(g) && HasBlock(g) && s.VarDecl?
      modifies this`funcs, this`blocks, this`insts, this`owner, this`names
      ensures var b := Build.BuildStmt(visible, g, s); ok == b.Some? && (ok ==> Builds(b.value))
    {
      hide Rep, Builds, Build.BuildExpr, Build.Emit;
      var dst := AllocVReg(g);
      BindName(Fresh(g), s.x, dst);
      ghost var g0 := Fresh(g).(names := g.names[s.x := dst]);
      var r;
      ok, r := BuildExpr(g0, s.init);
      if ok { Emit(Build.BuildExpr(visible, g0, s.init).g, I.Move(dst, r)); }
    }

    method BuildCompound(ghost g: Ctx, s: Stmt) returns (ok: bool)
      requires Builds(g) && HasBlock(g) && s.CompoundAssign?
      modifies this`funcs, this`blocks, this`insts, this`owner
      ensures var b := Build.BuildStmt(visible, g, s); ok == b.Some? && (ok ==> Builds(b.value))
    {
      hide Rep, Builds, Build.BuildExpr, Build.Emit;
      var dst := LookupName(g, s.target);
      if dst.None? { return false; }
      var r;
      ok, r := BuildExpr(g, s.value);
      if !ok || !Compound(s.op) { return false; }
      ghost var h := Build.BuildExpr(visible, g, s.value).g;
      var tmp := NextVReg(h);
      tmp := Define(h, I.Bin(s.op, tmp, dst.value, r));
      Emit(Build.Define(h, I.Bin(s.op, h.nv, dst.value, r)).g, I.Move(dst.value, tmp));
    }

    /** Statements in order, until one of them has closed the block. */
    method BuildBlock(ghost g: Ctx, body: Stmts) returns (ok: bool)
      requires Builds(g) && Inv(g) && !Terminated(g)
      modifies this`funcs, this`blocks, this`insts, this`owner, this`curBid, this`names, this`loops, this`pending
      ensures var b := BuildStmts(visible, g, body); ok == b.Some? && (ok ==> Builds(b.value))
      decreases body
    {
      hide Rep, Builds, Inv, Build.BuildStmt;
      StmtInv(g);
      var rest := body;
      ghost var h := g;
      while rest.Seq?
        invariant Builds(h) && Inv(h) && HasBlock(h)
        invariant rest == body || rest < body
        invariant BuildStmts(visible, g, body) == BuildStmts(visible, h, rest)
        decreases rest
      {
        var done := IsTerminated(h);
        if done { return true; }
        ok := BuildStmt(h, rest.head);
        if !ok { return; }
        StmtKeepsShape(visible, h, rest.head);
        h := Build.BuildStmt(visible, h, rest.head).value;
        StmtInv(h);
        rest := rest.tail;
      }
      ok := true;
    }

    lemma StmtInv(g: Ctx)
      requires Inv(g)
      ensures HasBlock(g)
    {
      InvBlock(g);
    }

    /** One arm of a branch or the body of a loop: built into the empty block `c`, then
        closed with a jump to `out`. */
    method BuildArm(ghost h: Ctx, c: I.BlockId, s: Stmt, out: I.BlockId) returns (ok: bool)
      requires Builds(h) && Inv(h) && c < |h.blocks| && h.blocks[c] == [] && out < |h.blocks|
      modifies this`funcs, this`blocks, this`insts, this`owner, this`curBid, this`names, this`loops, this`pending
      ensures var b := Build.BuildStmt(visible, h.(cur := c), s);
              ok == b.Some? &&
              (ok ==> Builds(CloseWith(b.value, I.Jump(out))) && Inv(CloseWith(b.value, I.Jump(out))) &&
                      Filled(h, c, CloseWith(b.value, I.Jump(out))))
      decreases s, 2
    {
      hide Rep, Builds, CodeOk, Constants, Build.BuildStmt, CloseWith, Filled;
      SwitchBlock(h, c);
      SwitchInv(h, c, h.loops);
      EmptyOpen(h, c);
      ok := BuildStmt(h.(cur := c), s);
      if !ok { return; }
      FillBlock(visible, h, c, s, out);
      ghost var a := Build.BuildStmt(visible, h.(cur := c), s).value;
      Close(a, I.Jump(out));
    }

    /** Appends `n` empty blocks. */
    method BeginBlocks(ghost g: Ctx, n: nat) returns (first: I.BlockId)
      requires Builds(g)
      modifies this`funcs, this`blocks
      ensures Builds(AddBlocks(g, n)) && first == |g.blocks|
    {
      hide Rep, Builds;
      var k := 0;
      first := BlockCount(g);
      AddNone(g);
      while k < n
        invariant k <= n && Builds(AddBlocks(g, k))
      {
        var b := BeginBlock(AddBlocks(g, k));
        AddOne(g, k);
        k := k + 1;
      }
    }

    method BlockCount(ghost g: Ctx) returns (n: nat)
      requires Builds(g)
      ensures n == |g.blocks|
    {
      hide Rep;
      RepFields(View(), g);
      n := funcs[fid].blocks.count;
    }

    lemma AddNone(g: Ctx)
      ensures AddBlocks(g, 0) == g
    {
      assert AddBlocks(g, 0).blocks == g.blocks;
    }

    lemma AddOne(g: Ctx, k: nat)
      ensures AddBlocks(AddBlocks(g, k), 1) == AddBlocks(g, k + 1)
    {
      assert AddBlocks(AddBlocks(g, k), 1).blocks == AddBlocks(g, k + 1).blocks;
    }

    /** Condition, then the blocks `then`, `join` and, if needed, `else`. */
    method BuildIf(ghost g: Ctx, s: Stmt) returns (ok: bool)
      requires Builds(g) && Inv(g) && !Terminated(g) && s.If?
      modifies this`funcs, this`blocks, this`insts, this`owner, this`curBid, this`names, this`loops, this`pending
      ensures var b := Build.BuildStmt(visible, g, s); ok == b.Some? && (ok ==> Builds(b.value))
      decreases s, 0
    {
      hide Rep, Builds, CodeOk, Constants, Build.BuildExpr, Build.Emit, Build.BuildBranches, Extends;
      var cond;
      ok, cond := BuildExpr(g, s.cond);
      if !ok { return; }
      ExprKeepsShape(visible, g, s.cond);
      ghost var h := Build.BuildExpr(visible, g, s.cond).g;
      ok := BuildArms(h, cond, s);
    }

    method BuildArms(ghost g: Ctx, cond: Reg, s: Stmt) returns (ok: bool)
      requires Builds(g) && Inv(g) && !Terminated(g) && s.If? && cond < g.nv
      modifies this`funcs, this`blocks, this`insts, this`owner, this`curBid, this`names, this`loops, this`pending
      ensures var b := BuildBranches(visible, g, cond, s); ok == b.Some? && (ok ==> Builds(b.value))
      decreases s, 0, 0
    {
      hide Rep, Builds, CodeOk, Constants, Build.Emit, Build.BuildStmt, CloseWith, Extends;
      var n := if s.els.Some? then 3 else 2;
      var t := BeginBlocks(g, n);
      var br := I.Branch(cond, t, if s.els.Some? then t + 2 else t + 1);
      Emit(AddBlocks(g, n), br);
      ghost var g1 := Build.Emit(AddBlocks(g, n), br);
      OpenShape(g, n, br);
      ok := BuildArm(g1, t, s.thn, t + 1);
      if !ok { return; }
      ghost var g2 := CloseWith(Build.BuildStmt(visible, g1.(cur := t), s.thn).value, I.Jump(t + 1));
      if s.els.None? {
        SwitchBlock(g2, t + 1);
        return;
      }
      ok := BuildArm(g2, t + 2, s.els.value, t + 1);
      if !ok { return; }
      SwitchBlock(CloseWith(Build.BuildStmt(visible, g2.(cur := t + 2), s.els.value).value, I.Jump(t + 1)), t + 1);
    }

    method BuildLoop(ghost g: Ctx, s: Stmt) returns (ok: bool)
      requires Builds(g) && Inv(g) && !Terminated(g) && s.Loop?
      modifies this`funcs, this`blocks, this`insts, this`owner, this`curBid, this`names, this`loops, this`pending
      ensures var b := Build.BuildStmt(visible, g, s); ok == b.Some? && (ok ==> Builds(b.value))
      decreases s, 0
    {
      hide Rep, Builds, CodeOk, Constants, Build.Emit, Build.BuildStmt, Build.BuildGuard, CloseWith, Extends, Filled;
      BuildShape.LoopUnfolds(visible, g, s);
      InvBlock(g);
      var c := BeginBlocks(g, 3);
      Emit(AddBlocks(g, 3), I.Jump(c));
      ghost var g0 := Build.Emit(AddBlocks(g, 3), I.Jump(c));
      PushLoop(g0, c);
      LoopHeadShape(g);
      NewBlocks(g);
      SwitchBlock(g0.(loops := g.loops + [c]), c);
      ok := BuildCond(LoopHead(g), s.guard, c);
      if !ok { return; }
      GuardShape(visible, LoopHead(g), s.guard, c);
      ghost var k := Build.BuildGuard(visible, LoopHead(g), s.guard, c).value;
      GuardLeavesBody(LoopHead(g), k, c);
      ok := BuildArm(k, c + 1, s.loopBody, c);
      if !ok { return; }
      ghost var d := CloseWith(Build.BuildStmt(visible, k.(cur := c + 1), s.loopBody).value, I.Jump(c));
      ExitOpen(LoopHead(g), k, d, c);
      PopLoop(d, c + 2);
      SwitchBlock(d.(loops := g.loops), c + 2);
    }

    lemma NewBlocks(g: Ctx)
      requires HasBlock(g)
      ensures var g0 := Build.Emit(AddBlocks(g, 3), I.Jump(|g.blocks|));
              g0.loops == g.loops && |g.blocks| < |g0.blocks| && g0.blocks[|g.blocks|] == []
    {
    }

    /** The exit block is still empty when the body is done, and this loop is on top again. */
    lemma ExitOpen(h: Ctx, k: Ctx, d: Ctx, c: I.BlockId)
      requires Filled(h, c, k) && Filled(k, c + 1, d) && c + 2 < |h.blocks| && h.blocks[c + 2] == []
      requires h.loops != [] && h.loops[|h.loops| - 1] == c
      ensures c + 2 < |d.blocks| && d.blocks[c + 2] == [] && d.loops == h.loops
    {
    }

    /** The condition block: without a guard it goes straight on to the body. */
    method BuildCond(ghost g: Ctx, guard: Option<Expr>, c: I.BlockId) returns (ok: bool)
      requires Builds(g) && HasBlock(g)
      modifies this`funcs, this`blocks, this`insts, this`owner
      ensures var b := Build.BuildGuard(visible, g, guard, c); ok == b.Some? && (ok ==> Builds(b.value))
    {
      hide Rep, Builds, Build.BuildExpr, Build.Emit;
      if guard.None? {
        Emit(g, I.Jump(c + 1));
        return true;
      }
      var r;
      ok, r := BuildExpr(g, guard.value);
      if ok { Emit(Build.BuildExpr(visible, g, guard.value).g, I.Branch(r, c + 1, c + 2)); }
    }

    method PushLoop(ghost g: Ctx, c: I.BlockId)
      requires Builds(g)
      modifies this`loops
      ensures Builds(g.(loops := g.loops + [c]))
    {
      hide Rep;
      PushLoopRep(View(), g, c);
      loops := loops + [LoopPatch(c, [])];
    }

    /** Gives every break of the innermost loop its target and forgets the loop. */
    method PopLoop(ghost g: Ctx, exit: I.BlockId)
      requires Builds(g) && g.loops != [] && exit == g.loops[|g.loops| - 1] + 2
      modifies this`loops, this`insts, this`pending
      ensures Builds(g.(loops := g.loops[..|g.loops| - 1]))
    {
      hide Rep;
      RepFields(View(), g);
      ghost var t := View();
      var top := |loops| - 1;
      var patch := loops[top];
      loops := loops[..top];
      BreakRows(t, g, top);
      var k := 0;
      while k < |patch.breaks|
        modifies this`insts
        invariant k <= |patch.breaks| && |insts| == |t.insts|
        invariant forall r | 0 <= r < |t.insts| ::
                    insts[r] == if r in patch.breaks[..k] then RowOf(I.Jump(exit)) else t.insts[r]
      {
        var r := patch.breaks[k];
        assert r in patch.breaks;
        assert patch.breaks[..k + 1] == patch.breaks[..k] + [r];
        if r < |insts| && insts[r].a.BlockRef? { insts := insts[r := insts[r].(a := BlockRef(exit))]; }
        k := k + 1;
      }
      assert patch.breaks[..k] == patch.breaks;
      pending := map r | r in pending && pending[r] != top :: pending[r];
      forall r | 0 <= r < |base.insts|
        ensures insts[r] == base.insts[r]
      {
        assert t.insts[r] == base.insts[r];
      }
      PopLoopRep(t, g, View(), exit);
    }

    lemma BreakRows(t: Tab, g: Ctx, top: nat)
      requires Rep(t, g) && top < |t.loops|
      ensures forall r :: r in t.loops[top].breaks <==> r in t.pending && t.pending[r] == top
      ensures forall r <- t.loops[top].breaks :: t.start <= r < |t.insts| && t.insts[r] == RowOf(I.Jump(UNSET))
    {
      hide RowOf;
      forall r <- t.loops[top].breaks
        ensures t.start <= r < |t.insts| && t.insts[r] == RowOf(I.Jump(UNSET))
      {
        assert r in t.pending;
        var b := t.owner[r];
        assert BlockRep(t, g, b) && InBlock(t.recs[b], r);
        assert RowRep(t, g, t.recs[b].begin.value + (r - t.recs[b].begin.value), g.blocks[b][r - t.recs[b].begin.value]);
      }
    }

    // ----- declarations -----

    ghost function Ir(): ModuleIr
      reads this
    {
      ModuleIr(funcs, blocks, insts)
    }

    /** A new function record with its entry block, which becomes the current block. */
    method BeginFunc(name: NameId)
      modifies this
      ensures Builds(Ctx([[]], 0, 0, map[], []))
      ensures base == old(Ir()) && head == FuncRecord(|old(funcs)|, name, 0, 0, 0, Span(0, 0))
    {
      hide Rep;
      base := Ir();
      fid := |funcs|;
      head := FuncRecord(fid, name, 0, 0, 0, Span(0, 0));
      var f := FuncRecord(fid, name, UNSET, 0, 0, Span(|blocks|, 0));
      f := f.(blocks := Span(|blocks|, 1), entryBlock := f.blocks.count);
      funcs := funcs + [f];
      blocks := blocks + [BlockRecord(0, None, 0)];
      curBid, names, loops, pending := 0, map[], [], map[];
      owner := seq(|insts|, _ => 0);
      assert blocks[|base.blocks|..] == [BlockRecord(0, None, 0)];
      StartRep(View());
    }

    /** Parameters take the first registers, in order. */
    method BindParams(params: seq<Name>)
      requires Builds(Ctx([[]], 0, 0, map[], []))
      modifies this`funcs, this`names
      ensures Builds(Ctx([[]], 0, |params|, BindRegs(params), []))
    {
      hide Rep, Builds, BindRegs;
      var k := 0;
      NoParams();
      assert params[..0] == [];
      while k < |params|
        invariant k <= |params| && Builds(Ctx([[]], 0, k, BindRegs(params[..k]), []))
      {
        ghost var g := Ctx([[]], 0, k, BindRegs(params[..k]), []);
        var r := AllocVReg(g);
        BindName(Fresh(g), params[k], r);
        NextParam(params, k);
        k := k + 1;
      }
      assert params[..k] == params;
    }

    lemma NoParams()
      ensures BindRegs([]) == map[]
    {
    }

    lemma NextParam(params: seq<Name>, k: nat)
      requires k < |params|
      ensures BindRegs(params[..k + 1]) == BindRegs(params[..k])[params[k] := k]
    {
      assert params[..k + 1][..k] == params[..k];
    }

    method SetArity(ghost g: Ctx, n: nat)
      requires Builds(g)
      modifies this`funcs, this`head
      ensures Builds(g) && head == old(head).(arity := n)
    {
      hide Rep;
      head := head.(arity := n);
      funcs := funcs[fid := funcs[fid].(arity := n)];
    }

    /** Builds one function: entry block, parameters, body, and a return where control falls
        off the end.  Its blocks' spans are disjoint and together make up exactly the rows
        emitted for it; everything built before is left alone. */
    method BuildFuncDecl(d: FuncDecl) returns (ok: bool)
      modifies this
      ensures ok == Build.BuildFunc(visible, d).Some?
      ensures ok ==> |funcs| == |old(funcs)| + 1 && funcs[..|old(funcs)|] == old(funcs) &&
                     old(blocks) <= blocks && old(insts) <= insts &&
                     funcs[|old(funcs)|].funcId == |old(funcs)| && Finished(Ir(), visible, d, funcs[|old(funcs)|]) &&
                     Spread(BlocksOf(Ir(), funcs[|old(funcs)|]), |old(insts)|, |insts|)
    {
      hide Rep, Builds, Inv, Build.BuildStmt, BindRegs, FuncOf, Spread;
      BeginFunc(d.name);
      BindParams(d.params);
      ghost var g := StartFunc(d);
      SetArity(g, |d.params|);
      StartShape(d);
      ok := BuildStmt(g, d.body);
      if !ok { return; }
      StmtKeepsShape(visible, g, d.body);
      ghost var a := Build.BuildStmt(visible, g, d.body).value;
      StmtInv(a);
      Close(a, I.Return(None));
      FuncShape(visible, d);
      ghost var h := CloseWith(a, I.Return(None));
      NoLoops(visible, g, d.body);
      Done(d, h);
    }

    lemma NoLoops(visible: set<Name>, g: Ctx, s: Stmt)
      requires Inv(g) && !Terminated(g) && Build.BuildStmt(visible, g, s).Some?
      ensures Build.BuildStmt(visible, g, s).value.loops == g.loops
      ensures HasBlock(Build.BuildStmt(visible, g, s).value)
    {
      hide Inv, Build.BuildStmt, Closes;
      StmtKeepsShape(visible, g, s);
    }

    /** Once every block is closed, the tables spell out the context. */
    lemma Done(d: FuncDecl, h: Ctx)
      requires Builds(h) && h.loops == [] && head.name == d.name && head.arity == |d.params| && head.entryBlock == 0
      requires Build.BuildFunc(visible, d) == Some(I.Func(|d.params|, h.nv, h.blocks)) && WellBuilt(I.Func(|d.params|, h.nv, h.blocks))
      ensures InFunc() && Finished(Ir(), visible, d, funcs[fid]) && Spread(BlocksOf(Ir(), funcs[fid]), |base.insts|, |insts|)
    {
      hide Rep, WellBuilt, Spread;
      var f := funcs[fid];
      RepFields(View(), h);
      assert BlocksOf(Ir(), f) == View().recs;
      WellBuiltBlocks(I.Func(|d.params|, h.nv, h.blocks));
      CodeRep(View(), h, Ir());
      RepSpread(View(), h);
    }

    lemma WellBuiltBlocks(f: I.Func)
      requires WellBuilt(f)
      ensures f.blocks != [] && forall b | 0 <= b < |f.blocks| :: f.blocks[b] != []
      ensures forall b | 0 <= b < |f.blocks| :: forall i <- f.blocks[b] :: i.Constant? ==> i.v.Int? || i.v.Bool?
    {
      hide Constants;
      forall b | 0 <= b < |f.blocks|
        ensures f.blocks[b] != [] && forall i <- f.blocks[b] :: i.Constant? ==> i.v.Int? || i.v.Bool?
      {
        assert BlockOk(f.blocks[b], b, |f.blocks|, f.nregs) && EndsInTerminator(f.blocks[b]);
      }
    }

    /** Builds all functions of a unit. */
    method BuildUnit(ds: seq<FuncDecl>) returns (ok: bool)
      requires funcs == [] && blocks == [] && insts == []
      modifies this
      ensures ok == BuildFuncs(visible, ds).Some?
      ensures ok ==> |funcs| == |ds| && forall i | 0 <= i < |ds| :: funcs[i].funcId == i && Finished(Ir(), visible, ds[i], funcs[i])
    {
      hide Finished, Build.BuildFunc;
      var k := 0;
      while k < |ds|
        invariant k <= |ds| && |funcs| == k
        invariant forall i | 0 <= i < k :: funcs[i].funcId == i && Finished(Ir(), visible, ds[i], funcs[i])
        invariant forall i | 0 <= i < k :: Build.BuildFunc(visible, ds[i]).Some?
      {
        ghost var earlier := Ir();
        ok := BuildFuncDecl(ds[k]);
        if !ok {
          assert ds[k] in ds;
          return;
        }
        forall i | 0 <= i < k
          ensures funcs[i].funcId == i && Finished(Ir(), visible, ds[i], funcs[i])
        {
          assert funcs[..k][i] == earlier.funcs[i];
          StillFinished(earlier, Ir(), visible, ds[i], funcs[i]);
        }
        k := k + 1;
      }
      ok := true;
    }
  }
}
