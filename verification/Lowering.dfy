/**
 The lowering as the program does it: a writer whose byte code grows and is patched in
 place, a loop over the blocks and rows of a function, and a loop over the pending jump
 patches.  It produces exactly `Lower.LowerFunc` of the function the record stands for,
 and reports an error exactly where that is None.
 */
module Lowering {
  import opened Values
  import opened Tables
  import opened Lower
  import opened LowerLayout
  import I = Ir
  import B = Bytecode

  type byte = B.byte

  class BytecodeWriter {
    var code: seq<byte>
    var constants: seq<Value>

    constructor ()
      ensures code == [] && constants == []
    {
      code, constants := [], [];
    }

    method WriteByte(b: byte)
      modifies this`code
      ensures code == old(code) + [b]
    {
      code := code + [b];
    }

    /** Big-endian, as the VM reads it. */
    method WriteU16(n: nat)
      requires n <= B.U16_MAX
      modifies this`code
      ensures code == old(code) + U16(n)
    {
      WriteByte(n / 256 % 256);
      WriteByte(n % 256);
    }

    method PatchU16(at: nat, n: nat)
      requires at + 2 <= |code| && n <= B.U16_MAX
      modifies this`code
      ensures code == old(code)[at := U16(n)[0]][at + 1 := U16(n)[1]]
    {
      code := code[at := n / 256 % 256];
      code := code[at + 1 := n % 256];
    }

    /** The pool index is cut to 16 bits. */
    method AddConstant(v: Value) returns (index: nat)
      modifies this`constants
      ensures constants == old(constants) + [v] && index == |old(constants)| % 0x1_0000
    {
      index := |constants| % 0x1_0000;
      constants := constants + [v];
    }

    /** A load whose pool index takes one byte if it fits and two otherwise. */
    method EmitLoad(narrow: byte, wide: byte, dst: byte, index: nat)
      requires index < 0x1_0000
      modifies this`code
      ensures code == old(code) + WithConstant(narrow, wide, dst, index)
    {
      if index <= 255 {
        WriteByte(narrow);
        WriteByte(dst);
        WriteByte(index);
      } else {
        WriteByte(wide);
        WriteByte(dst);
        WriteU16(index);
      }
    }

    method Emit3(op: byte, x: byte, y: byte)
      modifies this`code
      ensures code == old(code) + [op, x, y]
    {
      WriteByte(op);
      WriteByte(x);
      WriteByte(y);
    }
  }

  /** A virtual register that fits in a byte. */
  predicate IsReg(o: Operand) {
    o.VReg? && o.n <= 255
  }

  /** What lowering a row does to code, pool and patches: the effect of its instruction, or
      an error exactly where the row spells no instruction or needs a wider register. */
  ghost predicate RowLowered(row: Row, w: Writer, w': Writer, ok: bool) {
    && (ok <==> InstOf(row).Some? && Encodable(InstOf(row).value))
    && (ok ==> w' == EmitInst(w, InstOf(row).value))
  }

  /** The registers a row of each kind needs to fit in a byte. */
  predicate RegistersFit(row: Row) {
    match row.kind
    case Constant => IsReg(row.dst)
    case LoadGlobal => IsReg(row.dst)
    case Move => IsReg(row.dst) && IsReg(row.a)
    case Neg => IsReg(row.dst) && IsReg(row.a)
    case LogicNot => IsReg(row.dst) && IsReg(row.a)
    case Binary(_) => IsReg(row.dst) && IsReg(row.a) && IsReg(row.b)
    case Call => IsReg(row.dst) && IsReg(row.a) && (row.b.Invalid? || IsReg(row.b))
    case Return => row.a.VReg? ==> IsReg(row.a)
    case Branch => IsReg(row.a)
    case _ => true
  }

  lemma EncodableRow(row: Row)
    ensures InstOf(row).Some? ==> (Encodable(InstOf(row).value) <==> RegistersFit(row))
  {
    if InstOf(row).Some? {
      var i := InstOf(row).value;
      if RegistersFit(row) {
        assert forall r <- I.Regs(i) :: r <= 255;
      } else {
        assert row.dst.VReg? && row.dst.n > 255 ==> row.kind.Return? || row.kind.Branch? || row.kind.Jump? || row.dst.n in I.Regs(i);
        assert row.a.VReg? && row.a.n > 255 ==> row.kind.Jump? || row.a.n in I.Regs(i);
        assert row.b.VReg? && row.b.n > 255 && (row.kind.Call? || row.kind.Binary?) ==> row.b.n in I.Regs(i);
      }
    }
  }

  method LowerConstant(w: BytecodeWriter, row: Row) returns (ok: bool)
    requires row.kind.Constant?
    modifies w
    ensures RowLowered(row, Writer(old(w.code), old(w.constants), []), Writer(w.code, w.constants, []), ok)
  {
    hide Encodable;
    EncodableRow(row);
    if !IsReg(row.dst) || !(row.a.ImmI64? || row.a.ImmBool?) { return false; }
    var index := w.AddConstant(if row.a.ImmI64? then Int(row.a.i) else Bool(row.a.b));
    w.EmitLoad(B.OP_LOAD_CONST, B.OP_LOAD_CONST_W, row.dst.n, index);
    ok := true;
  }

  method LowerLoadGlobal(w: BytecodeWriter, row: Row) returns (ok: bool)
    requires row.kind.LoadGlobal?
    modifies w
    ensures RowLowered(row, Writer(old(w.code), old(w.constants), []), Writer(w.code, w.constants, []), ok)
  {
    hide Encodable;
    EncodableRow(row);
    if !IsReg(row.dst) { return false; }
    var name: int;
    if row.a.SymbolId? { name := row.a.n; }
    else if row.a.ImmI64? { name := row.a.i; }
    else { return false; }
    if name < 0 || name > 0xFFFF_FFFF { return false; }
    var index := w.AddConstant(Int(name));
    w.EmitLoad(B.OP_GET_GLOBAL, B.OP_GET_GLOBAL_W, row.dst.n, index);
    ok := true;
  }

  method LowerBinary(w: BytecodeWriter, row: Row) returns (ok: bool)
    requires row.kind.Binary?
    modifies w
    ensures RowLowered(row, Writer(old(w.code), old(w.constants), []), Writer(w.code, w.constants, []), ok)
  {
    hide Encodable;
    EncodableRow(row);
    if !IsReg(row.dst) || !IsReg(row.a) || !IsReg(row.b) { return false; }
    w.WriteByte(OpcodeOf(row.kind.op));
    w.WriteByte(row.dst.n);
    w.WriteByte(row.a.n);
    w.WriteByte(row.b.n);
    ok := true;
  }

  method LowerUnary(w: BytecodeWriter, row: Row) returns (ok: bool)
    requires row.kind.Move? || row.kind.Neg? || row.kind.LogicNot?
    modifies w
    ensures RowLowered(row, Writer(old(w.code), old(w.constants), []), Writer(w.code, w.constants, []), ok)
  {
    hide Encodable;
    EncodableRow(row);
    if !IsReg(row.dst) || !IsReg(row.a) { return false; }
    w.Emit3(if row.kind.Move? then B.OP_MOVE else if row.kind.Neg? then B.OP_NEG else B.OP_NOT, row.dst.n, row.a.n);
    ok := true;
  }

  method LowerCall(w: BytecodeWriter, row: Row) returns (ok: bool)
    requires row.kind.Call?
    modifies w
    ensures RowLowered(row, Writer(old(w.code), old(w.constants), []), Writer(w.code, w.constants, []), ok)
  {
    hide Encodable;
    EncodableRow(row);
    if !IsReg(row.dst) || !IsReg(row.a) { return false; }
    var start: byte := 0;
    if !row.b.Invalid? {
      if !IsReg(row.b) { return false; }
      start := row.b.n;
    }
    w.Emit3(B.OP_CALL, row.dst.n, row.a.n);
    w.WriteByte(start);
    w.WriteByte(row.aux % 256);
    ok := true;
  }

  method LowerReturn(w: BytecodeWriter, row: Row) returns (ok: bool)
    requires row.kind.Return?
    modifies w
    ensures RowLowered(row, Writer(old(w.code), old(w.constants), []), Writer(w.code, w.constants, []), ok)
  {
    hide Encodable;
    EncodableRow(row);
    if row.a.VReg? && row.a.n != 0 {
      if !IsReg(row.a) { return false; }
      w.Emit3(B.OP_MOVE, 0, row.a.n);
    }
    w.WriteByte(B.OP_RETURN);
    ok := true;
  }

  /** Jumps are emitted with an empty offset and remembered. */
  method LowerJump(w: BytecodeWriter, row: Row, pending: seq<Patch>) returns (ok: bool, patches: seq<Patch>)
    requires row.kind.Jump?
    modifies w
    ensures RowLowered(row, Writer(old(w.code), old(w.constants), pending), Writer(w.code, w.constants, patches), ok)
  {
    hide RowLowered, U16;
    ghost var before := Writer(w.code, w.constants, pending);
    JumpRow(row, before);
    if !row.a.BlockRef? { return false, pending; }
    w.WriteByte(B.OP_JMP);
    var at := |w.code|;
    w.WriteU16(0);
    patches := pending + [Patch(at, row.a.n, |w.code|, B.OP_JMP, 1)];
    ok := true;
    EmptyOffset();
    assert w.code == old(w.code) + [B.OP_JMP, 0, 0];
  }

  lemma JumpRow(row: Row, w: Writer)
    requires row.kind.Jump?
    ensures var at := |w.code|;
            if row.a.BlockRef? then
              RowLowered(row, w, Writer(w.code + [B.OP_JMP, 0, 0], w.constants,
                                        w.patches + [Patch(at + 1, row.a.n, at + 3, B.OP_JMP, 1)]), true)
            else RowLowered(row, w, w, false)
  {
    hide Encodable;
    EncodableRow(row);
  }

  /** A conditional branch is a conditional jump followed by an unconditional one. */
  method LowerBranch(w: BytecodeWriter, row: Row, pending: seq<Patch>) returns (ok: bool, patches: seq<Patch>)
    requires row.kind.Branch?
    modifies w
    ensures RowLowered(row, Writer(old(w.code), old(w.constants), pending), Writer(w.code, w.constants, patches), ok)
  {
    hide RowLowered, U16;
    ghost var before := Writer(w.code, w.constants, pending);
    BranchRow(row, before);
    if !IsReg(row.a) || !row.b.BlockRef? || !row.c.BlockRef? { return false, pending; }
    w.WriteByte(B.OP_JNZ);
    w.WriteByte(row.a.n);
    var at := |w.code|;
    w.WriteU16(0);
    var first := Patch(at, row.b.n, |w.code|, B.OP_JNZ, 2);
    w.WriteByte(B.OP_JMP);
    at := |w.code|;
    w.WriteU16(0);
    patches := pending + [first, Patch(at, row.c.n, |w.code|, B.OP_JMP, 1)];
    ok := true;
    EmptyOffset();
    assert w.code == old(w.code) + [B.OP_JNZ, row.a.n, 0, 0, B.OP_JMP, 0, 0];
  }

  lemma BranchRow(row: Row, w: Writer)
    requires row.kind.Branch?
    ensures var at := |w.code|;
            if IsReg(row.a) && row.b.BlockRef? && row.c.BlockRef? then
              RowLowered(row, w,
                         Writer(w.code + [B.OP_JNZ, row.a.n, 0, 0, B.OP_JMP, 0, 0], w.constants,
                                w.patches + [Patch(at + 2, row.b.n, at + 4, B.OP_JNZ, 2),
                                             Patch(at + 5, row.c.n, at + 7, B.OP_JMP, 1)]), true)
            else RowLowered(row, w, w, false)
  {
    hide Encodable;
    EncodableRow(row);
  }

  lemma EmptyOffset()
    ensures U16(0) == [0, 0]
  {
  }

  lemma KeepPending(row: Row, w: Writer, w': Writer, ok: bool, pending: seq<Patch>)
    requires RowLowered(row, w, w', ok) && !row.kind.Jump? && !row.kind.Branch? && w.patches == w'.patches == []
    ensures RowLowered(row, w.(patches := pending), w'.(patches := pending), ok)
  {
  }

  method LowerRow(w: BytecodeWriter, row: Row, pending: seq<Patch>) returns (ok: bool, patches: seq<Patch>)
    modifies w
    ensures RowLowered(row, Writer(old(w.code), old(w.constants), pending), Writer(w.code, w.constants, patches), ok)
  {
    hide RowLowered;
    patches := pending;
    ghost var before := Writer(w.code, w.constants, []);
    match row.kind
    case Jump => ok, patches := LowerJump(w, row, pending);
    case Branch => ok, patches := LowerBranch(w, row, pending);
    case Constant => ok := LowerConstant(w, row); KeepPending(row, before, Writer(w.code, w.constants, []), ok, pending);
    case LoadGlobal => ok := LowerLoadGlobal(w, row); KeepPending(row, before, Writer(w.code, w.constants, []), ok, pending);
    case Binary(_) => ok := LowerBinary(w, row); KeepPending(row, before, Writer(w.code, w.constants, []), ok, pending);
    case Move => ok := LowerUnary(w, row); KeepPending(row, before, Writer(w.code, w.constants, []), ok, pending);
    case Neg => ok := LowerUnary(w, row); KeepPending(row, before, Writer(w.code, w.constants, []), ok, pending);
    case LogicNot => ok := LowerUnary(w, row); KeepPending(row, before, Writer(w.code, w.constants, []), ok, pending);
    case Call => ok := LowerCall(w, row); KeepPending(row, before, Writer(w.code, w.constants, []), ok, pending);
    case Return => ok := LowerReturn(w, row); KeepPending(row, before, Writer(w.code, w.constants, []), ok, pending);
    case Free => ok := false; NotLowered(row, before.(patches := pending));
    case Other => ok := false; NotLowered(row, before.(patches := pending));
  }

  lemma NotLowered(row: Row, w: Writer)
    requires row.kind.Free? || row.kind.Other?
    ensures RowLowered(row, w, w, false)
  {
  }

  // ----- whole functions -----

  /** Blocks carry their position as their id, and their spans lie in the table. */
  ghost predicate Numbered(ir: ModuleIr, f: FuncRecord) {
    && FuncIn(ir, f)
    && forall k | 0 <= k < f.blocks.count :: BlocksOf(ir, f)[k].blockId == k
  }

  /** The first pass has gone over the blocks `code` in full. */
  ghost predicate Passed(ir: ModuleIr, f: FuncRecord, n: nat, code: I.Code, entries: map<nat, nat>, w: Writer)
    requires FuncIn(ir, f) && n <= f.blocks.count
  {
    && CodeOf(ir, BlocksOf(ir, f)[..n]) == Some(code)
    && w == Emitted(Flat(code)) && (forall i <- Flat(code) :: Encodable(i))
    && (forall b :: b in entries <==> 0 <= b < n)
    && (forall b | 0 <= b < n :: entries[b] == Entries(code)[b])
  }

  lemma PassedNone(ir: ModuleIr, f: FuncRecord)
    requires FuncIn(ir, f)
    ensures Passed(ir, f, 0, [], map[], EMPTY)
  {
  }

  /** Where the `k`-th row of block `n` is no acceptable instruction, the function is rejected. */
  lemma RowRejects(ir: ModuleIr, f: FuncRecord, n: nat, k: nat)
    requires FuncIn(ir, f) && n < f.blocks.count && k < BlocksOf(ir, f)[n].count
    requires var row := RowsOf(ir, BlocksOf(ir, f)[n])[k];
             !(InstOf(row).Some? && Encodable(InstOf(row).value))
    ensures FuncOf(ir, f).None? || !Lowerable(FuncOf(ir, f).value)
  {
    hide Encodable, InstOf, Emitted, Entries, Flat;
    if FuncOf(ir, f).Some? {
      var g := FuncOf(ir, f).value;
      var b := BlocksOf(ir, f)[n];
      assert BlockInsts(ir, b) == Some(g.blocks[n]);
      InFlat(g, n, k);
    }
  }

  lemma InstsNext(rows: seq<Row>, k: nat)
    requires k < |rows| && Insts(rows[..k]).Some? && InstOf(rows[k]).Some?
    ensures Insts(rows[..k + 1]) == Some(Insts(rows[..k]).value + [InstOf(rows[k]).value])
  {
    hide InstOf;
    assert rows[..k + 1][..k] == rows[..k] && rows[..k + 1][k] == rows[k];
  }

  lemma EmittedNext(list: seq<I.Inst>, i: I.Inst)
    ensures Emitted(list + [i]) == EmitInst(Emitted(list), i)
  {
    hide EmitInst;
    assert (list + [i])[..|list|] == list;
  }

  /** The rows of one block, one after the other. */
  method LowerBlock(w: BytecodeWriter, rows: seq<Row>, pending: seq<Patch>, ghost before: seq<I.Inst>)
    returns (ok: bool, patches: seq<Patch>, ghost at: nat)
    requires Writer(w.code, w.constants, pending) == Emitted(before)
    modifies w
    ensures ok ==> Insts(rows).Some? && Writer(w.code, w.constants, patches) == Emitted(before + Insts(rows).value) &&
                   forall i <- Insts(rows).value :: Encodable(i)
    ensures !ok ==> at < |rows| && !(InstOf(rows[at]).Some? && Encodable(InstOf(rows[at]).value))
  {
    hide Encodable, InstOf, Emitted, EmitInst;
    patches := pending;
    var k := 0;
    ghost var done: seq<I.Inst> := [];
    assert rows[..0] == [] && before + done == before;
    while k < |rows|
      invariant k <= |rows| && Insts(rows[..k]) == Some(done)
      invariant Writer(w.code, w.constants, patches) == Emitted(before + done)
      invariant forall i <- done :: Encodable(i)
    {
      ok, patches := LowerRow(w, rows[k], patches);
      if !ok { return false, patches, k; }
      InstsNext(rows, k);
      ghost var i := InstOf(rows[k]).value;
      EmittedNext(before + done, i);
      assert before + done + [i] == before + (done + [i]);
      done := done + [i];
      k := k + 1;
    }
    assert rows[..k] == rows;
    ok, at := true, 0;
  }

  lemma PassedNext(ir: ModuleIr, f: FuncRecord, n: nat, code: I.Code, entries: map<nat, nat>, w: Writer, w': Writer)
    requires FuncIn(ir, f) && n < f.blocks.count && Passed(ir, f, n, code, entries, w)
    requires var b := BlockInsts(ir, BlocksOf(ir, f)[n]);
             b.Some? && w' == Emitted(Flat(code) + b.value) && forall i <- b.value :: Encodable(i)
    ensures var b := BlockInsts(ir, BlocksOf(ir, f)[n]).value;
            Passed(ir, f, n + 1, code + [b], entries[n := |w.code|], w')
  {
    hide Encodable, Emitted, BlockInsts, CodeOf, Flat, Entries;
    var b := BlockInsts(ir, BlocksOf(ir, f)[n]).value;
    CodeNext(ir, BlocksOf(ir, f), n);
    FlatNext(code, b);
  }

  lemma CodeNext(ir: ModuleIr, blocks: seq<BlockRecord>, n: nat)
    requires BlocksIn(ir, blocks) && n < |blocks|
    requires CodeOf(ir, blocks[..n]).Some? && BlockInsts(ir, blocks[n]).Some?
    ensures CodeOf(ir, blocks[..n + 1]) == Some(CodeOf(ir, blocks[..n]).value + [BlockInsts(ir, blocks[n]).value])
  {
    hide BlockInsts;
    var more := blocks[..n + 1];
    assert more[..n] == blocks[..n] && more[n] == blocks[n];
  }

  lemma FlatNext(code: I.Code, b: seq<I.Inst>)
    ensures Flat(code + [b]) == Flat(code) + b
    ensures Entries(code + [b]) == Entries(code) + [|Emitted(Flat(code)).code|]
  {
    hide Emitted;
    assert (code + [b])[..|code|] == code;
  }

  /** First pass: all blocks in order, each entry recorded under the block's id. */
  method EmitBlocks(ir: ModuleIr, f: FuncRecord, w: BytecodeWriter)
    returns (ok: bool, entries: map<nat, nat>, patches: seq<Patch>, ghost code: I.Code)
    requires Numbered(ir, f) && w.code == [] && w.constants == []
    modifies w
    ensures !ok ==> FuncOf(ir, f).None? || !Lowerable(FuncOf(ir, f).value)
    ensures ok ==> Passed(ir, f, f.blocks.count, code, entries, Writer(w.code, w.constants, patches))
  {
    hide Passed, Emitted, Encodable, InstOf, Lowerable, Flat;
    entries, patches, code := map[], [], [];
    PassedNone(ir, f);
    var n := 0;
    while n < f.blocks.count
      invariant n <= f.blocks.count && Passed(ir, f, n, code, entries, Writer(w.code, w.constants, patches))
    {
      var b := ir.blocks[f.blocks.begin + n];
      assert b == BlocksOf(ir, f)[n] && b in BlocksOf(ir, f);
      ghost var before := Writer(w.code, w.constants, patches);
      PassedWriter(ir, f, n, code, entries, before);
      ghost var old_entries := entries;
      entries := entries[b.blockId := |w.code|];
      var rows := RowsOf(ir, b);
      ghost var at: nat;
      ok, patches, at := LowerBlock(w, rows, patches, Flat(code));
      if !ok {
        RowRejects(ir, f, n, at);
        return;
      }
      PassedNext(ir, f, n, code, old_entries, before, Writer(w.code, w.constants, patches));
      code := code + [BlockInsts(ir, b).value];
      n := n + 1;
    }
    ok := true;
  }

  lemma PassedWriter(ir: ModuleIr, f: FuncRecord, n: nat, code: I.Code, entries: map<nat, nat>, w: Writer)
    requires FuncIn(ir, f) && n <= f.blocks.count && Passed(ir, f, n, code, entries, w)
    ensures w == Emitted(Flat(code))
  {
    hide Emitted, Encodable;
  }

  lemma PassedAll(ir: ModuleIr, f: FuncRecord, code: I.Code, entries: map<nat, nat>, w: Writer)
    requires FuncIn(ir, f) && Passed(ir, f, f.blocks.count, code, entries, w)
    ensures FuncOf(ir, f) == Some(I.Func(f.arity, f.nextVreg, code)) && |code| == f.blocks.count
    ensures w == Emitted(Flat(code)) && forall i <- Flat(code) :: Encodable(i)
    ensures forall b :: b in entries <==> 0 <= b < |code|
    ensures forall b | 0 <= b < |code| :: entries[b] == Entries(code)[b]
  {
    hide Emitted, Encodable, Entries, Flat;
    assert BlocksOf(ir, f)[..f.blocks.count] == BlocksOf(ir, f);
  }

  lemma {:induction false} ApplyNext(code: seq<byte>, ps: seq<Patch>, k: nat, es: seq<nat>)
    requires k < |ps| && forall p <- ps[..k + 1] :: PatchFits(p, |code|) && p.target < |es|
    ensures forall p <- ps[..k] :: PatchFits(p, |code|) && p.target < |es|
    ensures ApplyAll(code, ps[..k + 1], es) == ApplyPatch(ApplyAll(code, ps[..k], es), ps[k], es[ps[k].target])
  {
    hide ApplyPatch, PatchFits;
    assert ps[..k + 1][..k] == ps[..k] && ps[..k + 1][k] == ps[k];
    forall p <- ps[..k]
      ensures PatchFits(p, |code|) && p.target < |es|
    {
      assert p in ps[..k + 1];
    }
  }

  /** Second pass: each jump gets its distance, and a backward jump its loop opcode. */
  method ApplyPatches(w: BytecodeWriter, ps: seq<Patch>, entries: map<nat, nat>, ghost es: seq<nat>) returns (ok: bool)
    requires forall p <- ps :: PatchFits(p, |w.code|)
    requires forall b :: b in entries <==> 0 <= b < |es|
    requires forall b | 0 <= b < |es| :: entries[b] == es[b]
    modifies w`code
    ensures ok <==> forall p <- ps :: Reachable(p, es)
    ensures ok ==> w.code == ApplyAll(old(w.code), ps, es)
  {
    hide ApplyAll, ApplyPatch;
    ghost var raw := w.code;
    var k := 0;
    assert ps[..0] == [];
    ApplyNone(raw, es);
    while k < |ps|
      invariant k <= |ps| && |w.code| == |raw|
      invariant forall p <- ps[..k] :: PatchFits(p, |raw|) && Reachable(p, es)
      invariant w.code == ApplyAll(raw, ps[..k], es)
    {
      var p := ps[k];
      assert p in ps && ps[..k + 1] == ps[..k] + [p];
      if p.target !in entries { return false; }
      var target := entries[p.target];
      var offset, opcode := 0, p.opcode;
      if target < p.base {
        offset := p.base - target;
        if opcode == B.OP_JMP { opcode := B.OP_LOOP; }
      } else {
        offset := target - p.base;
      }
      if offset > B.U16_MAX { return false; }
      ApplyNext(raw, ps, k, es);
      PatchInPlace(w.code, p, target);
      w.code := w.code[p.at - p.back := opcode];
      w.PatchU16(p.at, offset);
      k := k + 1;
    }
    assert ps[..k] == ps;
    ok := true;
  }

  lemma PatchInPlace(code: seq<byte>, p: Patch, target: nat)
    requires PatchFits(p, |code|)
    ensures var offset := Distance(target, p.base);
            ApplyPatch(code, p, target) ==
            code[p.at - p.back := PatchedOpcode(p.opcode, target, p.base)][p.at := U16(offset)[0]][p.at + 1 := U16(offset)[1]]
  {
  }

  /** Lowers the function of record `f`: the same object, or an error in the same cases, as
      lowering the control-flow graph that the record cuts out of the tables. */
  method LowerOneFunction(ir: ModuleIr, f: FuncRecord) returns (r: Option<B.FuncObject>)
    requires Numbered(ir, f)
    ensures r == match FuncOf(ir, f)
                 case None => None
                 case Some(g) => LowerFunc(f.name, g)
  {
    hide Passed, Emitted, Encodable, Flat, Entries, ApplyAll, Reachable, FuncOf;
    if f.arity > 255 {
      ArityRejects(ir, f);
      return None;
    }
    var w := new BytecodeWriter();
    var ok, entries, patches;
    ghost var code;
    ok, entries, patches, code := EmitBlocks(ir, f, w);
    if !ok { return None; }
    PassedAll(ir, f, code, entries, Writer(w.code, w.constants, patches));
    PatchesFit(Flat(code));
    ok := ApplyPatches(w, patches, entries, Entries(code));
    if !ok { return None; }
    r := Some(B.FuncObject(f.name, f.arity, f.nextVreg % 0x1_0000, w.code, w.constants));
  }

  lemma ArityRejects(ir: ModuleIr, f: FuncRecord)
    requires FuncIn(ir, f) && f.arity > 255
    ensures FuncOf(ir, f).None? || LowerFunc(f.name, FuncOf(ir, f).value).None?
  {
    hide Emitted, Encodable, Flat, Entries, ApplyAll, Reachable, CodeOf;
  }
}
