/**
 The structural verifier that runs between building and lowering.  It walks functions,
 blocks and rows and collects issues; it finds none exactly in well-formed tables, and
 everything the builder produces is well formed.
 */
module Verify {
  import opened Values
  import opened Tables
  import opened Source
  import opened Build
  import opened BuildShape
  import opened BuilderRep
  import opened IrBuilder
  import I = Ir

  datatype IssueCode =
    | FunctionIdMismatch | FunctionBlockSpanOutOfRange | EntryBlockOutOfRange
    | BlockInstSpanOutOfRange | BlockEmpty | TerminatorNotLast | MissingTerminator
    | VRegOutOfRange | FuncRefOutOfRange | BlockRefOutOfRange | SymbolRefOutOfRange | StringRefOutOfRange

  datatype Issue = Issue(code: IssueCode, func: nat, block: nat, row: nat)

  /** Sizes of the tables an operand may refer to. */
  datatype Sizes = Sizes(funcs: nat, symbols: nat, strings: nat)

  predicate OperandOk(o: Operand, f: FuncRecord, z: Sizes) {
    match o
    case VReg(n) => n < f.nextVreg
    case FuncRef(n) => n < z.funcs
    case BlockRef(n) => n < f.blocks.count
    case SymbolId(n) => n < z.symbols
    case StringId(n) => n < z.strings
    case _ => true
  }

  predicate RowOk(r: Row, last: bool, f: FuncRecord, z: Sizes) {
    && (r.kind.Free? ==> r.dst.VReg?)
    && (IsTerminator(r.kind) ==> last)
    && OperandOk(r.dst, f, z) && OperandOk(r.a, f, z) && OperandOk(r.b, f, z) && OperandOk(r.c, f, z)
  }

  predicate BlockWellFormed(ir: ModuleIr, f: FuncRecord, b: BlockRecord, z: Sizes) {
    && BlockIn(b, |ir.insts|) && b.count > 0
    && (forall k | 0 <= k < b.count :: RowOk(RowsOf(ir, b)[k], k == b.count - 1, f, z))
    && IsTerminator(RowsOf(ir, b)[b.count - 1].kind)
  }

  predicate FuncWellFormed(ir: ModuleIr, id: nat, f: FuncRecord, z: Sizes) {
    && f.funcId == id && SpanIn(f.blocks, |ir.blocks|) && f.entryBlock < f.blocks.count
    && forall k | 0 <= k < f.blocks.count :: BlockWellFormed(ir, f, BlocksOf(ir, f)[k], z)
  }

  predicate WellFormed(ir: ModuleIr, z: Sizes) {
    forall id | 0 <= id < |ir.funcs| :: FuncWellFormed(ir, id, ir.funcs[id], z)
  }

  function OperandIssue(o: Operand): IssueCode {
    match o
    case FuncRef(_) => FuncRefOutOfRange
    case BlockRef(_) => BlockRefOutOfRange
    case SymbolId(_) => SymbolRefOutOfRange
    case StringId(_) => StringRefOutOfRange
    case _ => VRegOutOfRange
  }

  class Report {
    var issues: seq<Issue>

    constructor ()
      ensures issues == []
    {
      issues := [];
    }

    method Add(code: IssueCode, func: nat, block: nat, row: nat)
      modifies this
      ensures issues == old(issues) + [Issue(code, func, block, row)]
    {
      issues := issues + [Issue(code, func, block, row)];
    }

    /** The four operand slots of a row, one rule for all. */
    method CheckOperands(r: Row, f: FuncRecord, z: Sizes, func: nat, block: nat, row: nat)
      modifies this
      ensures old(issues) <= issues
      ensures issues == old(issues) <==>
              OperandOk(r.dst, f, z) && OperandOk(r.a, f, z) && OperandOk(r.b, f, z) && OperandOk(r.c, f, z)
    {
      var slots := [r.dst, r.a, r.b, r.c];
      var s := 0;
      while s < 4
        invariant s <= 4 && old(issues) <= issues
        invariant issues == old(issues) <==> forall j | 0 <= j < s :: OperandOk(slots[j], f, z)
      {
        if !OperandOk(slots[s], f, z) { Add(OperandIssue(slots[s]), func, block, row); }
        s := s + 1;
      }
      assert slots[0] == r.dst && slots[1] == r.a && slots[2] == r.b && slots[3] == r.c;
    }

    method CheckRow(r: Row, last: bool, f: FuncRecord, z: Sizes, func: nat, block: nat, row: nat)
      modifies this
      ensures old(issues) <= issues
      ensures issues == old(issues) <==> RowOk(r, last, f, z)
    {
      hide OperandOk;
      if r.kind.Free? && !r.dst.VReg? { Add(VRegOutOfRange, func, block, row); }
      if IsTerminator(r.kind) && !last { Add(TerminatorNotLast, func, block, row); }
      CheckOperands(r, f, z, func, block, row);
    }

    method CheckBlock(ir: ModuleIr, f: FuncRecord, b: BlockRecord, z: Sizes, func: nat, block: nat)
      modifies this
      ensures old(issues) <= issues
      ensures issues == old(issues) <==> BlockWellFormed(ir, f, b, z)
    {
      hide RowOk;
      if !BlockIn(b, |ir.insts|) {
        Add(BlockInstSpanOutOfRange, func, block, 0);
        return;
      }
      if b.count == 0 {
        Add(BlockEmpty, func, block, 0);
        return;
      }
      var k := 0;
      while k < b.count
        invariant k <= b.count && old(issues) <= issues
        invariant issues == old(issues) <==>
                  forall j | 0 <= j < k :: RowOk(RowsOf(ir, b)[j], j == b.count - 1, f, z)
      {
        CheckRow(ir.insts[b.begin.value + k], k + 1 == b.count, f, z, func, block, k);
        assert RowsOf(ir, b)[k] == ir.insts[b.begin.value + k];
        k := k + 1;
      }
      if !IsTerminator(ir.insts[b.begin.value + b.count - 1].kind) { Add(MissingTerminator, func, block, b.count - 1); }
    }

    method CheckFunc(ir: ModuleIr, id: nat, f: FuncRecord, z: Sizes)
      modifies this
      ensures old(issues) <= issues
      ensures issues == old(issues) <==> FuncWellFormed(ir, id, f, z)
    {
      hide BlockWellFormed;
      if f.funcId != id { Add(FunctionIdMismatch, id, 0, 0); }
      if !SpanIn(f.blocks, |ir.blocks|) {
        Add(FunctionBlockSpanOutOfRange, id, 0, 0);
        return;
      }
      if f.entryBlock >= f.blocks.count { Add(EntryBlockOutOfRange, id, 0, 0); }
      ghost var before := issues;
      var k := 0;
      while k < f.blocks.count
        invariant k <= f.blocks.count && before <= issues
        invariant issues == before <==> forall j | 0 <= j < k :: BlockWellFormed(ir, f, BlocksOf(ir, f)[j], z)
      {
        CheckBlock(ir, f, ir.blocks[f.blocks.begin + k], z, id, k);
        assert BlocksOf(ir, f)[k] == ir.blocks[f.blocks.begin + k];
        k := k + 1;
      }
    }
  }

  /** Collects every structural issue; the report is empty exactly for well-formed tables. */
  method VerifyModule(ir: ModuleIr, symbols: nat, strings: nat) returns (issues: seq<Issue>)
    ensures issues == [] <==> WellFormed(ir, Sizes(|ir.funcs|, symbols, strings))
  {
    hide FuncWellFormed;
    var z := Sizes(|ir.funcs|, symbols, strings);
    var report := new Report();
    var id := 0;
    while id < |ir.funcs|
      invariant id <= |ir.funcs| && fresh(report)
      invariant report.issues == [] <==> forall j | 0 <= j < id :: FuncWellFormed(ir, j, ir.funcs[j], z)
    {
      report.CheckFunc(ir, id, ir.funcs[id], z);
      id := id + 1;
    }
    issues := report.issues;
  }

  // ----- what well-formed tables and built functions have in common -----

  lemma RowOfOk(i: I.Inst, b: I.BlockId, f: FuncRecord, z: Sizes, last: bool)
    requires InstOk(i, b, f.blocks.count, f.nextVreg) && (I.IsTerminator(i) ==> last)
    requires i.Constant? ==> i.v.Int? || i.v.Bool?
    ensures RowOk(RowOf(i), last, f, z)
  {
    assert (i.Jump? ==> i.target in I.Targets(i)) && (i.Branch? ==> i.cond in I.Regs(i));
    assert i.Branch? ==> i.onTrue in I.Targets(i) && i.onFalse in I.Targets(i);
    assert i.Constant? || i.Move? || i.Bin? || i.Neg? || i.LogicNot? || i.LoadGlobal? || i.Call? ==> i.dst in I.Regs(i);
    assert i.Move? || i.Neg? || i.LogicNot? ==> i.src in I.Regs(i);
    assert i.Bin? ==> i.left in I.Regs(i) && i.right in I.Regs(i);
    assert i.Call? ==> i.callee in I.Regs(i) && (i.argStart.Some? ==> i.argStart.value in I.Regs(i));
    assert i.Return? && i.value.Some? ==> i.value.value in I.Regs(i);
  }

  lemma BlockVerifies(ir: ModuleIr, f: FuncRecord, b: BlockRecord, id: I.BlockId, block: seq<I.Inst>, z: Sizes)
    requires BlockIn(b, |ir.insts|) && SpellsBlock(RowsOf(ir, b), block)
    requires BlockOk(block, id, f.blocks.count, f.nextVreg) && EndsInTerminator(block)
    ensures BlockWellFormed(ir, f, b, z)
  {
    hide RowOk, InstOk, RowOf;
    forall k | 0 <= k < b.count
      ensures RowOk(RowsOf(ir, b)[k], k == b.count - 1, f, z)
    {
      LiteralsOk(block[k], id, f.blocks.count, f.nextVreg);
      RowOfOk(block[k], id, f, z, k == b.count - 1);
    }
    TerminatorRow(block[b.count - 1]);
  }

  lemma LiteralsOk(i: I.Inst, b: I.BlockId, nb: nat, nv: nat)
    requires InstOk(i, b, nb, nv)
    ensures i.Constant? ==> i.v.Int? || i.v.Bool?
  {
  }

  lemma TerminatorRow(i: I.Inst)
    ensures IsTerminator(RowOf(i).kind) <==> I.IsTerminator(i)
  {
  }

  lemma FuncVerifies(ir: ModuleIr, visible: set<Name>, d: FuncDecl, id: nat, f: FuncRecord, z: Sizes)
    requires Finished(ir, visible, d, f) && f.funcId == id
    ensures FuncWellFormed(ir, id, f, z)
  {
    hide BuildFunc, CodeOf, BlockWellFormed, EndsInTerminator, BlockOk, SpellsBlock, Constants;
    FuncShape(visible, d);
    var g := BuildFunc(visible, d).value;
    forall k | 0 <= k < f.blocks.count
      ensures BlockWellFormed(ir, f, BlocksOf(ir, f)[k], z)
    {
      assert BlocksOf(ir, f)[k] in BlocksOf(ir, f);
      BlockVerifies(ir, f, BlocksOf(ir, f)[k], k, g.blocks[k], z);
    }
  }

  /** The verifier has no complaint about anything the builder completes. */
  lemma BuiltVerifies(ir: ModuleIr, visible: set<Name>, ds: seq<FuncDecl>, z: Sizes)
    requires |ir.funcs| == |ds|
    requires forall i | 0 <= i < |ds| :: ir.funcs[i].funcId == i && Finished(ir, visible, ds[i], ir.funcs[i])
    ensures WellFormed(ir, z)
  {
    hide Finished, FuncWellFormed;
    forall i | 0 <= i < |ds|
      ensures FuncWellFormed(ir, i, ir.funcs[i], z)
    {
      FuncVerifies(ir, visible, ds[i], i, ir.funcs[i], z);
    }
  }
}
