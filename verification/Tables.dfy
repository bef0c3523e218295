/**
 The IR as the program stores it: one table of functions, one of blocks and one of
 instruction rows, with spans that cut out each function's blocks and each block's rows.
 A row has a kind, four operands that carry their own kind, and an auxiliary number.
 */
module Tables {
  import opened Values
  import I = Ir

  /** The value "not set" of every 32-bit id. */
  const UNSET: nat := 0xFFFF_FFFF

  datatype Operand =
    | Invalid
    | VReg(n: nat)
    | ImmI64(i: int)
    | ImmBool(b: bool)
    | StringId(n: nat)
    | SymbolId(n: nat)
    | BlockRef(n: nat)
    | FuncRef(n: nat)

  /** `Other` stands for the kinds of heap objects, globals and floats. */
  datatype Kind =
    Constant | Move | Binary(op: BinOp) | Neg | LogicNot | LoadGlobal | Call | Return | Jump | Branch | Free | Other

  datatype Row = Row(kind: Kind, dst: Operand, a: Operand, b: Operand, c: Operand, aux: nat)

  datatype Span = Span(begin: nat, count: nat)

  /** A block's rows; `begin` is None until the first row is emitted (the program uses the
      largest 32-bit number for that). */
  datatype BlockRecord = BlockRecord(blockId: nat, begin: Option<nat>, count: nat)

  datatype FuncRecord =
    FuncRecord(funcId: nat, name: NameId, entryBlock: nat, nextVreg: nat, arity: nat, blocks: Span)

  datatype ModuleIr = ModuleIr(funcs: seq<FuncRecord>, blocks: seq<BlockRecord>, insts: seq<Row>)

  predicate IsTerminator(k: Kind) {
    k.Jump? || k.Branch? || k.Return?
  }

  // ----- rows and instructions -----

  function RowOf(i: I.Inst): Row {
    match i
    case Constant(d, v) => Row(Constant, VReg(d), if v.Bool? then ImmBool(v.b) else if v.Int? then ImmI64(v.i) else Invalid, Invalid, Invalid, 0)
    case Move(d, s) => Row(Move, VReg(d), VReg(s), Invalid, Invalid, 0)
    case Bin(op, d, l, r) => Row(Binary(op), VReg(d), VReg(l), VReg(r), Invalid, 0)
    case Neg(d, s) => Row(Neg, VReg(d), VReg(s), Invalid, Invalid, 0)
    case LogicNot(d, s) => Row(LogicNot, VReg(d), VReg(s), Invalid, Invalid, 0)
    case LoadGlobal(d, x) => Row(LoadGlobal, VReg(d), ImmI64(x), Invalid, Invalid, 0)
    case Call(d, c, a, n) => Row(Call, VReg(d), VReg(c), if a.Some? then VReg(a.value) else Invalid, Invalid, n)
    case Return(v) => Row(Return, Invalid, if v.Some? then VReg(v.value) else Invalid, Invalid, Invalid, 0)
    case Jump(t) => Row(Jump, Invalid, BlockRef(t), Invalid, Invalid, 0)
    case Branch(c, t, f) => Row(Branch, Invalid, VReg(c), BlockRef(t), BlockRef(f), 0)
  }

  /** The instruction a row spells out, where its operand kinds are the ones lowering accepts. */
  function InstOf(r: Row): Option<I.Inst> {
    match r.kind
    case Constant =>
      if !r.dst.VReg? then None
      else if r.a.ImmI64? then Some(I.Constant(r.dst.n, Int(r.a.i)))
      else if r.a.ImmBool? then Some(I.Constant(r.dst.n, Bool(r.a.b)))
      else None
    case Move => if r.dst.VReg? && r.a.VReg? then Some(I.Move(r.dst.n, r.a.n)) else None
    case Binary(op) =>
      if r.dst.VReg? && r.a.VReg? && r.b.VReg? then Some(I.Bin(op, r.dst.n, r.a.n, r.b.n)) else None
    case Neg => if r.dst.VReg? && r.a.VReg? then Some(I.Neg(r.dst.n, r.a.n)) else None
    case LogicNot => if r.dst.VReg? && r.a.VReg? then Some(I.LogicNot(r.dst.n, r.a.n)) else None
    case LoadGlobal =>
      if !r.dst.VReg? then None
      else if r.a.SymbolId? && r.a.n < 0x1_0000_0000 then Some(I.LoadGlobal(r.dst.n, r.a.n))
      else if r.a.ImmI64? && 0 <= r.a.i < 0x1_0000_0000 then Some(I.LoadGlobal(r.dst.n, r.a.i))
      else None
    case Call =>
      if !r.dst.VReg? || !r.a.VReg? || !(r.b.VReg? || r.b.Invalid?) then None
      else Some(I.Call(r.dst.n, r.a.n, if r.b.VReg? then Some(r.b.n) else None, r.aux))
    case Return => Some(I.Return(if r.a.VReg? then Some(r.a.n) else None))
    case Jump => if r.a.BlockRef? then Some(I.Jump(r.a.n)) else None
    case Branch => if r.a.VReg? && r.b.BlockRef? && r.c.BlockRef? then Some(I.Branch(r.a.n, r.b.n, r.c.n)) else None
    case Free => None
    case Other => None
  }

  /** Rows lose nothing of an instruction, as long as constants are numbers or truth values. */
  lemma RowRoundTrip(i: I.Inst)
    ensures InstOf(RowOf(i)) == (if i.Constant? && !i.v.Int? && !i.v.Bool? then None else Some(i))
  {
  }

  // ----- cutting out functions -----

  predicate SpanIn(s: Span, size: nat) {
    s.begin + s.count <= size
  }

  function Insts(rows: seq<Row>): (r: Option<seq<I.Inst>>)
    ensures r.Some? ==> |r.value| == |rows| && forall k | 0 <= k < |rows| :: InstOf(rows[k]) == Some(r.value[k])
    ensures r.None? ==> exists row <- rows :: InstOf(row).None?
  {
    if rows == [] then Some([])
    else
      var n := |rows| - 1;
      assert rows == rows[..n] + [rows[n]];
      var before := Insts(rows[..n]);
      if before.None? || InstOf(rows[n]).None? then None else Some(before.value + [InstOf(rows[n]).value])
  }

  predicate BlockIn(b: BlockRecord, size: nat) {
    b.begin.Some? && b.begin.value + b.count <= size
  }

  predicate BlocksIn(ir: ModuleIr, blocks: seq<BlockRecord>) {
    forall b <- blocks :: BlockIn(b, |ir.insts|)
  }

  function RowsOf(ir: ModuleIr, b: BlockRecord): seq<Row>
    requires BlockIn(b, |ir.insts|)
  {
    ir.insts[b.begin.value..b.begin.value + b.count]
  }

  function BlockInsts(ir: ModuleIr, b: BlockRecord): Option<seq<I.Inst>>
    requires BlockIn(b, |ir.insts|)
  {
    Insts(RowsOf(ir, b))
  }

  function CodeOf(ir: ModuleIr, blocks: seq<BlockRecord>): (r: Option<I.Code>)
    requires BlocksIn(ir, blocks)
    ensures r.Some? ==> |r.value| == |blocks|
    ensures r.Some? ==> forall k | 0 <= k < |blocks| :: BlockInsts(ir, blocks[k]) == Some(r.value[k])
    ensures r.None? ==> exists b <- blocks :: BlockInsts(ir, b).None?
  {
    if blocks == [] then Some([])
    else
      var n := |blocks| - 1;
      assert blocks == blocks[..n] + [blocks[n]];
      var before := CodeOf(ir, blocks[..n]);
      var last := BlockInsts(ir, blocks[n]);
      if before.None? || last.None? then None else Some(before.value + [last.value])
  }

  predicate FuncIn(ir: ModuleIr, f: FuncRecord) {
    SpanIn(f.blocks, |ir.blocks|) && BlocksIn(ir, BlocksOf(ir, f))
  }

  function BlocksOf(ir: ModuleIr, f: FuncRecord): seq<BlockRecord>
    requires SpanIn(f.blocks, |ir.blocks|)
  {
    ir.blocks[f.blocks.begin..f.blocks.begin + f.blocks.count]
  }

  /** The function a record stands for. */
  function FuncOf(ir: ModuleIr, f: FuncRecord): Option<I.Func>
    requires FuncIn(ir, f)
  {
    match CodeOf(ir, BlocksOf(ir, f))
    case None => None
    case Some(code) => Some(I.Func(f.arity, f.nextVreg, code))
  }

  /** The rows of the blocks are the rows of `code`, slot by slot. */
  ghost predicate Spells(ir: ModuleIr, blocks: seq<BlockRecord>, code: I.Code) {
    && |blocks| == |code| && BlocksIn(ir, blocks)
    && forall k | 0 <= k < |blocks| :: SpellsBlock(RowsOf(ir, blocks[k]), code[k])
  }

  ghost predicate SpellsBlock(rows: seq<Row>, list: seq<I.Inst>) {
    |rows| == |list| && forall j | 0 <= j < |rows| :: rows[j] == RowOf(list[j])
  }

  lemma {:induction false} InstsAre(rows: seq<Row>, list: seq<I.Inst>)
    requires |rows| == |list| && forall k | 0 <= k < |rows| :: InstOf(rows[k]) == Some(list[k])
    ensures Insts(rows) == Some(list)
    decreases |rows|
  {
    hide InstOf;
    if rows != [] {
      var n := |rows| - 1;
      InstsAre(rows[..n], list[..n]);
      assert list == list[..n] + [list[n]];
    }
  }

  lemma {:induction false} CodeIs(ir: ModuleIr, blocks: seq<BlockRecord>, code: I.Code)
    requires |blocks| == |code| && BlocksIn(ir, blocks)
    requires forall k | 0 <= k < |blocks| :: BlockInsts(ir, blocks[k]) == Some(code[k])
    ensures CodeOf(ir, blocks) == Some(code)
    decreases |blocks|
  {
    hide BlockInsts;
    if blocks != [] {
      var n := |blocks| - 1;
      CodeIs(ir, blocks[..n], code[..n]);
      assert code == code[..n] + [code[n]];
    }
  }

  /** Growing tables do not change the functions already in them. */
  lemma FuncExtends(ir: ModuleIr, more: ModuleIr, f: FuncRecord)
    requires FuncIn(ir, f) && ir.blocks <= more.blocks && ir.insts <= more.insts
    ensures FuncIn(more, f) && BlocksOf(more, f) == BlocksOf(ir, f) && FuncOf(more, f) == FuncOf(ir, f)
    ensures forall b <- BlocksOf(ir, f) :: BlockIn(b, |more.insts|) && RowsOf(more, b) == RowsOf(ir, b)
  {
    hide CodeOf;
    assert BlocksOf(more, f) == BlocksOf(ir, f);
    CodeExtends(ir, more, BlocksOf(ir, f));
    forall b <- BlocksOf(ir, f)
      ensures BlockIn(b, |more.insts|) && RowsOf(more, b) == RowsOf(ir, b)
    {
      assert RowsOf(more, b) == RowsOf(ir, b);
    }
  }

  lemma {:induction false} CodeExtends(ir: ModuleIr, more: ModuleIr, blocks: seq<BlockRecord>)
    requires BlocksIn(ir, blocks) && ir.insts <= more.insts
    ensures BlocksIn(more, blocks) && CodeOf(more, blocks) == CodeOf(ir, blocks)
    decreases |blocks|
  {
    hide Insts;
    if blocks != [] {
      var b := blocks[|blocks| - 1];
      assert b in blocks && BlockIn(b, |more.insts|);
      assert RowsOf(more, b) == RowsOf(ir, b);
      CodeExtends(ir, more, blocks[..|blocks| - 1]);
    }
  }
}
