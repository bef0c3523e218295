/**
 Lowering one IR function to byte code in two passes.  The first pass emits every
 instruction, jumps with an empty offset and a note of where it has to be filled in; the
 second pass fills in the distances once all block entries are known.  `Layout` says
 directly which bytes must come out, and `Backpatched` proves that the two passes
 produce them.
 */
module Lower {
  import opened Values
  import opened Ir
  import B = Bytecode

  type byte = B.byte

  /** A jump offset to fill in: the offset's position, the block it leads to, the position
      it counts from, the opcode as emitted and how far before the offset that opcode is. */
  datatype Patch = Patch(at: nat, target: BlockId, base: nat, opcode: byte, back: nat)

  /** The state of the first pass. */
  datatype Writer = Writer(code: seq<byte>, constants: seq<Value>, patches: seq<Patch>)

  const EMPTY := Writer([], [], [])

  function OpcodeOf(op: BinOp): byte {
    match op
    case Add => B.OP_IADD
    case Sub => B.OP_ISUB
    case Mul => B.OP_IMUL
    case Div => B.OP_IDIV
    case Mod => B.OP_IMOD
    case Eq => B.OP_IEQ
    case Ne => B.OP_INE
    case Lt => B.OP_ILT
    case Le => B.OP_ILE
    case Gt => B.OP_IGT
    case Ge => B.OP_IGE
    case And => B.OP_AND
    case Or => B.OP_OR
  }

  /** The VM reads back the operation that was meant. */
  lemma OpcodeDecodes(op: BinOp)
    ensures B.BinOfOpcode(OpcodeOf(op)) == Some(op)
  {
  }

  // ----- encoding one instruction -----

  function Byte(n: nat): byte {
    n % 256
  }

  function U16(n: nat): (bs: seq<byte>)
    ensures |bs| == 2
    ensures n <= B.U16_MAX ==> B.Short(bs[0], bs[1]) == n
  {
    [n / 256 % 256, n % 256]
  }

  /** An instruction operand that selects a constant: one byte if it fits, else two. */
  function WithConstant(narrow: byte, wide: byte, dst: Reg, k: nat): seq<byte> {
    var index := k % 0x1_0000;
    if index <= 255 then [narrow, Byte(dst), index] else [wide, Byte(dst)] + U16(index)
  }

  /** What an instruction adds to the constant pool. */
  function ConstantsOf(i: Inst): (cs: seq<Value>)
    ensures |cs| <= 1
  {
    match i
    case Constant(_, v) => [v]
    case LoadGlobal(_, x) => [Int(x)]
    case _ => []
  }

  /** The bytes of a non-jump, when the pool holds `k` constants before it. */
  function Plain(i: Inst, k: nat): seq<byte>
    requires !i.Jump? && !i.Branch?
  {
    match i
    case Constant(d, _) => WithConstant(B.OP_LOAD_CONST, B.OP_LOAD_CONST_W, d, k)
    case Move(d, s) => [B.OP_MOVE, Byte(d), Byte(s)]
    case Bin(op, d, l, r) => [OpcodeOf(op), Byte(d), Byte(l), Byte(r)]
    case Neg(d, s) => [B.OP_NEG, Byte(d), Byte(s)]
    case LogicNot(d, s) => [B.OP_NOT, Byte(d), Byte(s)]
    case LoadGlobal(d, _) => WithConstant(B.OP_GET_GLOBAL, B.OP_GET_GLOBAL_W, d, k)
    case Call(d, c, a, n) => [B.OP_CALL, Byte(d), Byte(c), if a.Some? then Byte(a.value) else 0, Byte(n)]
    case Return(v) =>
      if v.Some? && v.value != 0 then [B.OP_MOVE, 0, Byte(v.value), B.OP_RETURN] else [B.OP_RETURN]
  }

  /** First pass: offsets are still 0. */
  function Raw(i: Inst, k: nat): seq<byte> {
    match i
    case Jump(_) => [B.OP_JMP, 0, 0]
    case Branch(c, _, _) => [B.OP_JNZ, Byte(c), 0, 0, B.OP_JMP, 0, 0]
    case _ => Plain(i, k)
  }

  function PatchesOf(i: Inst, at: nat): seq<Patch> {
    match i
    case Jump(t) => [Patch(at + 1, t, at + 3, B.OP_JMP, 1)]
    case Branch(_, t, f) => [Patch(at + 2, t, at + 4, B.OP_JNZ, 2), Patch(at + 5, f, at + 7, B.OP_JMP, 1)]
    case _ => []
  }

  function EmitInst(w: Writer, i: Inst): Writer {
    Writer(w.code + Raw(i, |w.constants|), w.constants + ConstantsOf(i), w.patches + PatchesOf(i, |w.code|))
  }

  /** The first pass over a list of instructions. */
  function Emitted(list: seq<Inst>): Writer {
    if list == [] then EMPTY else EmitInst(Emitted(list[..|list| - 1]), list[|list| - 1])
  }

  function Flat(blocks: Code): seq<Inst> {
    if blocks == [] then [] else Flat(blocks[..|blocks| - 1]) + blocks[|blocks| - 1]
  }

  /** The code position at which each block starts. */
  function Entries(blocks: Code): (es: seq<nat>)
    ensures |es| == |blocks|
  {
    if blocks == [] then []
    else
      var before := blocks[..|blocks| - 1];
      Entries(before) + [|Emitted(Flat(before)).code|]
  }

  // ----- second pass -----

  function Distance(target: nat, base: nat): nat {
    if target < base then base - target else target - base
  }

  /** A backward jump becomes a loop jump; a conditional jump has no backward form. */
  function PatchedOpcode(opcode: byte, target: nat, base: nat): byte {
    if target < base && opcode == B.OP_JMP then B.OP_LOOP else opcode
  }

  predicate PatchFits(p: Patch, size: nat) {
    1 <= p.back <= p.at && p.at + 2 <= size && p.base == p.at + 2
  }

  function ApplyPatch(code: seq<byte>, p: Patch, target: nat): (r: seq<byte>)
    requires PatchFits(p, |code|)
    ensures |r| == |code|
  {
    var bs := U16(Distance(target, p.base));
    code[p.at - p.back := PatchedOpcode(p.opcode, target, p.base)][p.at := bs[0]][p.at + 1 := bs[1]]
  }

  function ApplyAll(code: seq<byte>, ps: seq<Patch>, entries: seq<nat>): (r: seq<byte>)
    requires forall p <- ps :: PatchFits(p, |code|) && p.target < |entries|
    ensures |r| == |code|
  {
    if ps == [] then code
    else
      var p := ps[|ps| - 1];
      ApplyPatch(ApplyAll(code, ps[..|ps| - 1], entries), p, entries[p.target])
  }

  // ----- whole functions -----

  /** Registers are one byte wide; only integer and boolean constants have a VM value here. */
  predicate Encodable(i: Inst) {
    && (forall r <- Regs(i) :: r <= 255)
    && (i.Constant? ==> i.v.Int? || i.v.Bool?)
  }

  predicate Reachable(p: Patch, entries: seq<nat>) {
    p.target < |entries| && Distance(entries[p.target], p.base) <= B.U16_MAX
  }

  predicate Lowerable(f: Func) {
    && f.arity <= 255
    && (forall i <- Flat(f.blocks) :: Encodable(i))
    && (forall p <- Emitted(Flat(f.blocks)).patches :: Reachable(p, Entries(f.blocks)))
  }

  /** The function object, or None where lowering reports an error. */
  function LowerFunc(name: NameId, f: Func): (r: Option<B.FuncObject>)
    ensures r.Some? <==> Lowerable(f)
  {
    if !Lowerable(f) then None
    else
      var w := Emitted(Flat(f.blocks));
      PatchesFit(Flat(f.blocks));
      Some(B.FuncObject(name, f.arity, f.nregs % 0x1_0000, ApplyAll(w.code, w.patches, Entries(f.blocks)), w.constants))
  }

  lemma {:induction false} PatchesFit(list: seq<Inst>)
    ensures forall p <- Emitted(list).patches :: PatchFits(p, |Emitted(list).code|)
  {
    if list != [] { PatchesFit(list[..|list| - 1]); }
  }

  // ----- the bytes that must come out -----

  /** A jump at `at` to `target`: backward jumps are loop jumps. */
  function JumpBytes(at: nat, target: nat): seq<byte> {
    [if target < at + 3 then B.OP_LOOP else B.OP_JMP] + U16(Distance(target, at + 3))
  }

  function Encoded(i: Inst, at: nat, k: nat, entries: seq<nat>): seq<byte>
    requires forall t <- Targets(i) :: t < |entries|
  {
    match i
    case Jump(t) =>
      assert t in Targets(i);
      JumpBytes(at, entries[t])
    case Branch(c, t, f) =>
      assert t in Targets(i) && f in Targets(i);
      [B.OP_JNZ, Byte(c)] + U16(Distance(entries[t], at + 4)) + JumpBytes(at + 4, entries[f])
    case _ => Plain(i, k)
  }

  predicate TargetsIn(list: seq<Inst>, n: nat) {
    forall i <- list :: forall t <- Targets(i) :: t < n
  }

  function Layout(list: seq<Inst>, entries: seq<nat>): seq<byte>
    requires TargetsIn(list, |entries|)
  {
    if list == [] then []
    else
      var before := list[..|list| - 1];
      Layout(before, entries) +
      Encoded(list[|list| - 1], |Emitted(before).code|, |Emitted(before).constants|, entries)
  }

  lemma {:induction false} ApplySplit(code: seq<byte>, ps: seq<Patch>, qs: seq<Patch>, entries: seq<nat>)
    requires forall p <- ps + qs :: PatchFits(p, |code|) && p.target < |entries|
    ensures forall p <- ps :: PatchFits(p, |code|) && p.target < |entries|
    ensures ApplyAll(code, ps + qs, entries) == ApplyAll(ApplyAll(code, ps, entries), qs, entries)
    decreases |qs|
  {
    forall p <- ps
      ensures PatchFits(p, |code|) && p.target < |entries|
    {
      assert p in ps + qs;
    }
    if qs == [] {
      assert ps + qs == ps;
    } else {
      var n := |qs| - 1;
      assert (ps + qs)[..|ps + qs| - 1] == ps + qs[..n];
      ApplySplit(code, ps, qs[..n], entries);
    }
  }

  /** Patches inside `code` do not touch what follows it. */
  lemma {:induction false} ApplyAppend(code: seq<byte>, tail: seq<byte>, ps: seq<Patch>, entries: seq<nat>)
    requires forall p <- ps :: PatchFits(p, |code|) && p.target < |entries|
    ensures forall p <- ps :: PatchFits(p, |code + tail|)
    ensures ApplyAll(code + tail, ps, entries) == ApplyAll(code, ps, entries) + tail
    decreases |ps|
  {
    if ps != [] { ApplyAppend(code, tail, ps[..|ps| - 1], entries); }
  }

  lemma PatchJump(code: seq<byte>, target: nat)
    ensures var at := |code|;
            ApplyPatch(code + [B.OP_JMP, 0, 0], Patch(at + 1, 0, at + 3, B.OP_JMP, 1), target) ==
            code + JumpBytes(at, target)
  {
  }

  lemma PatchBranch(code: seq<byte>, c: byte, tail: seq<byte>, target: nat)
    ensures var at := |code|;
            ApplyPatch(code + [B.OP_JNZ, c, 0, 0] + tail, Patch(at + 2, 0, at + 4, B.OP_JNZ, 2), target) ==
            code + [B.OP_JNZ, c] + U16(Distance(target, at + 4)) + tail
  {
  }

  lemma ApplyOne(code: seq<byte>, p: Patch, entries: seq<nat>)
    requires PatchFits(p, |code|) && p.target < |entries|
    ensures ApplyAll(code, [p], entries) == ApplyPatch(code, p, entries[p.target])
  {
    assert [p][..0] == [];
  }

  lemma ApplyTwo(code: seq<byte>, p: Patch, q: Patch, entries: seq<nat>)
    requires PatchFits(p, |code|) && p.target < |entries|
    requires PatchFits(q, |code|) && q.target < |entries|
    ensures ApplyAll(code, [p, q], entries) == ApplyPatch(ApplyPatch(code, p, entries[p.target]), q, entries[q.target])
  {
    hide ApplyPatch, PatchFits;
    assert [p, q][..1] == [p];
    ApplyOne(code, p, entries);
  }

  lemma PatchLastBranch(code: seq<byte>, c: Reg, t: BlockId, f: BlockId, k: nat, entries: seq<nat>)
    requires t < |entries| && f < |entries|
    ensures var i, at := Branch(c, t, f), |code|;
            var p, q := PatchesOf(i, at)[0], PatchesOf(i, at)[1];
            var raw := code + Raw(i, k);
            PatchFits(p, |raw|) && PatchFits(q, |raw|) &&
            ApplyPatch(ApplyPatch(raw, p, entries[t]), q, entries[f]) ==
            code + [B.OP_JNZ, Byte(c)] + U16(Distance(entries[t], at + 4)) + JumpBytes(at + 4, entries[f])
  {
    hide ApplyPatch, JumpBytes, U16;
    var i, at := Branch(c, t, f), |code|;
    var p, q := PatchesOf(i, at)[0], PatchesOf(i, at)[1];
    var jump := [B.OP_JMP, 0, 0];
    var head := code + [B.OP_JNZ, Byte(c)] + U16(Distance(entries[t], at + 4));
    assert code + Raw(i, k) == code + [B.OP_JNZ, Byte(c), 0, 0] + jump;
    PatchTarget(code + Raw(i, k), p, entries[t]);
    PatchBranch(code, Byte(c), jump, entries[t]);
    PatchTarget(head + jump, q, entries[f]);
    PatchJump(head, entries[f]);
  }

  lemma PatchLastJump(code: seq<byte>, t: BlockId, k: nat, entries: seq<nat>)
    requires t < |entries|
    ensures var i := Jump(t);
            var p := PatchesOf(i, |code|)[0];
            var raw := code + Raw(i, k);
            PatchFits(p, |raw|) && ApplyPatch(raw, p, entries[t]) == code + JumpBytes(|code|, entries[t])
  {
    hide ApplyPatch, JumpBytes, U16;
    PatchTarget(code + Raw(Jump(t), k), PatchesOf(Jump(t), |code|)[0], entries[t]);
    PatchJump(code, entries[t]);
  }

  /** Patching the last instruction turns its raw bytes into the bytes of the layout. */
  lemma PatchLast(code: seq<byte>, i: Inst, k: nat, entries: seq<nat>)
    requires forall t <- Targets(i) :: t < |entries|
    ensures forall p <- PatchesOf(i, |code|) :: PatchFits(p, |code + Raw(i, k)|) && p.target < |entries|
    ensures ApplyAll(code + Raw(i, k), PatchesOf(i, |code|), entries) == code + Encoded(i, |code|, k, entries)
  {
    hide ApplyAll, ApplyPatch, PatchFits, JumpBytes, U16, Plain, Raw;
    var raw, ps := code + Raw(i, k), PatchesOf(i, |code|);
    match i
    case Jump(t) =>
      assert t in Targets(i);
      PatchLastJump(code, t, k, entries);
      ApplyOne(raw, ps[0], entries);
    case Branch(c, t, f) =>
      assert t in Targets(i) && f in Targets(i);
      PatchLastBranch(code, c, t, f, k, entries);
      ApplyTwo(raw, ps[0], ps[1], entries);
      Assoc(code, [B.OP_JNZ, Byte(c)], U16(Distance(entries[t], |code| + 4)), JumpBytes(|code| + 4, entries[f]));
    case _ =>
      RawPlain(i, k);
      ApplyNone(raw, entries);
  }

  lemma RawPlain(i: Inst, k: nat)
    requires !i.Jump? && !i.Branch?
    ensures Raw(i, k) == Plain(i, k)
  {
    hide Plain;
  }

  lemma Assoc(a: seq<byte>, b: seq<byte>, c: seq<byte>, d: seq<byte>)
    ensures a + b + c + d == a + (b + c + d)
  {
  }

  lemma ApplyNone(code: seq<byte>, entries: seq<nat>)
    ensures ApplyAll(code, [], entries) == code
  {
  }

  /** The block a patch names only matters through its entry. */
  lemma PatchTarget(code: seq<byte>, p: Patch, target: nat)
    requires PatchFits(p, |code|)
    ensures ApplyPatch(code, p, target) == ApplyPatch(code, p.(target := 0), target)
  {
  }

  lemma TargetsOfPatches(list: seq<Inst>, n: nat)
    requires forall p <- Emitted(list).patches :: p.target < n
    ensures TargetsIn(list, n)
  {
    if list != [] {
      var before, i := list[..|list| - 1], list[|list| - 1];
      var w := Emitted(before);
      assert Emitted(list).patches == w.patches + PatchesOf(i, |w.code|);
      TargetsOfPatches(before, n);
      forall t <- Targets(i)
        ensures t < n
      {
        var ps := PatchesOf(i, |w.code|);
        if i.Jump? { assert ps[0] in Emitted(list).patches; }
        else { assert ps[0] in Emitted(list).patches && ps[1] in Emitted(list).patches; }
      }
      assert list == before + [i];
    }
  }

  /** The two passes of the lowering write exactly the intended layout. */
  lemma {:induction false} Backpatched(list: seq<Inst>, entries: seq<nat>)
    requires forall p <- Emitted(list).patches :: p.target < |entries|
    ensures TargetsIn(list, |entries|)
    ensures forall p <- Emitted(list).patches :: PatchFits(p, |Emitted(list).code|)
    ensures ApplyAll(Emitted(list).code, Emitted(list).patches, entries) == Layout(list, entries)
    decreases |list|
  {
    TargetsOfPatches(list, |entries|);
    PatchesFit(list);
    if list != [] {
      var before, i := list[..|list| - 1], list[|list| - 1];
      var w := Emitted(before);
      var raw := Raw(i, |w.constants|);
      var ps := PatchesOf(i, |w.code|);
      PatchesFit(before);
      assert forall p <- w.patches :: p in Emitted(list).patches;
      Backpatched(before, entries);
      ApplySplit(w.code + raw, w.patches, ps, entries);
      ApplyAppend(w.code, raw, w.patches, entries);
      PatchLast(Layout(before, entries), i, |w.constants|, entries);
    }
  }
}
