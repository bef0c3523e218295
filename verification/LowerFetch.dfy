/**
 What the VM fetches from lowered code: at the address of an IR instruction it decodes
 that instruction; a conditional branch and a returned value take a second fetch.
 */
module LowerFetch {
  import opened Values
  import opened Ir
  import opened Lower
  import M = Machine
  import B = Bytecode

  /** The bytes `bs` stand at `at`. */
  predicate Holds(code: seq<byte>, at: nat, bs: seq<byte>) {
    at + |bs| <= |code| && code[at..at + |bs|] == bs
  }

  lemma HoldsAt(code: seq<byte>, at: nat, bs: seq<byte>)
    requires Holds(code, at, bs)
    ensures forall j | 0 <= j < |bs| :: code[at + j] == bs[j]
  {
    forall j | 0 <= j < |bs|
      ensures code[at + j] == bs[j]
    {
      assert code[at..at + |bs|][j] == bs[j];
    }
  }

  lemma HoldsParts(code: seq<byte>, at: nat, a: seq<byte>, b: seq<byte>)
    requires Holds(code, at, a + b)
    ensures Holds(code, at, a) && Holds(code, at + |a|, b)
  {
    var all := code[at..at + |a + b|];
    assert code[at..at + |a|] == all[..|a|];
    assert code[at + |a|..at + |a| + |b|] == all[|a|..];
  }

  /** An opcode followed by exactly its operand bytes is fetched whole. */
  lemma FetchBytes(o: B.FuncObject, at: nat, op: byte, args: seq<byte>)
    requires Holds(o.code, at, [op] + args) && B.OperandBytes(op) == Some(|args|)
    ensures B.Fetch(o, at) ==
            match B.Decode(o.constants, op, args)
            case Ok(i) => Ok(B.Fetched(i, at + 1 + |args|))
            case Err(e) => Err(e)
  {
    hide B.Decode, B.OperandBytes;
    HoldsAt(o.code, at, [op] + args);
    HoldsParts(o.code, at, [op], args);
    assert ([op] + args)[0] == op;
    assert o.code[at + 1..at + 1 + |args|] == args;
  }

  /** The pool constant an instruction refers to. */
  predicate ConstantIn(i: Inst, k: nat, constants: seq<Value>) {
    ConstantsOf(i) != [] ==> k < 0x1_0000 && k < |constants| && constants[k] == ConstantsOf(i)[0]
  }

  /** The VM's reading of a non-terminator. */
  function InstrOf(i: Inst): B.Instr
    requires !IsTerminator(i)
  {
    if i.Call? then B.Call(Byte(i.dst), Byte(i.callee), if i.argStart.Some? then Byte(i.argStart.value) else 0, Byte(i.argc))
    else B.Window(AsRegOp(i).value)
  }

  /** Narrow or wide, the operand bytes name constant `k`. */
  lemma ConstantOperand(narrow: byte, wide: byte, dst: Reg, k: nat) returns (args: seq<byte>)
    requires k < 0x1_0000
    ensures B.Names(args, k)
    ensures args[0] == Byte(dst) && WithConstant(narrow, wide, dst, k) == [if |args| == 2 then narrow else wide] + args
  {
    hide Byte, U16, B.Short;
    if k <= 255 {
      args := [Byte(dst), k];
    } else {
      var bs := U16(k);
      args := [Byte(dst)] + bs;
      assert args[1] == bs[0] && args[2] == bs[1];
      assert WithConstant(narrow, wide, dst, k) == [wide] + args;
    }
  }

  lemma FetchConstant(o: B.FuncObject, at: nat, i: Inst, k: nat)
    requires i.Constant? && Encodable(i) && ConstantIn(i, k, o.constants) && Holds(o.code, at, Plain(i, k))
    ensures B.Fetch(o, at) == Ok(B.Fetched(InstrOf(i), at + |Plain(i, k)|))
  {
    hide Holds, B.Fetch, B.Decode, B.OperandBytes, WithConstant;
    assert i.dst in Regs(i);
    var args := ConstantOperand(B.OP_LOAD_CONST, B.OP_LOAD_CONST_W, i.dst, k);
    B.DecodeConstant(o.constants, args, k);
    FetchBytes(o, at, if |args| == 2 then B.OP_LOAD_CONST else B.OP_LOAD_CONST_W, args);
  }

  lemma FetchGlobal(o: B.FuncObject, at: nat, i: Inst, k: nat)
    requires i.LoadGlobal? && Encodable(i) && ConstantIn(i, k, o.constants) && Holds(o.code, at, Plain(i, k))
    ensures B.Fetch(o, at) == Ok(B.Fetched(InstrOf(i), at + |Plain(i, k)|))
  {
    hide Holds, B.Fetch, B.Decode, B.OperandBytes, WithConstant;
    assert i.dst in Regs(i);
    var args := ConstantOperand(B.OP_GET_GLOBAL, B.OP_GET_GLOBAL_W, i.dst, k);
    B.DecodeGlobal(o.constants, args, k);
    FetchBytes(o, at, if |args| == 2 then B.OP_GET_GLOBAL else B.OP_GET_GLOBAL_W, args);
  }

  lemma DecodeUnary(constants: seq<Value>, dst: byte, src: byte)
    ensures B.OperandBytes(B.OP_NEG) == B.OperandBytes(B.OP_NOT) == Some(2)
    ensures B.Decode(constants, B.OP_NEG, [dst, src]) == Ok(B.Window(M.Negate(dst, src)))
    ensures B.Decode(constants, B.OP_NOT, [dst, src]) == Ok(B.Window(M.Invert(dst, src)))
  {
  }

  lemma DecodeBin(constants: seq<Value>, op: BinOp, args: seq<byte>)
    requires |args| == 3
    ensures B.OperandBytes(OpcodeOf(op)) == Some(3)
    ensures B.Decode(constants, OpcodeOf(op), args) == Ok(B.Window(M.Arith(op, args[0], args[1], args[2])))
  {
    hide OpcodeOf, B.BinOfOpcode;
    OpcodeDecodes(op);
  }

  lemma DecodeCall(constants: seq<Value>, args: seq<byte>)
    requires |args| == 4
    ensures B.OperandBytes(B.OP_CALL) == Some(4)
    ensures B.Decode(constants, B.OP_CALL, args) == Ok(B.Call(args[0], args[1], args[2], args[3]))
  {
  }

  lemma FetchMove(o: B.FuncObject, at: nat, dst: Reg, src: Reg)
    requires dst <= 255 && src <= 255 && Holds(o.code, at, [B.OP_MOVE, Byte(dst), Byte(src)])
    ensures B.Fetch(o, at) == Ok(B.Fetched(B.Window(M.Copy(dst, src)), at + 3))
  {
    hide Holds, B.Fetch;
    assert [B.OP_MOVE, Byte(dst), Byte(src)] == [B.OP_MOVE] + [Byte(dst), Byte(src)];
    FetchBytes(o, at, B.OP_MOVE, [Byte(dst), Byte(src)]);
  }

  /** Every non-terminator is fetched as itself. */
  lemma FetchPlain(o: B.FuncObject, at: nat, i: Inst, k: nat)
    requires !IsTerminator(i) && Encodable(i) && ConstantIn(i, k, o.constants) && Holds(o.code, at, Plain(i, k))
    ensures B.Fetch(o, at) == Ok(B.Fetched(InstrOf(i), at + |Plain(i, k)|))
  {
    hide Holds, ConstantIn, B.Fetch, B.Decode, B.OperandBytes, WithConstant, OpcodeOf;
    match i
    case Constant(_, _) => FetchConstant(o, at, i, k);
    case LoadGlobal(_, _) => FetchGlobal(o, at, i, k);
    case Move(d, s) =>
      assert d in Regs(i) && s in Regs(i);
      FetchMove(o, at, d, s);
    case Neg(d, s) =>
      assert d in Regs(i) && s in Regs(i);
      assert Plain(i, k) == [B.OP_NEG] + [Byte(d), Byte(s)];
      DecodeUnary(o.constants, Byte(d), Byte(s));
      FetchBytes(o, at, B.OP_NEG, [Byte(d), Byte(s)]);
    case LogicNot(d, s) =>
      assert d in Regs(i) && s in Regs(i);
      assert Plain(i, k) == [B.OP_NOT] + [Byte(d), Byte(s)];
      DecodeUnary(o.constants, Byte(d), Byte(s));
      FetchBytes(o, at, B.OP_NOT, [Byte(d), Byte(s)]);
    case Bin(op, d, l, r) =>
      assert d in Regs(i) && l in Regs(i) && r in Regs(i);
      assert Plain(i, k) == [OpcodeOf(op)] + [Byte(d), Byte(l), Byte(r)];
      DecodeBin(o.constants, op, [Byte(d), Byte(l), Byte(r)]);
      FetchBytes(o, at, OpcodeOf(op), [Byte(d), Byte(l), Byte(r)]);
    case Call(d, c, a, n) =>
      var args := [Byte(d), Byte(c), if a.Some? then Byte(a.value) else 0, Byte(n)];
      assert Plain(i, k) == [B.OP_CALL] + args;
      DecodeCall(o.constants, args);
      FetchBytes(o, at, B.OP_CALL, args);
  }

  lemma FetchReturn(o: B.FuncObject, at: nat)
    requires Holds(o.code, at, [B.OP_RETURN])
    ensures B.Fetch(o, at) == Ok(B.Fetched(B.Return, at + 1))
  {
    hide Holds, B.Fetch;
    assert [B.OP_RETURN] == [B.OP_RETURN] + [];
    FetchBytes(o, at, B.OP_RETURN, []);
  }

  /** An unconditional jump leads to `target`, forward or backward. */
  lemma FetchJump(o: B.FuncObject, at: nat, target: nat)
    requires Distance(target, at + 3) <= B.U16_MAX && Holds(o.code, at, JumpBytes(at, target))
    ensures B.Fetch(o, at) ==
            Ok(B.Fetched(if target < at + 3 then B.Backward(at + 3 - target) else B.Forward(target - (at + 3)), at + 3))
  {
    hide Holds, B.Fetch;
    var bs := U16(Distance(target, at + 3));
    var op := if target < at + 3 then B.OP_LOOP else B.OP_JMP;
    assert bs == [bs[0], bs[1]];
    FetchBytes(o, at, op, bs);
  }

  /** The first half of a conditional branch, whose true edge goes forward. */
  lemma FetchBranch(o: B.FuncObject, at: nat, c: Reg, target: nat)
    requires c <= 255 && at + 4 <= target && Distance(target, at + 4) <= B.U16_MAX
    requires Holds(o.code, at, [B.OP_JNZ, Byte(c)] + U16(Distance(target, at + 4)))
    ensures B.Fetch(o, at) == Ok(B.Fetched(B.ForwardIf(c, target - (at + 4)), at + 4))
  {
    hide Holds, B.Fetch;
    var bs := U16(Distance(target, at + 4));
    var args := [Byte(c), bs[0], bs[1]];
    assert [B.OP_JNZ, Byte(c)] + bs == [B.OP_JNZ] + args;
    FetchBytes(o, at, B.OP_JNZ, args);
  }
}
