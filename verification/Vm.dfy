/**
 The VM as the program has it: one register array, a stack of frames whose `pc` is the
 instruction pointer, and a loop that fetches operand bytes one by one, decodes and
 executes in place.  Every instruction is proved to do what `Bytecode.Step` says.
 */
module VmMachine {
  import opened Values
  import opened Machine
  import B = Bytecode

  type byte = B.byte

  /** Function object `id` about to run on its own, in code of module `inModule`. */
  function Start(stack: seq<Value>, id: nat, globals: map<B.GlobalKey, nat>, inModule: nat): B.Vm {
    B.Vm(Running(stack, Frame(id, 0, 0, 0), []), globals, inModule)
  }

  /** `current` is the last frame of the frame stack, `callers` are the frames below it. */
  class Vm {
    const stack: array<Value>
    var functions: seq<B.FuncObject>
    var current: Frame<nat>
    var callers: seq<Frame<nat>>
    var globals: map<B.GlobalKey, nat>
    var moduleId: nat

    /** The instruction pointer is inside the function's code or at its end. */
    ghost predicate InCode(f: Frame<nat>)
      reads this
    {
      f.fn < |functions| && f.pc <= |functions[f.fn].code|
    }

    ghost predicate Valid()
      reads this
    {
      && stack.Length == STACK_CAPACITY && InCode(current)
      && forall f <- callers :: InCode(f)
    }

    /** The mathematical state of the running machine. */
    ghost function Abs(): B.Vm
      reads this, stack
    {
      B.Vm(Running(stack[..], current, callers), globals, moduleId)
    }

    constructor ()
      ensures fresh(stack) && stack.Length == STACK_CAPACITY && forall i | 0 <= i < STACK_CAPACITY :: stack[i] == Nil
      ensures functions == [] && callers == [] && globals == map[]
    {
      stack := new Value[STACK_CAPACITY](_ => Nil);
      functions, callers, globals, moduleId := [], [], map[], 0;
      current := Frame(0, 0, 0, 0);
    }

    /** A turn that ends the run writes nothing. */
    ghost predicate Halts(v: B.Vm)
      requires v.state.Running?
      reads this, stack
    {
      globals == v.globals && moduleId == v.moduleId && stack[..] == v.state.stack
    }

    /** What one turn of the loop has to achieve, from the state `v` it began in. */
    ghost predicate Did(v: B.Vm, end: Option<End>)
      reads this, stack
    {
      match end
      case None => Valid() && B.Step(functions, v) == Abs()
      case Some(e) =>
        B.Step(functions, v) == v.(state := Halted(e)) && v.state.Running? && Halts(v)
    }

    /** `n` bytes of the instruction that `v` stands at have been read. */
    ghost predicate Read(v: B.Vm, n: nat)
      reads this, stack
    {
      && Valid() && v.state.Running? && current == v.state.top.(pc := v.state.top.pc + n)
      && callers == v.state.callers && stack[..] == v.state.stack && globals == v.globals && moduleId == v.moduleId
      && v.state.top.pc + n <= |functions[current.fn].code|
    }

    /** The code byte `j` places after the position of `v`. */
    ghost function At(v: B.Vm, j: nat): byte
      requires v.state.Running? && v.state.top.fn < |functions|
      requires v.state.top.pc + j < |functions[v.state.top.fn].code|
      reads this
    {
      functions[v.state.top.fn].code[v.state.top.pc + j]
    }

    /** Reads a byte and advances, unless the code ends here. */
    method TryReadByte(ghost v: B.Vm, ghost n: nat) returns (ok: bool, b: byte)
      requires Read(v, n)
      modifies this`current
      ensures ok == (v.state.top.pc + n < |functions[v.state.top.fn].code|)
      ensures if ok then Read(v, n + 1) && b == At(v, n) else Read(v, n)
    {
      var code := functions[current.fn].code;
      if current.pc >= |code| { return false, 0; }
      b := code[current.pc];
      current := current.(pc := current.pc + 1);
      ok := true;
    }

    /** Reads a big-endian 16-bit immediate and advances, unless the code ends before it. */
    method TryReadShort(ghost v: B.Vm, ghost n: nat) returns (ok: bool, s: nat)
      requires Read(v, n)
      modifies this`current
      ensures ok == (v.state.top.pc + n + 2 <= |functions[v.state.top.fn].code|)
      ensures if ok then Read(v, n + 2) && s == B.Short(At(v, n), At(v, n + 1)) else Read(v, n)
    {
      var code := functions[current.fn].code;
      if current.pc + 2 > |code| { return false, 0; }
      s := B.Short(code[current.pc], code[current.pc + 1]);
      current := current.(pc := current.pc + 2);
      ok := true;
    }

    method ReadConstantByIndex(index: nat) returns (r: Result<Value>)
      requires Valid()
      ensures r == B.ConstantAt(functions[current.fn].constants, index)
    {
      var cs := functions[current.fn].constants;
      if index >= |cs| { return Err(ConstantOutOfRange); }
      return Ok(cs[index]);
    }

    /** Relative jump over `offset` bytes; the end of the code is still a legal target. */
    method TryJumpForward(offset: nat) returns (ok: bool)
      requires Valid()
      modifies this`current
      ensures ok == (old(current.pc) + offset <= |functions[old(current.fn)].code|)
      ensures current == if ok then old(current).(pc := old(current.pc) + offset) else old(current)
    {
      if current.pc + offset > |functions[current.fn].code| { return false; }
      current := current.(pc := current.pc + offset);
      ok := true;
    }

    /** Relative jump back; the first byte is the farthest target. */
    method TryJumpBackward(offset: nat) returns (ok: bool)
      requires Valid()
      modifies this`current
      ensures ok == (offset <= old(current.pc))
      ensures current == if ok then old(current).(pc := old(current.pc) - offset) else old(current)
    {
      if offset > current.pc { return false; }
      current := current.(pc := current.pc - offset);
      ok := true;
    }

    // ----- instructions, each entered with its opcode byte read -----

    /** Where the operands of `v`'s instruction do not fit in the code, the step is a fault. */
    lemma Truncated(v: B.Vm, need: nat)
      requires v.state.Running? && v.state.top.fn < |functions| && v.state.top.pc < |functions[v.state.top.fn].code|
      requires B.OperandBytes(At(v, 0)) == Some(need)
      requires v.state.top.pc + 1 + need > |functions[v.state.top.fn].code|
      ensures B.Step(functions, v) == v.(state := Halted(Faulted(BytecodeTruncated)))
    {
    }

    /** Where they fit, the step executes the decoded instruction. */
    lemma Decoded(v: B.Vm, need: nat)
      requires v.state.Running? && v.state.top.fn < |functions|
      requires v.state.top.pc + 1 + need <= |functions[v.state.top.fn].code|
      requires B.OperandBytes(At(v, 0)) == Some(need)
      ensures var f, pc := functions[v.state.top.fn], v.state.top.pc;
              B.Step(functions, v) ==
              match B.Decode(f.constants, At(v, 0), Operands(v, need))
              case Ok(i) => B.Exec(functions, v, |f.code|, i, pc + 1 + need)
              case Err(e) => v.(state := Halted(Faulted(e)))
    {
      hide B.Exec, B.Decode, B.OperandBytes;
    }

    /** The operand bytes of `v`'s instruction. */
    ghost function Operands(v: B.Vm, need: nat): seq<byte>
      requires v.state.Running? && v.state.top.fn < |functions|
      requires v.state.top.pc + 1 + need <= |functions[v.state.top.fn].code|
      reads this
    {
      functions[v.state.top.fn].code[v.state.top.pc + 1..v.state.top.pc + 1 + need]
    }

    /** A window operation that stays in the register file, carried out on the array. */
    method Execute(ghost v: B.Vm, ghost n: nat, op: RegOp) returns (end: Option<End>)
      requires Read(v, n)
      requires B.Step(functions, v) == B.Exec(functions, v, |functions[v.state.top.fn].code|, B.Window(op), v.state.top.pc + n)
      modifies stack
      ensures Did(v, end)
    {
      hide B.Step, B.Visible, OpValue;
      var base := current.base;
      if !OpInFile(op, stack[..], base) { return Some(Faulted(RegisterOutOfRange)); }
      match OpValue(op, stack[..], base, B.Visible(globals, moduleId))
      case Ok(x) =>
        stack[base + op.dst] := x;
        end := None;
      case Err(e) => end := Some(Faulted(e));
    }

    method LoadConst(ghost v: B.Vm, wide: bool) returns (end: Option<End>)
      requires Read(v, 1) && At(v, 0) == if wide then B.OP_LOAD_CONST_W else B.OP_LOAD_CONST
      modifies this`current, stack
      ensures Did(v, end)
    {
      hide B.Step, B.Exec, B.Visible, B.Decode;
      ghost var need := if wide then 3 else 2;
      var ok, dst := TryReadByte(v, 1);
      if !ok { Truncated(v, need); return Some(Faulted(BytecodeTruncated)); }
      var index: nat;
      if wide { ok, index := TryReadShort(v, 2); } else { ok, index := TryReadByte(v, 2); }
      if !ok { Truncated(v, need); return Some(Faulted(BytecodeTruncated)); }
      Decoded(v, need);
      B.DecodeConstant(functions[current.fn].constants, Operands(v, need), index);
      var c := ReadConstantByIndex(index);
      if c.Err? { return Some(Faulted(c.fault)); }
      end := Execute(v, need + 1, Load(dst, c.value));
    }

    method GetGlobal(ghost v: B.Vm, wide: bool) returns (end: Option<End>)
      requires Read(v, 1) && At(v, 0) == if wide then B.OP_GET_GLOBAL_W else B.OP_GET_GLOBAL
      modifies this`current, stack
      ensures Did(v, end)
    {
      hide B.Step, B.Exec, B.Visible, B.Decode;
      ghost var need := if wide then 3 else 2;
      var ok, dst := TryReadByte(v, 1);
      if !ok { Truncated(v, need); return Some(Faulted(BytecodeTruncated)); }
      var index: nat;
      if wide { ok, index := TryReadShort(v, 2); } else { ok, index := TryReadByte(v, 2); }
      if !ok { Truncated(v, need); return Some(Faulted(BytecodeTruncated)); }
      Decoded(v, need);
      B.DecodeGlobal(functions[current.fn].constants, Operands(v, need), index);
      var c := ReadConstantByIndex(index);
      if c.Err? { return Some(Faulted(c.fault)); }
      if !c.value.Int? { return Some(Faulted(InvalidDefinition)); }
      end := Execute(v, need + 1, Global(dst, c.value.i % 0x1_0000_0000));
    }

    /** Reads a destination and a source register. */
    method TwoRegisters(ghost v: B.Vm) returns (ok: bool, dst: byte, src: byte)
      requires Read(v, 1) && B.OperandBytes(At(v, 0)) == Some(2)
      modifies this`current
      ensures if ok then Read(v, 3) && dst == At(v, 1) && src == At(v, 2)
              else B.Step(functions, v) == v.(state := Halted(Faulted(BytecodeTruncated)))
    {
      hide B.Step, B.OperandBytes;
      ok, dst := TryReadByte(v, 1);
      if ok { ok, src := TryReadByte(v, 2); }
      if !ok { Truncated(v, 2); src := 0; }
    }

    method Unary(ghost v: B.Vm, op: byte) returns (end: Option<End>)
      requires Read(v, 1) && At(v, 0) == op && op in {B.OP_MOVE, B.OP_NEG, B.OP_NOT}
      modifies this`current, stack
      ensures Did(v, end)
    {
      hide B.Step, B.Exec;
      var ok, dst, src := TwoRegisters(v);
      if !ok { return Some(Faulted(BytecodeTruncated)); }
      Decoded(v, 2);
      var o := if op == B.OP_MOVE then Copy(dst, src) else if op == B.OP_NEG then Negate(dst, src) else Invert(dst, src);
      end := Execute(v, 3, o);
    }

    method Binary(ghost v: B.Vm, op: BinOp) returns (end: Option<End>)
      requires Read(v, 1) && B.BinOfOpcode(At(v, 0)) == Some(op)
      modifies this`current, stack
      ensures Did(v, end)
    {
      hide B.Step, B.Exec, B.BinOfOpcode;
      var ok, dst := TryReadByte(v, 1);
      if !ok { Truncated(v, 3); return Some(Faulted(BytecodeTruncated)); }
      var left: byte;
      ok, left := TryReadByte(v, 2);
      if !ok { Truncated(v, 3); return Some(Faulted(BytecodeTruncated)); }
      var right: byte;
      ok, right := TryReadByte(v, 3);
      if !ok { Truncated(v, 3); return Some(Faulted(BytecodeTruncated)); }
      Decoded(v, 3);
      end := Execute(v, 4, Arith(op, dst, left, right));
    }

    method Jump(ghost v: B.Vm, loop: bool) returns (end: Option<End>)
      requires Read(v, 1) && At(v, 0) == if loop then B.OP_LOOP else B.OP_JMP
      modifies this`current
      ensures Did(v, end)
    {
      hide B.Step, B.Decode, B.OperandBytes;
      B.JumpOperands();
      var ok, offset := TryReadShort(v, 1);
      if !ok { Truncated(v, 2); return Some(Faulted(BytecodeTruncated)); }
      Decoded(v, 2);
      B.DecodeJump(functions[current.fn].constants, Operands(v, 2));
      if loop { ok := TryJumpBackward(offset); } else { ok := TryJumpForward(offset); }
      end := if ok then None else Some(Faulted(JumpOutOfRange));
    }

    method JumpIfTrue(ghost v: B.Vm) returns (end: Option<End>)
      requires Read(v, 1) && At(v, 0) == B.OP_JNZ
      modifies this`current
      ensures Did(v, end)
    {
      hide B.Step, B.Decode, B.OperandBytes;
      B.JumpOperands();
      var ok, c := TryReadByte(v, 1);
      if !ok { Truncated(v, 3); return Some(Faulted(BytecodeTruncated)); }
      var offset: nat;
      ok, offset := TryReadShort(v, 2);
      if !ok { Truncated(v, 3); return Some(Faulted(BytecodeTruncated)); }
      Decoded(v, 3);
      B.DecodeJump(functions[current.fn].constants, Operands(v, 3));
      if current.base + c >= stack.Length { return Some(Faulted(RegisterOutOfRange)); }
      if BranchTruth(stack[current.base + c]) {
        ok := TryJumpForward(offset);
        if !ok { return Some(Faulted(JumpOutOfRange)); }
      }
      end := None;
    }

    /** Reads the four operands of a call. */
    method CallOperands(ghost v: B.Vm) returns (ok: bool, out: byte, callee: byte, argStart: byte, argc: byte)
      requires Read(v, 1) && At(v, 0) == B.OP_CALL
      modifies this`current
      ensures if ok then Read(v, 5) && out == At(v, 1) && callee == At(v, 2) && argStart == At(v, 3) && argc == At(v, 4)
              else B.Step(functions, v) == v.(state := Halted(Faulted(BytecodeTruncated)))
    {
      hide B.Step;
      callee, argStart, argc := 0, 0, 0;
      ok, out := TryReadByte(v, 1);
      if ok { ok, callee := TryReadByte(v, 2); }
      if ok { ok, argStart := TryReadByte(v, 3); }
      if ok { ok, argc := TryReadByte(v, 4); }
      if !ok { Truncated(v, 4); }
    }

    /** Opens the callee's window on the argument slots, after all guards. */
    method Call(ghost v: B.Vm) returns (end: Option<End>)
      requires Read(v, 1) && At(v, 0) == B.OP_CALL
      modifies this`current, this`callers
      ensures Did(v, end)
    {
      hide B.Step;
      var ok, out, callee, argStart, argc := CallOperands(v);
      if !ok { return Some(Faulted(BytecodeTruncated)); }
      Decoded(v, 4);
      if current.base + callee >= stack.Length { return Some(Faulted(RegisterOutOfRange)); }
      var c := stack[current.base + callee];
      if !c.Function? || c.id >= |functions| { return Some(Faulted(NotCallable)); }
      var f := functions[c.id];
      if argc != f.arity { return Some(Faulted(ArityMismatch)); }
      if |callers| + 1 == MAX_FRAMES { return Some(Faulted(StackOverflow)); }
      var newBase := current.base + argStart;
      if newBase + argc > STACK_CAPACITY { return Some(Faulted(WindowOverflow)); }
      var slots := if f.maxRegisters == 0 then 256 else f.maxRegisters;
      if newBase + slots > STACK_CAPACITY { return Some(Faulted(WindowOverflow)); }
      callers := callers + [current];
      current := Frame(c.id, 0, newBase, out);
      end := None;
    }

    /** Hands register 0 to the caller's destination register, or ends the run with it. */
    method Return(ghost v: B.Vm) returns (end: Option<End>)
      requires Read(v, 1) && At(v, 0) == B.OP_RETURN
      modifies this`current, this`callers, stack
      ensures Did(v, end)
    {
      hide B.Step;
      Decoded(v, 0);
      if current.base >= stack.Length { return Some(Faulted(RegisterOutOfRange)); }
      var result := stack[current.base];
      if callers == [] { return Some(Finished(result)); }
      var out := current.out;
      var n := |callers| - 1;
      if callers[n].base + out >= stack.Length { return Some(Faulted(RegisterOutOfRange)); }
      assert callers[n] in callers && forall f <- callers[..n] :: f in callers;
      current := callers[n];
      callers := callers[..n];
      stack[current.base + out] := result;
      end := None;
    }

    /** Enters a function object in the global table under its own name. */
    method DefineGlobal(ghost v: B.Vm, wide: bool) returns (end: Option<End>)
      requires Read(v, 1) && At(v, 0) == if wide then B.OP_DEFINE_GLOBAL_W else B.OP_DEFINE_GLOBAL
      modifies this`current, this`globals
      ensures Did(v, end)
    {
      hide B.Step, B.Decode;
      ghost var need := if wide then 2 else 1;
      var ok: bool, index: nat;
      if wide { ok, index := TryReadShort(v, 1); } else { ok, index := TryReadByte(v, 1); }
      if !ok { Truncated(v, need); return Some(Faulted(BytecodeTruncated)); }
      Decoded(v, need);
      B.DecodeDefine(functions[current.fn].constants, Operands(v, need), index);
      var c := ReadConstantByIndex(index);
      if c.Err? { return Some(Faulted(c.fault)); }
      if !c.value.Function? || c.value.id >= |functions| { return Some(Faulted(InvalidDefinition)); }
      globals := globals[B.GlobalKey(moduleId, functions[c.value.id].name) := c.value.id];
      end := None;
    }

    lemma Unknown(v: B.Vm)
      requires v.state.Running? && v.state.top.fn < |functions| && v.state.top.pc < |functions[v.state.top.fn].code|
      requires B.OperandBytes(At(v, 0)).None?
      ensures B.Step(functions, v) == v.(state := Halted(Faulted(UnknownOpcode)))
    {
    }

    lemma NoOpcode(v: B.Vm)
      requires v.state.Running? && v.state.top.fn < |functions| && v.state.top.pc >= |functions[v.state.top.fn].code|
      ensures B.Step(functions, v) == v.(state := Halted(Faulted(BytecodeTruncated)))
    {
    }

    /** One turn of the loop: fetch an opcode, dispatch, execute. */
    method Step() returns (end: Option<End>)
      requires Valid()
      modifies this`current, this`callers, this`globals, stack
      ensures Did(old(Abs()), end)
    {
      hide B.Step, B.Decode, B.Exec;
      ghost var v := Abs();
      var ok, op := TryReadByte(v, 0);
      if !ok { NoOpcode(v); return Some(Faulted(BytecodeTruncated)); }
      var bin := B.BinOfOpcode(op);
      if bin.Some? { end := Binary(v, bin.value); }
      else if op == B.OP_LOAD_CONST || op == B.OP_LOAD_CONST_W { end := LoadConst(v, op == B.OP_LOAD_CONST_W); }
      else if op == B.OP_GET_GLOBAL || op == B.OP_GET_GLOBAL_W { end := GetGlobal(v, op == B.OP_GET_GLOBAL_W); }
      else if op == B.OP_DEFINE_GLOBAL || op == B.OP_DEFINE_GLOBAL_W { end := DefineGlobal(v, op == B.OP_DEFINE_GLOBAL_W); }
      else if op == B.OP_MOVE || op == B.OP_NEG || op == B.OP_NOT { end := Unary(v, op); }
      else if op == B.OP_JMP || op == B.OP_LOOP { end := Jump(v, op == B.OP_LOOP); }
      else if op == B.OP_JNZ { end := JumpIfTrue(v); }
      else if op == B.OP_CALL { end := Call(v); }
      else if op == B.OP_RETURN { end := Return(v); }
      else {
        Unknown(v);
        end := Some(Faulted(UnknownOpcode));
      }
    }

    /** The interpreter loop, for at most `bound` turns. */
    method Run(bound: nat) returns (end: Option<End>)
      requires Valid()
      modifies this`current, this`callers, this`globals, stack
      ensures match end
              case None => Valid() && Abs() == B.Run(functions, old(Abs()), bound)
              case Some(e) => B.Run(functions, old(Abs()), bound) == B.Vm(Halted(e), globals, moduleId)
      ensures stack[..] == B.LastStack(functions, old(Abs()), bound)
    {
      hide B.Step;
      ghost var start := Abs();
      end := None;
      var i := 0;
      while i < bound
        invariant i <= bound && functions == old(functions) && Valid() && end.None?
        invariant B.Run(functions, start, bound) == B.Run(functions, Abs(), bound - i)
        invariant B.LastStack(functions, start, bound) == B.LastStack(functions, Abs(), bound - i)
      {
        ghost var v := Abs();
        end := Step();
        i := i + 1;
        if end.Some? {
          B.RunHalted(functions, B.Step(functions, v), bound - i);
          return;
        }
      }
    }

    /** Runs function object `id` on its own: one frame whose window starts at slot 0. */
    method ExecuteFunction(id: nat, inModule: nat, bound: nat) returns (end: Option<End>)
      requires stack.Length == STACK_CAPACITY && id < |functions|
      modifies this`current, this`callers, this`globals, this`moduleId, stack
      ensures functions[id].code == [] ==>
                end == Some(Finished(Nil)) && globals == old(globals) && stack[..] == old(stack[..])
      ensures functions[id].code != [] ==>
                var v := Start(old(stack[..]), id, old(globals), inModule);
                var u := B.Run(functions, v, bound);
                stack[..] == B.LastStack(functions, v, bound) &&
                match end
                case None => Valid() && Abs() == u
                case Some(e) => u == B.Vm(Halted(e), globals, inModule)
    {
      moduleId := inModule;
      if functions[id].code == [] { return Some(Finished(Nil)); }
      callers := [];
      current := Frame(id, 0, 0, 0);
      end := Run(bound);
    }

    /** Runs a chunk as a function object that exists only while it runs. */
    method ExecuteChunk(chunk: B.FuncObject, inModule: nat, bound: nat) returns (end: Option<End>)
      requires stack.Length == STACK_CAPACITY
      modifies this, stack
      ensures functions == old(functions)
      ensures chunk.code == [] ==>
                end == Some(Finished(Nil)) && globals == old(globals) && stack[..] == old(stack[..])
      ensures chunk.code != [] ==>
                var v := Start(old(stack[..]), |functions|, old(globals), inModule);
                var u := B.Run(functions + [chunk], v, bound);
                stack[..] == B.LastStack(functions + [chunk], v, bound) &&
                match end
                case None => u.state.Running?
                case Some(e) => u == B.Vm(Halted(e), globals, inModule)
    {
      hide B.Step, B.Run;
      var n := |functions|;
      functions := functions + [chunk];
      end := ExecuteFunction(n, inModule, bound);
      functions := functions[..n];
    }

    /** The number of the function object defined under a name in a module. */
    method LookupGlobalFunctionById(inModule: nat, name: NameId) returns (id: Option<nat>)
      ensures match id
              case None => B.GlobalKey(inModule, name) !in globals
              case Some(i) => B.GlobalKey(inModule, name) in globals && globals[B.GlobalKey(inModule, name)] == i
    {
      var key := B.GlobalKey(inModule, name);
      if key in globals { return Some(globals[key]); }
      return None;
    }
  }
}
