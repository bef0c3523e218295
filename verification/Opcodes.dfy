/**
 One step of the machine for every opcode byte it executes: which operand bytes it reads,
 what it writes and where it goes on, or why it stops.  The bytes are those of the
 instruction set's numbering.
 */
module Opcodes {
  import opened Values
  import opened Machine
  import opened Arithmetic
  import B = Bytecode

  type byte = B.byte

  /** The machine is about to read these bytes. */
  ghost predicate Reads(fs: seq<B.FuncObject>, vm: B.Vm, bytes: seq<byte>) {
    && vm.state.Running? && vm.state.top.fn < |fs|
    && var code, ip := fs[vm.state.top.fn].code, vm.state.top.pc;
       ip + |bytes| <= |code| && code[ip..ip + |bytes|] == bytes
  }

  predicate HasReg(vm: B.Vm, r: nat)
    requires vm.state.Running?
  {
    vm.state.top.base + r < |vm.state.stack|
  }

  function Reg(vm: B.Vm, r: nat): Value
    requires vm.state.Running? && HasReg(vm, r)
  {
    vm.state.stack[vm.state.top.base + r]
  }

  /** The value is in its register, and the machine is `n` bytes further. */
  ghost predicate Writes(vm: B.Vm, vm': B.Vm, dst: nat, v: Value, n: nat)
    requires vm.state.Running? && HasReg(vm, dst)
  {
    var st := vm.state;
    vm' == vm.(state := Running(st.stack[st.top.base + dst := v], st.top.(pc := st.top.pc + n), st.callers))
  }

  ghost predicate Stops(vm: B.Vm, vm': B.Vm, f: Fault) {
    vm' == vm.(state := Halted(Faulted(f)))
  }

  /** A result in 64 bits, or none. */
  ghost predicate Gives(vm: B.Vm, vm': B.Vm, dst: nat, z: int, n: nat)
    requires vm.state.Running? && HasReg(vm, dst)
  {
    if -0x8000_0000_0000_0000 <= z <= 0x7FFF_FFFF_FFFF_FFFF then Writes(vm, vm', dst, Int(z), n)
    else Stops(vm, vm', IntegerOverflow)
  }

  /** Control goes to a place in the code or to its end. */
  ghost predicate Goes(vm: B.Vm, vm': B.Vm, target: int, size: nat)
    requires vm.state.Running?
  {
    if 0 <= target <= size then vm' == vm.(state := vm.state.(top := vm.state.top.(pc := target)))
    else Stops(vm, vm', JumpOutOfRange)
  }

  lemma StepIs(fs: seq<B.FuncObject>, vm: B.Vm, bytes: seq<byte>)
    requires bytes != [] && Reads(fs, vm, bytes) && B.OperandBytes(bytes[0]) == Some(|bytes| - 1)
    ensures var f := fs[vm.state.top.fn];
            B.Step(fs, vm) ==
            match B.Decode(f.constants, bytes[0], bytes[1..])
            case Ok(i) => B.Exec(fs, vm, |f.code|, i, vm.state.top.pc + |bytes|)
            case Err(e) => vm.(state := Halted(Faulted(e)))
  {
    hide B.Decode, B.Exec, B.OperandBytes;
    var f, ip := fs[vm.state.top.fn], vm.state.top.pc;
    assert f.code[ip] == f.code[ip..ip + |bytes|][0];
    assert f.code[ip + 1..ip + |bytes|] == bytes[1..];
  }

  // ----- operators -----

  /** An instruction with a destination and two operand registers. */
  ghost predicate ThreeRegs(fs: seq<B.FuncObject>, vm: B.Vm, op: byte, dst: byte, l: byte, r: byte) {
    Reads(fs, vm, [op, dst, l, r]) && HasReg(vm, dst) && HasReg(vm, l) && HasReg(vm, r)
  }

  lemma OperatorStep(fs: seq<B.FuncObject>, vm: B.Vm, op: byte, dst: byte, l: byte, r: byte)
    requires ThreeRegs(fs, vm, op, dst, l, r) && B.BinOfOpcode(op).Some?
    ensures B.Step(fs, vm) ==
            match ApplyBin(B.BinOfOpcode(op).value, Reg(vm, l), Reg(vm, r))
            case Ok(v) =>
              var st := vm.state;
              vm.(state := Running(st.stack[st.top.base + dst := v], st.top.(pc := st.top.pc + 4), st.callers))
            case Err(f) => vm.(state := Halted(Faulted(f)))
  {
    hide ApplyBin;
    StepIs(fs, vm, [op, dst, l, r]);
  }

  lemma ArithmeticStep(fs: seq<B.FuncObject>, vm: B.Vm, op: byte, dst: byte, l: byte, r: byte, x: int, y: int)
    requires ThreeRegs(fs, vm, op, dst, l, r) && Reg(vm, l) == Int(x) && Reg(vm, r) == Int(y)
    ensures var vm' := B.Step(fs, vm);
            (op == 4 ==> Gives(vm, vm', dst, x + y, 4)) &&
            (op == 5 ==> Gives(vm, vm', dst, x - y, 4)) &&
            (op == 6 ==> Gives(vm, vm', dst, x * y, 4))
  {
    hide Reads, B.Step;
    if op in {4, 5, 6} { OperatorStep(fs, vm, op, dst, l, r); }
  }

  lemma DivisionStep(fs: seq<B.FuncObject>, vm: B.Vm, op: byte, dst: byte, l: byte, r: byte, x: int, y: int, q: int, m: int)
    requires ThreeRegs(fs, vm, op, dst, l, r) && Reg(vm, l) == Int(x) && Reg(vm, r) == Int(y)
    requires y != 0 ==> IsQuotient(x, y, q, m)
    ensures var vm' := B.Step(fs, vm);
            (op == 7 ==> if y == 0 then Stops(vm, vm', DivisionByZero) else Gives(vm, vm', dst, q, 4)) &&
            (op == 8 ==>
               if y == 0 then Stops(vm, vm', ModuloByZero)
               else if -0x8000_0000_0000_0000 <= q <= 0x7FFF_FFFF_FFFF_FFFF then Writes(vm, vm', dst, Int(m), 4)
               else Stops(vm, vm', IntegerOverflow))
  {
    hide Reads, B.Step, TruncDiv, TruncMod;
    if op in {7, 8} { OperatorStep(fs, vm, op, dst, l, r); }
    if y != 0 { QuotientIs(x, y, q, m); }
  }

  lemma ComparisonStep(fs: seq<B.FuncObject>, vm: B.Vm, op: byte, dst: byte, l: byte, r: byte, x: int, y: int)
    requires ThreeRegs(fs, vm, op, dst, l, r) && Reg(vm, l) == Int(x) && Reg(vm, r) == Int(y)
    ensures var vm' := B.Step(fs, vm);
            (op == 21 ==> Writes(vm, vm', dst, Bool(x == y), 4)) &&
            (op == 22 ==> Writes(vm, vm', dst, Bool(x != y), 4)) &&
            (op == 23 ==> Writes(vm, vm', dst, Bool(x < y), 4)) &&
            (op == 24 ==> Writes(vm, vm', dst, Bool(x > y), 4)) &&
            (op == 25 ==> Writes(vm, vm', dst, Bool(x <= y), 4)) &&
            (op == 26 ==> Writes(vm, vm', dst, Bool(x >= y), 4))
  {
    hide Reads, B.Step;
    if 21 <= op <= 26 { OperatorStep(fs, vm, op, dst, l, r); }
  }

  /** Arithmetic and comparisons take integers only. */
  lemma OperandGuard(fs: seq<B.FuncObject>, vm: B.Vm, op: byte, dst: byte, l: byte, r: byte)
    requires ThreeRegs(fs, vm, op, dst, l, r) && (4 <= op <= 8 || 21 <= op <= 26)
    ensures Stops(vm, B.Step(fs, vm), OperandType) <==> !Reg(vm, l).Int? || !Reg(vm, r).Int?
  {
    hide Reads, B.Step, TruncDiv, TruncMod;
    OperatorStep(fs, vm, op, dst, l, r);
  }

  lemma LogicStep(fs: seq<B.FuncObject>, vm: B.Vm, op: byte, dst: byte, l: byte, r: byte)
    requires ThreeRegs(fs, vm, op, dst, l, r)
    ensures var vm', x, y := B.Step(fs, vm), Reg(vm, l), Reg(vm, r);
            (op == 46 ==> Writes(vm, vm', dst, Bool(CountsTrue(x) && CountsTrue(y)), 4)) &&
            (op == 47 ==> Writes(vm, vm', dst, Bool(CountsTrue(x) || CountsTrue(y)), 4))
  {
    hide Reads, B.Step;
    if op in {46, 47} { OperatorStep(fs, vm, op, dst, l, r); }
  }

  lemma UnaryStep(fs: seq<B.FuncObject>, vm: B.Vm, op: byte, dst: byte, src: byte)
    requires Reads(fs, vm, [op, dst, src]) && HasReg(vm, dst) && HasReg(vm, src)
    ensures var vm', x := B.Step(fs, vm), Reg(vm, src);
            (op == 58 ==> Writes(vm, vm', dst, Bool(x == Nil || x == Bool(false) || x == Int(0)), 3)) &&
            (op == 60 ==> if x.Int? then Gives(vm, vm', dst, -x.i, 3) else Stops(vm, vm', OperandType)) &&
            (op == 107 ==> Writes(vm, vm', dst, x, 3))
  {
    hide Reads, B.Step;
    if op in {58, 60, 107} { StepIs(fs, vm, [op, dst, src]); }
  }

  // ----- constants and globals -----

  /** One byte, or two with the high one first. */
  ghost predicate IsIndex(bytes: seq<byte>, k: nat) {
    (|bytes| == 1 && k == bytes[0]) || (|bytes| == 2 && k == (bytes[0] as nat) * 256 + bytes[1])
  }

  lemma ConstantStep(fs: seq<B.FuncObject>, vm: B.Vm, dst: byte, index: seq<byte>, k: nat)
    requires IsIndex(index, k) && Reads(fs, vm, [if |index| == 1 then 105 else 106, dst] + index) && HasReg(vm, dst)
    ensures var vm', cs := B.Step(fs, vm), fs[vm.state.top.fn].constants;
            if k < |cs| then Writes(vm, vm', dst, cs[k], 2 + |index|) else Stops(vm, vm', ConstantOutOfRange)
  {
    hide Reads, B.Step;
    StepIs(fs, vm, [if |index| == 1 then 105 else 106, dst] + index);
  }

  /** A global is looked up in the module that runs, under the id that the constant holds. */
  lemma GlobalStep(fs: seq<B.FuncObject>, vm: B.Vm, dst: byte, index: seq<byte>, k: nat)
    requires IsIndex(index, k) && Reads(fs, vm, [if |index| == 1 then 81 else 82, dst] + index) && HasReg(vm, dst)
    ensures var vm', cs := B.Step(fs, vm), fs[vm.state.top.fn].constants;
            if k >= |cs| then Stops(vm, vm', ConstantOutOfRange)
            else if !cs[k].Int? then Stops(vm, vm', InvalidDefinition)
            else
              var key := B.GlobalKey(vm.moduleId, cs[k].i % 0x1_0000_0000);
              if key in vm.globals then Writes(vm, vm', dst, Function(vm.globals[key]), 2 + |index|)
              else Stops(vm, vm', UndefinedGlobal)
  {
    hide Reads, B.Step;
    StepIs(fs, vm, [if |index| == 1 then 81 else 82, dst] + index);
  }

  lemma DefineStep(fs: seq<B.FuncObject>, vm: B.Vm, index: seq<byte>, k: nat)
    requires IsIndex(index, k) && Reads(fs, vm, [if |index| == 1 then 79 else 80] + index)
    ensures var vm', cs := B.Step(fs, vm), fs[vm.state.top.fn].constants;
            if k >= |cs| then Stops(vm, vm', ConstantOutOfRange)
            else if !cs[k].Function? || cs[k].id >= |fs| then Stops(vm, vm', InvalidDefinition)
            else
              var key := B.GlobalKey(vm.moduleId, fs[cs[k].id].name);
              Goes(vm.(globals := vm.globals[key := cs[k].id]), vm', vm.state.top.pc + 1 + |index|, |fs[vm.state.top.fn].code|)
  {
    hide Reads, B.Step;
    StepIs(fs, vm, [if |index| == 1 then 79 else 80] + index);
  }

  // ----- jumps -----

  lemma JumpStep(fs: seq<B.FuncObject>, vm: B.Vm, op: byte, high: byte, low: byte)
    requires Reads(fs, vm, [op, high, low])
    ensures var vm', next, n, size := B.Step(fs, vm), vm.state.top.pc + 3, 256 * high + low, |fs[vm.state.top.fn].code|;
            (op == 66 ==> Goes(vm, vm', next + n, size)) && (op == 67 ==> Goes(vm, vm', next - n, size))
  {
    hide Reads, B.Step;
    if op in {66, 67} { StepIs(fs, vm, [op, high, low]); }
  }

  lemma BranchStep(fs: seq<B.FuncObject>, vm: B.Vm, cond: byte, high: byte, low: byte)
    requires Reads(fs, vm, [68, cond, high, low]) && HasReg(vm, cond)
    ensures var vm', next, n, size := B.Step(fs, vm), vm.state.top.pc + 4, 256 * high + low, |fs[vm.state.top.fn].code|;
            Goes(vm, vm', if Taken(Reg(vm, cond)) then next + n else next, size)
  {
    hide Reads, B.Step;
    StepIs(fs, vm, [68, cond, high, low]);
  }

  // ----- calls -----

  /** Registers a function asks for; 0 means that it did not say. */
  function Slots(f: B.FuncObject): nat {
    if f.maxRegisters == 0 then 256 else f.maxRegisters
  }

  lemma CallStep(fs: seq<B.FuncObject>, vm: B.Vm, out: byte, callee: byte, start: byte, argc: byte)
    requires Reads(fs, vm, [72, out, callee, start, argc]) && HasReg(vm, callee)
    ensures var vm', st, c := B.Step(fs, vm), vm.state, Reg(vm, callee);
            var base := st.top.base + start;
            if !c.Function? || c.id >= |fs| then Stops(vm, vm', NotCallable)
            else if argc != fs[c.id].arity then Stops(vm, vm', ArityMismatch)
            else if |st.callers| == 255 then Stops(vm, vm', StackOverflow)
            else if base + argc > 8192 || base + Slots(fs[c.id]) > 8192 then Stops(vm, vm', WindowOverflow)
            else vm' == vm.(state := Running(st.stack, Frame(c.id, 0, base, out), st.callers + [st.top.(pc := st.top.pc + 5)]))
  {
    hide Reads, B.Step;
    StepIs(fs, vm, [72, out, callee, start, argc]);
  }

  lemma ReturnStep(fs: seq<B.FuncObject>, vm: B.Vm)
    requires Reads(fs, vm, [74]) && HasReg(vm, 0)
    requires var st := vm.state; st.callers != [] ==> st.callers[|st.callers| - 1].base + st.top.out < |st.stack|
    ensures var vm', st := B.Step(fs, vm), vm.state;
            vm' == vm.(state :=
              if st.callers == [] then Halted(Finished(Reg(vm, 0)))
              else
                var n := |st.callers| - 1;
                Running(st.stack[st.callers[n].base + st.top.out := Reg(vm, 0)], st.callers[n], st.callers[..n]))
  {
    hide Reads, B.Step;
    StepIs(fs, vm, [74]);
  }

  /** Every other byte is refused. */
  lemma OtherStep(fs: seq<B.FuncObject>, vm: B.Vm, op: byte)
    requires Reads(fs, vm, [op])
    requires op !in {4, 5, 6, 7, 8, 21, 22, 23, 24, 25, 26, 46, 47, 58, 60, 66, 67, 68, 72, 74, 79, 80, 81, 82, 105, 106, 107}
    ensures Stops(vm, B.Step(fs, vm), UnknownOpcode)
  {
    assert fs[vm.state.top.fn].code[vm.state.top.pc] == [op][0];
  }
}
