/**
 The byte code of the register VM and its fetch-decode-execute step: operand bytes,
 big-endian 16-bit immediates, relative jumps, the constant pool and the global table.
 */
module Bytecode {
  import opened Values
  import opened Machine

  type byte = b: nat | b < 256

  const OP_IADD: byte := 4
  const OP_ISUB: byte := 5
  const OP_IMUL: byte := 6
  const OP_IDIV: byte := 7
  const OP_IMOD: byte := 8
  const OP_IEQ: byte := 21
  const OP_INE: byte := 22
  const OP_ILT: byte := 23
  const OP_IGT: byte := 24
  const OP_ILE: byte := 25
  const OP_IGE: byte := 26
  const OP_AND: byte := 46
  const OP_OR: byte := 47
  const OP_NOT: byte := 58
  const OP_NEG: byte := 60
  const OP_JMP: byte := 66
  const OP_LOOP: byte := 67
  const OP_JNZ: byte := 68
  const OP_CALL: byte := 72
  const OP_RETURN: byte := 74
  const OP_DEFINE_GLOBAL: byte := 79
  const OP_DEFINE_GLOBAL_W: byte := 80
  const OP_GET_GLOBAL: byte := 81
  const OP_GET_GLOBAL_W: byte := 82
  const OP_LOAD_CONST: byte := 105
  const OP_LOAD_CONST_W: byte := 106
  const OP_MOVE: byte := 107

  const U16_MAX: nat := 0xFFFF

  /** A function object: its byte code and what a caller has to know. */
  datatype FuncObject =
    FuncObject(name: NameId, arity: byte, maxRegisters: nat, code: seq<byte>, constants: seq<Value>)

  /** A decoded instruction. */
  datatype Instr =
    | Window(op: RegOp)
    | Call(out: byte, callee: byte, argStart: byte, argc: byte)
    | Return
    | Forward(offset: nat)
    | Backward(offset: nat)
    | ForwardIf(cond: byte, offset: nat)
    | DefineGlobal(v: Value)

  datatype Fetched = Fetched(instr: Instr, next: nat)

  datatype GlobalKey = GlobalKey(moduleId: nat, name: NameId)

  /** The VM: its running state and the global function table, whose entries are numbers
      of function objects.  `moduleId` is the module of the chunk being executed. */
  datatype Vm = Vm(state: State<nat>, globals: map<GlobalKey, nat>, moduleId: nat)

  function BinOfOpcode(b: byte): Option<BinOp> {
    if b == OP_IADD then Some(Add)
    else if b == OP_ISUB then Some(Sub)
    else if b == OP_IMUL then Some(Mul)
    else if b == OP_IDIV then Some(Div)
    else if b == OP_IMOD then Some(Mod)
    else if b == OP_IEQ then Some(Eq)
    else if b == OP_INE then Some(Ne)
    else if b == OP_ILT then Some(Lt)
    else if b == OP_IGT then Some(Gt)
    else if b == OP_ILE then Some(Le)
    else if b == OP_IGE then Some(Ge)
    else if b == OP_AND then Some(And)
    else if b == OP_OR then Some(Or)
    else None
  }

  /** Operand bytes of the opcodes this model executes. */
  function OperandBytes(b: byte): Option<nat> {
    if BinOfOpcode(b).Some? then Some(3)
    else if b in {OP_LOAD_CONST, OP_GET_GLOBAL, OP_MOVE, OP_NEG, OP_NOT, OP_JMP, OP_LOOP, OP_DEFINE_GLOBAL_W} then Some(2)
    else if b in {OP_LOAD_CONST_W, OP_GET_GLOBAL_W, OP_JNZ} then Some(3)
    else if b == OP_DEFINE_GLOBAL then Some(1)
    else if b == OP_CALL then Some(4)
    else if b == OP_RETURN then Some(0)
    else None
  }

  /** A big-endian 16-bit immediate. */
  function Short(high: byte, low: byte): (n: nat)
    ensures n <= U16_MAX
  {
    high * 256 + low
  }

  function ConstantAt(constants: seq<Value>, index: nat): Result<Value> {
    if index < |constants| then Ok(constants[index]) else Err(ConstantOutOfRange)
  }

  /** Reads the instruction at `ip`; every read past the end of the code is refused. */
  function Fetch(f: FuncObject, ip: nat): Result<Fetched> {
    if ip >= |f.code| then Err(BytecodeTruncated) else
    var op := f.code[ip];
    if OperandBytes(op).None? then Err(UnknownOpcode) else
    var next := ip + 1 + OperandBytes(op).value;
    if next > |f.code| then Err(BytecodeTruncated) else
    match Decode(f.constants, op, f.code[ip + 1..next])
    case Ok(i) => Ok(Fetched(i, next))
    case Err(e) => Err(e)
  }

  function Decode(constants: seq<Value>, op: byte, args: seq<byte>): Result<Instr>
    requires OperandBytes(op) == Some(|args|)
  {
    if BinOfOpcode(op).Some? then Ok(Window(Arith(BinOfOpcode(op).value, args[0], args[1], args[2])))
    else if op == OP_LOAD_CONST then LoadConst(constants, args[0], args[1])
    else if op == OP_LOAD_CONST_W then LoadConst(constants, args[0], Short(args[1], args[2]))
    else if op == OP_GET_GLOBAL then GetGlobal(constants, args[0], args[1])
    else if op == OP_GET_GLOBAL_W then GetGlobal(constants, args[0], Short(args[1], args[2]))
    else if op == OP_DEFINE_GLOBAL then Define(constants, args[0])
    else if op == OP_DEFINE_GLOBAL_W then Define(constants, Short(args[0], args[1]))
    else if op == OP_MOVE then Ok(Window(Copy(args[0], args[1])))
    else if op == OP_NEG then Ok(Window(Negate(args[0], args[1])))
    else if op == OP_NOT then Ok(Window(Invert(args[0], args[1])))
    else if op == OP_JMP then Ok(Forward(Short(args[0], args[1])))
    else if op == OP_LOOP then Ok(Backward(Short(args[0], args[1])))
    else if op == OP_JNZ then Ok(ForwardIf(args[0], Short(args[1], args[2])))
    else if op == OP_CALL then Ok(Call(args[0], args[1], args[2], args[3]))
    else Ok(Return)
  }

  function LoadConst(constants: seq<Value>, dst: byte, index: nat): Result<Instr> {
    match ConstantAt(constants, index)
    case Ok(v) => Ok(Window(Load(dst, v)))
    case Err(e) => Err(e)
  }

  /** The name id is the constant's integer payload cut to 32 bits. */
  function GetGlobal(constants: seq<Value>, dst: byte, index: nat): Result<Instr> {
    match ConstantAt(constants, index)
    case Ok(v) => if v.Int? then Ok(Window(Global(dst, v.i % 0x1_0000_0000))) else Err(InvalidDefinition)
    case Err(e) => Err(e)
  }

  function Define(constants: seq<Value>, index: nat): Result<Instr> {
    match ConstantAt(constants, index)
    case Ok(v) => Ok(DefineGlobal(v))
    case Err(e) => Err(e)
  }

  /** One or two bytes after the destination name constant `k`. */
  predicate Names(args: seq<byte>, k: nat) {
    (|args| == 2 && k == args[1]) || (|args| == 3 && k == Short(args[1], args[2]))
  }

  lemma DecodeConstant(constants: seq<Value>, args: seq<byte>, k: nat)
    requires Names(args, k)
    ensures var op := if |args| == 2 then OP_LOAD_CONST else OP_LOAD_CONST_W;
            OperandBytes(op) == Some(|args|) && Decode(constants, op, args) == LoadConst(constants, args[0], k)
  {
  }

  lemma DecodeGlobal(constants: seq<Value>, args: seq<byte>, k: nat)
    requires Names(args, k)
    ensures var op := if |args| == 2 then OP_GET_GLOBAL else OP_GET_GLOBAL_W;
            OperandBytes(op) == Some(|args|) && Decode(constants, op, args) == GetGlobal(constants, args[0], k)
  {
  }

  lemma DecodeDefine(constants: seq<Value>, args: seq<byte>, k: nat)
    requires (|args| == 1 && k == args[0]) || (|args| == 2 && k == Short(args[0], args[1]))
    ensures var op := if |args| == 1 then OP_DEFINE_GLOBAL else OP_DEFINE_GLOBAL_W;
            OperandBytes(op) == Some(|args|) && Decode(constants, op, args) == Define(constants, k)
  {
  }

  lemma JumpOperands()
    ensures OperandBytes(OP_JMP) == OperandBytes(OP_LOOP) == Some(2) && OperandBytes(OP_JNZ) == Some(3)
  {
  }

  lemma DecodeJump(constants: seq<Value>, args: seq<byte>)
    ensures |args| == 2 ==>
              OperandBytes(OP_JMP) == OperandBytes(OP_LOOP) == Some(2) &&
              Decode(constants, OP_JMP, args) == Ok(Forward(Short(args[0], args[1]))) &&
              Decode(constants, OP_LOOP, args) == Ok(Backward(Short(args[0], args[1])))
    ensures |args| == 3 ==>
              OperandBytes(OP_JNZ) == Some(3) &&
              Decode(constants, OP_JNZ, args) == Ok(ForwardIf(args[0], Short(args[1], args[2])))
  {
  }

  // ----- one step -----

  /** 0 registers means "unknown": a full window is reserved. */
  function ObjectSignature(f: FuncObject): Signature {
    Signature(f.arity, if f.maxRegisters == 0 then 256 else f.maxRegisters)
  }

  function ObjectSignatures(fs: seq<FuncObject>): (sigs: seq<Signature>)
    ensures |sigs| == |fs| && forall i | 0 <= i < |fs| :: sigs[i] == ObjectSignature(fs[i])
  {
    seq(|fs|, i requires 0 <= i < |fs| => ObjectSignature(fs[i]))
  }

  /** The part of the global table that code of module `moduleId` sees. */
  function Visible(globals: map<GlobalKey, nat>, moduleId: nat): (r: map<NameId, nat>)
    ensures forall x :: x in r <==> GlobalKey(moduleId, x) in globals
    ensures forall x <- r :: r[x] == globals[GlobalKey(moduleId, x)]
  {
    map k | k in globals && k.moduleId == moduleId :: k.name := globals[k]
  }

  function Step(fs: seq<FuncObject>, vm: Vm): Vm {
    if vm.state.Halted? then vm
    else if vm.state.top.fn >= |fs| then vm.(state := Halted(Faulted(MissingInstruction)))
    else
      match Fetch(fs[vm.state.top.fn], vm.state.top.pc)
      case Err(e) => vm.(state := Halted(Faulted(e)))
      case Ok(f) => Exec(fs, vm, |fs[vm.state.top.fn].code|, f.instr, f.next)
  }

  /** Executes a decoded instruction of a function with `size` code bytes. */
  function Exec(fs: seq<FuncObject>, vm: Vm, size: nat, i: Instr, next: nat): Vm
    requires vm.state.Running?
  {
    var st := vm.state;
    match i
    case Window(op) => vm.(state := Apply(op, st, Visible(vm.globals, vm.moduleId), next))
    case Call(out, callee, argStart, argc) =>
      vm.(state := EnterCall(st, ObjectSignatures(fs), out, callee, argStart, argc, next, 0))
    case Return => vm.(state := LeaveCall(st))
    case Forward(n) => vm.(state := JumpTo(st, next + n, size))
    case Backward(n) => vm.(state := JumpTo(st, next - n, size))
    case ForwardIf(c, n) =>
      if !InFile(st.stack, st.top.base, c) then vm.(state := Halted(Faulted(RegisterOutOfRange)))
      else if BranchTruth(st.stack[st.top.base + c]) then vm.(state := JumpTo(st, next + n, size))
      else vm.(state := JumpTo(st, next, size))
    case DefineGlobal(v) =>
      if v.Function? && v.id < |fs| then
        vm.(state := JumpTo(st, next, size), globals := vm.globals[GlobalKey(vm.moduleId, fs[v.id].name) := v.id])
      else vm.(state := Halted(Faulted(InvalidDefinition)))
  }

  /** A jump may go to the end of the code, but neither beyond it nor before its start. */
  function JumpTo(st: State<nat>, target: int, size: nat): State<nat>
    requires st.Running?
  {
    if 0 <= target <= size then st.(top := st.top.(pc := target)) else Halted(Faulted(JumpOutOfRange))
  }

  function Run(fs: seq<FuncObject>, vm: Vm, n: nat): Vm
    decreases n
  {
    if n == 0 then vm else Run(fs, Step(fs, vm), n - 1)
  }

  /** The registers in the last running state within `n` steps. */
  function LastStack(fs: seq<FuncObject>, vm: Vm, n: nat): seq<Value>
    requires vm.state.Running?
    decreases n
  {
    if n == 0 || Step(fs, vm).state.Halted? then vm.state.stack else LastStack(fs, Step(fs, vm), n - 1)
  }

  /** It is the state that the steps end in, or the one whose step halts the machine. */
  lemma {:induction false} LastStackAt(fs: seq<FuncObject>, vm: Vm, k: nat, n: nat)
    requires vm.state.Running? && Run(fs, vm, k).state.Running? && k <= n
    requires k == n || Step(fs, Run(fs, vm, k)).state.Halted?
    ensures LastStack(fs, vm, n) == Run(fs, vm, k).state.stack
    decreases n
  {
    hide Step;
    if k > 0 {
      if Step(fs, vm).state.Halted? { RunHalted(fs, Step(fs, vm), k - 1); }
      LastStackAt(fs, Step(fs, vm), k - 1, n - 1);
    }
  }

  lemma RunOne(fs: seq<FuncObject>, vm: Vm)
    ensures Run(fs, vm, 1) == Step(fs, vm)
  {
    hide Step;
  }

  lemma {:induction false} RunSplit(fs: seq<FuncObject>, vm: Vm, a: nat, b: nat)
    ensures Run(fs, vm, a + b) == Run(fs, Run(fs, vm, a), b)
    decreases a
  {
    if a > 0 { RunSplit(fs, Step(fs, vm), a - 1, b); }
  }

  lemma {:induction false} RunHalted(fs: seq<FuncObject>, vm: Vm, n: nat)
    requires vm.state.Halted?
    ensures Run(fs, vm, n) == vm
    decreases n
  {
    if n > 0 { RunHalted(fs, vm, n - 1); }
  }
}
