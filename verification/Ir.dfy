/**
 The IR: typed rows of the instruction table, basic blocks and functions, and the
 small-step machine that gives them their meaning.
 */
module Ir {
  import opened Values
  import opened Machine

  type Reg = nat
  type BlockId = nat

  datatype Inst =
    | Constant(dst: Reg, v: Value)
    | Move(dst: Reg, src: Reg)
    | Bin(op: BinOp, dst: Reg, left: Reg, right: Reg)
    | Neg(dst: Reg, src: Reg)
    | LogicNot(dst: Reg, src: Reg)
    | LoadGlobal(dst: Reg, name: NameId)
    | Call(dst: Reg, callee: Reg, argStart: Option<Reg>, argc: nat)
    | Return(value: Option<Reg>)
    | Jump(target: BlockId)
    | Branch(cond: Reg, onTrue: BlockId, onFalse: BlockId)

  predicate IsTerminator(i: Inst) {
    i.Jump? || i.Branch? || i.Return?
  }

  /** The virtual registers an instruction names. */
  function Regs(i: Inst): set<Reg> {
    match i
    case Constant(d, _) => {d}
    case Move(d, s) => {d, s}
    case Bin(_, d, l, r) => {d, l, r}
    case Neg(d, s) => {d, s}
    case LogicNot(d, s) => {d, s}
    case LoadGlobal(d, _) => {d}
    case Call(d, c, a, _) => if a.Some? then {d, c, a.value} else {d, c}
    case Return(v) => if v.Some? then {v.value} else {}
    case Jump(_) => {}
    case Branch(c, _, _) => {c}
  }

  function Targets(i: Inst): set<BlockId> {
    match i
    case Jump(t) => {t}
    case Branch(_, t, f) => {t, f}
    case _ => {}
  }

  /** An instruction that only touches the current window. */
  function AsRegOp(i: Inst): Option<RegOp> {
    match i
    case Constant(d, v) => Some(Load(d, v))
    case Move(d, s) => Some(Copy(d, s))
    case Bin(op, d, l, r) => Some(Arith(op, d, l, r))
    case Neg(d, s) => Some(Negate(d, s))
    case LogicNot(d, s) => Some(Invert(d, s))
    case LoadGlobal(d, x) => Some(Global(d, x))
    case _ => None
  }

  type Code = seq<seq<Inst>>

  /** A function as its control-flow graph: the instructions of each block, by block id. */
  datatype Func = Func(arity: nat, nregs: nat, blocks: Code)

  datatype Module = Module(funcs: seq<Func>, globals: map<NameId, nat>)

  // ----- IR machine -----

  datatype Point = Point(block: BlockId, index: nat)

  type IrState = State<Point>

  const ENTRY := Point(0, 0)

  /** A register count of 0 means "unknown": the VM reserves a full window then. */
  function Slots(nregs: nat): nat {
    var n := nregs % 0x1_0000;
    if n == 0 then 256 else n
  }

  function SignatureOf(f: Func): Signature {
    Signature(f.arity, Slots(f.nregs))
  }

  function Signatures(fs: seq<Func>): (sigs: seq<Signature>)
    ensures |sigs| == |fs| && forall i | 0 <= i < |fs| :: sigs[i] == SignatureOf(fs[i])
  {
    seq(|fs|, i requires 0 <= i < |fs| => SignatureOf(fs[i]))
  }

  predicate HasInst(m: Module, fn: nat, pc: Point) {
    fn < |m.funcs| && pc.block < |m.funcs[fn].blocks| && pc.index < |m.funcs[fn].blocks[pc.block]|
  }

  function InstAt(m: Module, fn: nat, pc: Point): Inst
    requires HasInst(m, fn, pc)
  {
    m.funcs[fn].blocks[pc.block][pc.index]
  }

  function Next(pc: Point): Point {
    pc.(index := pc.index + 1)
  }

  function Step(m: Module, st: IrState): IrState {
    if st.Halted? then st
    else if !HasInst(m, st.top.fn, st.top.pc) then Halted(Faulted(MissingInstruction))
    else ExecInst(m, st, InstAt(m, st.top.fn, st.top.pc))
  }

  /** `Return r` first moves r to register 0, where the return protocol expects it. */
  function ExecInst(m: Module, st: IrState, i: Inst): IrState
    requires st.Running?
  {
    match i
    case Jump(t) => st.(top := st.top.(pc := Point(t, 0)))
    case Branch(c, t, f) =>
      if !InFile(st.stack, st.top.base, c) then Halted(Faulted(RegisterOutOfRange))
      else if BranchTruth(st.stack[st.top.base + c]) then st.(top := st.top.(pc := Point(t, 0)))
      else st.(top := st.top.(pc := Point(f, 0)))
    case Call(d, c, a, n) =>
      EnterCall(st, Signatures(m.funcs), d, c, if a.Some? then a.value else 0, n, Next(st.top.pc), ENTRY)
    case Return(None) => LeaveCall(st)
    case Return(Some(r)) =>
      var moved := Apply(Copy(0, r), st, m.globals, st.top.pc);
      if moved.Halted? then moved else LeaveCall(moved)
    case _ => Apply(AsRegOp(i).value, st, m.globals, Next(st.top.pc))
  }

  function Run(m: Module, st: IrState, n: nat): IrState
    decreases n
  {
    if n == 0 then st else Run(m, Step(m, st), n - 1)
  }

  lemma {:induction false} RunSplit(m: Module, st: IrState, a: nat, b: nat)
    ensures Run(m, st, a + b) == Run(m, Run(m, st, a), b)
    decreases a
  {
    if a > 0 { RunSplit(m, Step(m, st), a - 1, b); }
  }

  lemma {:induction false} RunHalted(m: Module, st: IrState, n: nat)
    requires st.Halted?
    ensures Run(m, st, n) == st
    decreases n
  {
    if n > 0 { RunHalted(m, st, n - 1); }
  }
}
