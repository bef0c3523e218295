/**
 The register file with sliding windows, shared by the IR machine and the byte code VM.
 `P` is the machine's notion of a code position.
 */
module Machine {
  import opened Values

  /** Slots of the register file and depth of the call stack. */
  const STACK_CAPACITY: nat := 8192
  const MAX_FRAMES: nat := 256

  /** One activation: logical register r is `stack[base + r]`; `out` is the register of the
      caller that receives the result. */
  datatype Frame<P> = Frame(fn: nat, pc: P, base: nat, out: nat)

  datatype End = Finished(v: Value) | Faulted(f: Fault)

  datatype State<P> =
    | Running(stack: seq<Value>, top: Frame<P>, callers: seq<Frame<P>>)
    | Halted(end: End)

  /** What a call site may learn about a function. */
  datatype Signature = Signature(arity: nat, slots: nat)

  /** Effects confined to the current window. */
  datatype RegOp =
    | Load(dst: nat, v: Value)
    | Copy(dst: nat, src: nat)
    | Arith(op: BinOp, dst: nat, left: nat, right: nat)
    | Negate(dst: nat, src: nat)
    | Invert(dst: nat, src: nat)
    | Global(dst: nat, name: NameId)

  predicate InFile(stack: seq<Value>, base: nat, r: nat) {
    base + r < |stack|
  }

  /** The operation names no slot beyond the register file. */
  predicate OpInFile(op: RegOp, stack: seq<Value>, base: nat) {
    InFile(stack, base, op.dst) &&
    match op
    case Load(_, _) => true
    case Copy(_, s) => InFile(stack, base, s)
    case Arith(_, _, l, r) => InFile(stack, base, l) && InFile(stack, base, r)
    case Negate(_, s) => InFile(stack, base, s)
    case Invert(_, s) => InFile(stack, base, s)
    case Global(_, _) => true
  }

  function OpValue(op: RegOp, stack: seq<Value>, base: nat, globals: map<NameId, nat>): Result<Value>
    requires OpInFile(op, stack, base)
  {
    match op
    case Load(_, v) => Ok(v)
    case Copy(_, s) => Ok(stack[base + s])
    case Arith(o, _, l, r) => ApplyBin(o, stack[base + l], stack[base + r])
    case Negate(_, s) => ApplyUn(Minus, stack[base + s])
    case Invert(_, s) => ApplyUn(Bang, stack[base + s])
    case Global(_, x) => if x in globals then Ok(Function(globals[x])) else Err(UndefinedGlobal)
  }

  /** Executes a window operation and moves on to `next`. */
  function Apply<P>(op: RegOp, st: State<P>, globals: map<NameId, nat>, next: P): State<P>
    requires st.Running?
  {
    if OpInFile(op, st.stack, st.top.base) then
      match OpValue(op, st.stack, st.top.base, globals)
      case Ok(v) => Running(st.stack[st.top.base + op.dst := v], st.top.(pc := next), st.callers)
      case Err(f) => Halted(Faulted(f))
    else Halted(Faulted(RegisterOutOfRange))
  }

  /** Opens a window on the callee whose register 0 is the caller's first argument slot. */
  function EnterCall<P>(st: State<P>, sigs: seq<Signature>, out: nat, callee: nat, argStart: nat, argc: nat,
                        next: P, entry: P): State<P>
    requires st.Running?
  {
    if !InFile(st.stack, st.top.base, callee) then Halted(Faulted(RegisterOutOfRange)) else
    var c := st.stack[st.top.base + callee];
    if !c.Function? || c.id >= |sigs| then Halted(Faulted(NotCallable))
    else if argc != sigs[c.id].arity then Halted(Faulted(ArityMismatch))
    else if |st.callers| + 1 == MAX_FRAMES then Halted(Faulted(StackOverflow))
    else
      var newBase := st.top.base + argStart;
      if newBase + argc > STACK_CAPACITY || newBase + sigs[c.id].slots > STACK_CAPACITY
      then Halted(Faulted(WindowOverflow))
      else Running(st.stack, Frame(c.id, entry, newBase, out), st.callers + [st.top.(pc := next)])
  }

  /** Returns register 0 of the current window to the caller, or ends the run. */
  function LeaveCall<P>(st: State<P>): State<P>
    requires st.Running?
  {
    if !InFile(st.stack, st.top.base, 0) then Halted(Faulted(RegisterOutOfRange)) else
    var v := st.stack[st.top.base];
    if st.callers == [] then Halted(Finished(v))
    else
      var n := |st.callers| - 1;
      var caller := st.callers[n];
      if !InFile(st.stack, caller.base, st.top.out) then Halted(Faulted(RegisterOutOfRange))
      else Running(st.stack[caller.base + st.top.out := v], caller, st.callers[..n])
  }
}
