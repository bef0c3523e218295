/**
 The VM runs lowered code exactly as the IR machine runs the functions it was lowered
 from: one or two VM steps for every IR step, in every reachable state.  From this follow
 control safety (no run ever meets malformed byte code) and the register-file bound.
 */
module LowerSim {
  import opened Values
  import opened Machine
  import opened Ir
  import opened BuildShape
  import opened Build
  import opened Lower
  import opened LowerLayout
  import opened LowerFetch
  import B = Bytecode

  /** `fs` are the code objects of the functions of `m`, all with 8-bit register numbers. */
  ghost predicate Lowered(m: Module, fs: seq<B.FuncObject>) {
    && |fs| == |m.funcs|
    && (forall i | 0 <= i < |fs| :: WellBuilt(m.funcs[i]) && m.funcs[i].nregs <= 256)
    && (forall i | 0 <= i < |fs| :: LowerFunc(fs[i].name, m.funcs[i]) == Some(fs[i]))
  }

  // ----- what every reachable state keeps -----

  function Frames<P>(st: State<P>): seq<Frame<P>>
    requires st.Running?
  {
    st.callers + [st.top]
  }

  /** The frame stands at an instruction and its window lies in the register file. */
  ghost predicate FrameOk(m: Module, f: Frame<Point>) {
    && f.fn < |m.funcs| && IsPoint(m.funcs[f.fn], f.pc)
    && f.base < STACK_CAPACITY && f.base + m.funcs[f.fn].nregs <= STACK_CAPACITY
  }

  ghost predicate Safe(m: Module, st: IrState) {
    if st.Halted? then st.end.Faulted? ==> !IsControlFault(st.end.f)
    else
      var fs := Frames(st);
      && |st.stack| == STACK_CAPACITY && |fs| <= MAX_FRAMES
      && (forall j | 0 <= j < |fs| :: FrameOk(m, fs[j]))
      && (forall j | 0 < j < |fs| :: fs[j - 1].base + fs[j].out < STACK_CAPACITY)
  }

  /** Where a well-built function stands at an instruction, its operands are in the window
      and its successors are instructions again. */
  lemma InstFacts(f: Func, pc: Point)
    requires WellBuilt(f) && IsPoint(f, pc)
    ensures var i := f.blocks[pc.block][pc.index];
            && InstOk(i, pc.block, |f.blocks|, f.nregs)
            && (IsTerminator(i) <==> pc.index == |f.blocks[pc.block]| - 1)
            && (!IsTerminator(i) ==> IsPoint(f, Next(pc)))
            && (forall t <- Targets(i) :: IsPoint(f, Point(t, 0)))
            && IsPoint(f, ENTRY)
  {
    assert BlockOk(f.blocks[pc.block], pc.block, |f.blocks|, f.nregs);
    assert EndsInTerminator(f.blocks[pc.block]);
    forall t <- Targets(f.blocks[pc.block][pc.index])
      ensures IsPoint(f, Point(t, 0))
    {
      assert EndsInTerminator(f.blocks[t]);
    }
    assert EndsInTerminator(f.blocks[0]);
  }

  lemma TopOk(m: Module, st: IrState)
    requires Safe(m, st) && st.Running?
    ensures FrameOk(m, st.top) && |st.stack| == STACK_CAPACITY && |st.callers| < MAX_FRAMES
    ensures forall f <- st.callers :: FrameOk(m, f)
    ensures st.callers != [] ==> st.callers[|st.callers| - 1].base + st.top.out < STACK_CAPACITY
  {
    hide FrameOk;
    var fs := Frames(st);
    assert fs[|fs| - 1] == st.top;
    forall f <- st.callers
      ensures FrameOk(m, f)
    {
      var j :| 0 <= j < |st.callers| && st.callers[j] == f;
      assert fs[j] == f;
    }
    if st.callers != [] { assert fs[|fs| - 2] == st.callers[|st.callers| - 1]; }
  }

  /** Only the top frame's position changes. */
  lemma MoveOn(m: Module, st: IrState, t: IrState, pc: Point)
    requires Safe(m, st) && st.Running? && t.Running? && |t.stack| == |st.stack|
    requires t.callers == st.callers && t.top == st.top.(pc := pc)
    requires HasInst(m, st.top.fn, pc)
    ensures Safe(m, t)
  {
    TopOk(m, st);
    var fs, gs := Frames(st), Frames(t);
    forall j | 0 <= j < |gs|
      ensures FrameOk(m, gs[j])
    {
      assert FrameOk(m, fs[j]);
    }
    forall j | 0 < j < |gs|
      ensures gs[j - 1].base + gs[j].out < STACK_CAPACITY
    {
      assert fs[j - 1].base + fs[j].out < STACK_CAPACITY;
    }
  }

  lemma ApplySafe(m: Module, st: IrState, op: RegOp, pc: Point)
    requires Safe(m, st) && st.Running? && HasInst(m, st.top.fn, pc)
    requires OpInFile(op, st.stack, st.top.base)
    ensures Safe(m, Apply(op, st, m.globals, pc))
  {
    hide Safe, HasInst;
    var t := Apply(op, st, m.globals, pc);
    if t.Running? { MoveOn(m, st, t, pc); } else { HaltSafe(m, t); }
  }

  lemma HaltSafe(m: Module, t: IrState)
    requires t.Halted? && (t.end.Faulted? ==> !IsControlFault(t.end.f))
    ensures Safe(m, t)
  {
  }

  lemma EnterSafe(m: Module, st: IrState, out: nat, callee: nat, argStart: nat, argc: nat)
    requires forall f <- m.funcs :: f.nregs <= 256 && IsPoint(f, ENTRY)
    requires Safe(m, st) && st.Running? && HasInst(m, st.top.fn, Next(st.top.pc))
    requires InFile(st.stack, st.top.base, callee) && st.top.base + out < STACK_CAPACITY
    ensures Safe(m, EnterCall(st, Signatures(m.funcs), out, callee, argStart, argc, Next(st.top.pc), ENTRY))
  {
    TopOk(m, st);
    hide FrameOk;
    var t := EnterCall(st, Signatures(m.funcs), out, callee, argStart, argc, Next(st.top.pc), ENTRY);
    if t.Halted? { return; }
    EnteredOk(m, t.top.fn, st.top.base + argStart, out);
    var fs, gs := Frames(st), Frames(t);
    NextOk(m, st.top);
    forall j | 0 <= j < |gs|
      ensures FrameOk(m, gs[j])
    {
      if j < |st.callers| { assert gs[j] == fs[j]; }
    }
    forall j | 0 < j < |gs|
      ensures gs[j - 1].base + gs[j].out < STACK_CAPACITY
    {
      if j < |fs| { assert fs[j - 1].base + fs[j].out < STACK_CAPACITY; }
    }
  }

  lemma NextOk(m: Module, f: Frame<Point>)
    requires FrameOk(m, f) && HasInst(m, f.fn, Next(f.pc))
    ensures FrameOk(m, f.(pc := Next(f.pc)))
  {
  }

  lemma EnteredOk(m: Module, fn: nat, base: nat, out: nat)
    requires fn < |m.funcs| && m.funcs[fn].nregs <= 256 && IsPoint(m.funcs[fn], ENTRY)
    requires base + SignatureOf(m.funcs[fn]).slots <= STACK_CAPACITY
    ensures FrameOk(m, Frame(fn, ENTRY, base, out))
  {
  }

  lemma LeaveSafe(m: Module, st: IrState)
    requires Safe(m, st) && st.Running?
    ensures Safe(m, LeaveCall(st))
  {
    TopOk(m, st);
    hide FrameOk;
    var t := LeaveCall(st);
    if t.Halted? { return; }
    var fs, gs := Frames(st), Frames(t);
    assert forall j | 0 <= j < |gs| :: gs[j] == fs[j];
  }

  ghost predicate AllWellBuilt(m: Module) {
    forall f <- m.funcs :: WellBuilt(f) && f.nregs <= 256
  }

  lemma EntryPoints(m: Module)
    requires AllWellBuilt(m)
    ensures forall f <- m.funcs :: f.nregs <= 256 && IsPoint(f, ENTRY)
  {
    forall f <- m.funcs
      ensures IsPoint(f, ENTRY)
    {
      assert EndsInTerminator(f.blocks[0]);
    }
  }

  /** Every register an instruction names is in the register file. */
  lemma OperandsInFile(m: Module, st: IrState)
    requires AllWellBuilt(m) && Safe(m, st) && st.Running?
    ensures HasInst(m, st.top.fn, st.top.pc)
    ensures forall r <- Regs(InstAt(m, st.top.fn, st.top.pc)) :: InFile(st.stack, st.top.base, r)
    ensures InFile(st.stack, st.top.base, 0)
  {
    hide WellBuilt, Safe;
    TopOk(m, st);
    assert m.funcs[st.top.fn] in m.funcs;
    InstFacts(m.funcs[st.top.fn], st.top.pc);
  }

  lemma OpInWindow(st: IrState, i: Inst)
    requires st.Running? && AsRegOp(i).Some? && forall r <- Regs(i) :: InFile(st.stack, st.top.base, r)
    ensures OpInFile(AsRegOp(i).value, st.stack, st.top.base)
  {
  }

  /** Safety is inductive: well-built functions never reach a control fault, never leave the
      register file and never exceed the frame limit. */
  lemma StepSafe(m: Module, st: IrState)
    requires AllWellBuilt(m) && Safe(m, st)
    ensures Safe(m, Step(m, st))
  {
    hide AllWellBuilt, Safe, WellBuilt, FrameOk, OpInFile, EnterCall, LeaveCall, Apply, SignatureOf;
    if st.Halted? { return; }
    OperandsInFile(m, st);
    Successors(m, st);
    var i := InstAt(m, st.top.fn, st.top.pc);
    match i
    case Jump(t) =>
      assert t in Targets(i);
      MoveOn(m, st, Step(m, st), Point(t, 0));
    case Branch(c, t, f) =>
      assert c in Regs(i) && t in Targets(i) && f in Targets(i);
      MoveOn(m, st, Step(m, st), Step(m, st).top.pc);
    case Call(d, c, a, n) =>
      assert c in Regs(i) && d in Regs(i);
      EntryPoints(m);
      SafeStack(m, st);
      EnterSafe(m, st, d, c, if a.Some? then a.value else 0, n);
    case Return(v) =>
      if v.None? { LeaveSafe(m, st); }
      else {
        assert v.value in Regs(i);
        ReturnSafe(m, st, v.value);
      }
    case _ =>
      OpInWindow(st, i);
      ApplySafe(m, st, AsRegOp(i).value, Next(st.top.pc));
  }

  lemma SafeStack(m: Module, st: IrState)
    requires Safe(m, st) && st.Running?
    ensures |st.stack| == STACK_CAPACITY
  {
    hide FrameOk;
  }

  lemma Successors(m: Module, st: IrState)
    requires AllWellBuilt(m) && Safe(m, st) && st.Running?
    ensures HasInst(m, st.top.fn, st.top.pc)
    ensures var i := InstAt(m, st.top.fn, st.top.pc);
            (!IsTerminator(i) ==> HasInst(m, st.top.fn, Next(st.top.pc))) &&
            (forall t <- Targets(i) :: HasInst(m, st.top.fn, Point(t, 0)))
  {
    hide WellBuilt, Safe;
    TopOk(m, st);
    assert m.funcs[st.top.fn] in m.funcs;
    InstFacts(m.funcs[st.top.fn], st.top.pc);
  }

  lemma ReturnSafe(m: Module, st: IrState, r: Reg)
    requires Safe(m, st) && st.Running? && HasInst(m, st.top.fn, st.top.pc)
    requires InFile(st.stack, st.top.base, r) && InFile(st.stack, st.top.base, 0)
    ensures var moved := Apply(Copy(0, r), st, m.globals, st.top.pc);
            moved.Running? && Safe(m, LeaveCall(moved)) && Safe(m, moved)
  {
    hide Safe, LeaveCall;
    ApplySafe(m, st, Copy(0, r), st.top.pc);
    LeaveSafe(m, Apply(Copy(0, r), st, m.globals, st.top.pc));
  }

  lemma {:induction false} RunSafe(m: Module, st: IrState, n: nat)
    requires AllWellBuilt(m) && Safe(m, st)
    ensures Safe(m, Run(m, st, n))
    decreases n
  {
    hide AllWellBuilt, Safe, Step;
    if n > 0 {
      StepSafe(m, st);
      RunSafe(m, Step(m, st), n - 1);
    }
  }

  // ----- the VM and the IR machine in lockstep -----

  ghost predicate FrameRel(m: Module, f: Frame<Point>, g: Frame<nat>) {
    HasInst(m, f.fn, f.pc) && g == Frame(f.fn, Address(m.funcs[f.fn], f.pc), f.base, f.out)
  }

  /** Same registers and same frames, each at the code address of its program point. */
  ghost predicate StateRel(m: Module, s: IrState, t: State<nat>) {
    if s.Halted? then t.Halted? && t.end == s.end
    else
      && t.Running? && t.stack == s.stack && FrameRel(m, s.top, t.top)
      && |t.callers| == |s.callers| && forall j | 0 <= j < |s.callers| :: FrameRel(m, s.callers[j], t.callers[j])
  }

  ghost predicate VmRel(m: Module, s: IrState, v: B.Vm) {
    StateRel(m, s, v.state) && B.Visible(v.globals, v.moduleId) == m.globals
  }

  /** VM steps that execute the next IR step. */
  function Cost(m: Module, s: IrState): nat {
    if s.Halted? || !HasInst(m, s.top.fn, s.top.pc) then 1
    else
      match InstAt(m, s.top.fn, s.top.pc)
      case Branch(c, _, _) => if InFile(s.stack, s.top.base, c) && !BranchTruth(s.stack[s.top.base + c]) then 2 else 1
      case Return(Some(r)) => if r != 0 then 2 else 1
      case _ => 1
  }

  /** In the middle of a two-step instruction no frame has been opened or closed. */
  ghost predicate SameDepth(s: IrState, t: State<nat>)
    requires s.Running?
  {
    t.Running? && |t.callers| == |s.callers| && |t.stack| == |s.stack|
  }

  ghost predicate StepMatched(m: Module, fs: seq<B.FuncObject>, s: IrState, v: B.Vm) {
    && VmRel(m, Step(m, s), B.Run(fs, v, Cost(m, s)))
    && (Cost(m, s) == 2 ==> s.Running? && SameDepth(s, B.Step(fs, v).state))
  }

  lemma TwoSteps(fs: seq<B.FuncObject>, v: B.Vm)
    ensures B.Run(fs, v, 2) == B.Step(fs, B.Step(fs, v))
  {
    hide B.Step;
  }

  /** What is known where the VM stands. */
  ghost predicate Here(m: Module, fs: seq<B.FuncObject>, s: IrState, i: Inst, at: nat, k: nat)
    requires s.Running?
  {
    && |fs| == |m.funcs| && HasInst(m, s.top.fn, s.top.pc) && i == InstAt(m, s.top.fn, s.top.pc)
    && var f, o := m.funcs[s.top.fn], fs[s.top.fn];
    && at == Address(f, s.top.pc) && Encodable(i) && TargetsReach(i, at, f) && ConstantIn(i, k, o.constants)
    && var enc := Encoded(i, at, k, Entries(f.blocks));
    && Holds(o.code, at, enc) && at + |enc| <= |o.code|
    && (!IsTerminator(i) ==> HasInst(m, s.top.fn, Next(s.top.pc)) && Address(f, Next(s.top.pc)) == at + |enc|)
    && (forall t <- Targets(i) :: HasInst(m, s.top.fn, Point(t, 0)) && Address(f, Point(t, 0)) == Entries(f.blocks)[t])
    && (i.Branch? ==> Entries(f.blocks)[i.onTrue] >= at + 7)
    && (forall t <- Targets(i) :: Entries(f.blocks)[t] <= |o.code|)
    && (i.Call? ==> i.argc <= 255)
  }

  lemma {:induction false} EmittedGrows(list: seq<Inst>, n: nat)
    requires n <= |list|
    ensures |Emitted(list[..n]).code| <= |Emitted(list).code|
    decreases |list|
  {
    if n == |list| { assert list[..n] == list; }
    else {
      var before := list[..|list| - 1];
      assert before[..n] == list[..n];
      EmittedGrows(before, n);
    }
  }

  /** Later blocks start behind everything in earlier ones. */
  lemma EntryAfter(f: Func, pc: Point, t: BlockId)
    requires IsPoint(f, pc) && pc.block < t < |f.blocks|
    ensures |Emitted(Before(f, pc) + [f.blocks[pc.block][pc.index]]).code| <= Entries(f.blocks)[t]
  {
    hide Emitted, Entries, Flat;
    var g := f.(blocks := f.blocks[..t]);
    assert g.blocks[..pc.block] == f.blocks[..pc.block];
    BeforePrefix(g, pc);
    var list := Flat(g.blocks);
    var here := Before(f, pc) + [f.blocks[pc.block][pc.index]];
    assert here == list[..|here|];
    EmittedGrows(list, |here|);
    EntryAt(f.blocks, t);
  }

  lemma EntryInCode(f: Func, t: BlockId, o: B.FuncObject)
    requires t < |f.blocks| && LowerFunc(o.name, f) == Some(o)
    ensures Entries(f.blocks)[t] <= |o.code|
  {
    hide Emitted, Entries, Flat, Lowerable, ApplyAll;
    EntryAt(f.blocks, t);
    FlatPrefix(f.blocks, t);
    var list := Flat(f.blocks);
    assert Flat(f.blocks[..t]) == list[..|Flat(f.blocks[..t])|];
    EmittedGrows(list, |Flat(f.blocks[..t])|);
    ObjectSize(o, f);
  }

  lemma ObjectSize(o: B.FuncObject, f: Func)
    requires LowerFunc(o.name, f) == Some(o)
    ensures |o.code| == |Emitted(Flat(f.blocks)).code|
  {
    hide Emitted, Entries, Flat, Lowerable;
  }

  lemma FewConstants(o: B.FuncObject, f: Func)
    requires WellBuilt(f) && f.nregs <= 256 && LowerFunc(o.name, f) == Some(o)
    ensures |o.constants| <= 256
  {
    hide Emitted, Flat, Lowerable, ApplyAll, Entries, CodeOk;
    ConstantsEmitted(f.blocks);
  }

  lemma EmittedLast(list: seq<Inst>, i: Inst)
    ensures Emitted(list + [i]).constants == Emitted(list).constants + ConstantsOf(i)
  {
    assert (list + [i])[..|list|] == list;
  }

  lemma AddressNext(f: Func, pc: Point)
    requires IsPoint(f, pc) && IsPoint(f, Next(pc))
    ensures Address(f, Next(pc)) == |Emitted(Before(f, pc) + [f.blocks[pc.block][pc.index]]).code|
  {
    hide Emitted, Flat;
    assert Before(f, Next(pc)) == Before(f, pc) + [f.blocks[pc.block][pc.index]];
  }

  lemma HereFacts(m: Module, fs: seq<B.FuncObject>, s: IrState, k: nat)
    requires Lowered(m, fs) && Safe(m, s) && s.Running? && HasInst(m, s.top.fn, s.top.pc)
    requires k == |Emitted(Before(m.funcs[s.top.fn], s.top.pc)).constants|
    ensures Here(m, fs, s, InstAt(m, s.top.fn, s.top.pc), Address(m.funcs[s.top.fn], s.top.pc), k)
  {
    hide WellBuilt, LowerFunc, Emitted, Encoded, Entries, Encodable, Before, Address, Flat, Safe;
    var f, o, pc := m.funcs[s.top.fn], fs[s.top.fn], s.top.pc;
    var i := InstAt(m, s.top.fn, pc);
    InstFacts(f, pc);
    CodeAt(f, pc, o);
    FewConstants(o, f);
    EmittedLast(Before(f, pc), i);
    if !IsTerminator(i) { AddressNext(f, pc); }
    forall t <- Targets(i)
      ensures HasInst(m, s.top.fn, Point(t, 0)) && Address(f, Point(t, 0)) == Entries(f.blocks)[t]
      ensures Entries(f.blocks)[t] <= |o.code|
    {
      BlockAddress(f, t);
      EntryInCode(f, t, o);
    }
    if i.Branch? {
      EntryAfter(f, pc, i.onTrue);
      BranchSize(i, Address(f, pc), k, Entries(f.blocks));
      AddressIs(f, pc);
    }
    AddressIs(f, pc);
    if i.Call? { WindowSmall(i, f.nregs); }
  }

  lemma WindowSmall(i: Inst, nv: nat)
    requires i.Call? && WindowOk(i, nv) && nv <= 256
    ensures i.argc <= 255
  {
  }

  lemma AddressIs(f: Func, pc: Point)
    requires IsPoint(f, pc)
    ensures Address(f, pc) == |Emitted(Before(f, pc)).code|
  {
    hide Emitted, Before;
  }

  lemma BranchSize(i: Inst, at: nat, k: nat, entries: seq<nat>)
    requires i.Branch? && forall t <- Targets(i) :: t < |entries|
    ensures |Encoded(i, at, k, entries)| == 7
  {
  }

  // -- generic window and call steps respect the relation --

  lemma ApplyRel(m: Module, s: IrState, t: State<nat>, op: RegOp, pc: Point, ip: nat)
    requires s.Running? && StateRel(m, s, t) && HasInst(m, s.top.fn, pc) && ip == Address(m.funcs[s.top.fn], pc)
    ensures StateRel(m, Apply(op, s, m.globals, pc), Apply(op, t, m.globals, ip))
  {
    hide Address, HasInst, OpInFile, OpValue;
  }

  lemma MoveRel(m: Module, s: IrState, t: State<nat>, pc: Point, ip: nat)
    requires s.Running? && StateRel(m, s, t) && HasInst(m, s.top.fn, pc) && ip == Address(m.funcs[s.top.fn], pc)
    ensures StateRel(m, s.(top := s.top.(pc := pc)), t.(top := t.top.(pc := ip)))
  {
    hide Address, HasInst;
  }

  lemma LeaveRel(m: Module, s: IrState, t: State<nat>)
    requires s.Running? && StateRel(m, s, t)
    ensures StateRel(m, LeaveCall(s), LeaveCall(t))
  {
    hide FrameRel;
    if s.callers != [] && InFile(s.stack, s.top.base, 0) {
      var n := |s.callers| - 1;
      assert FrameRel(m, s.callers[n], t.callers[n]);
      FrameFields(m, s.callers[n], t.callers[n]);
    }
    FrameFields(m, s.top, t.top);
  }

  lemma FrameFields(m: Module, f: Frame<Point>, g: Frame<nat>)
    requires FrameRel(m, f, g)
    ensures g.fn == f.fn && g.base == f.base && g.out == f.out
  {
    hide Address;
  }

  lemma SameSignatures(m: Module, fs: seq<B.FuncObject>)
    requires Lowered(m, fs)
    ensures B.ObjectSignatures(fs) == Signatures(m.funcs)
  {
    hide WellBuilt, Lowerable, ApplyAll, Emitted, Entries, Flat;
    forall i | 0 <= i < |fs|
      ensures B.ObjectSignature(fs[i]) == SignatureOf(m.funcs[i])
    {
      assert LowerFunc(fs[i].name, m.funcs[i]) == Some(fs[i]);
    }
  }

  lemma EntryRel(m: Module, fn: nat, base: nat, out: nat)
    requires HasInst(m, fn, ENTRY)
    ensures FrameRel(m, Frame(fn, ENTRY, base, out), Frame(fn, 0, base, out))
  {
    hide Address;
    EntryAddress(m.funcs[fn]);
  }

  lemma EnterRel(m: Module, s: IrState, t: State<nat>, out: nat, callee: nat, argStart: nat, argc: nat, ip: nat)
    requires AllWellBuilt(m) && s.Running? && StateRel(m, s, t) && HasInst(m, s.top.fn, Next(s.top.pc))
    requires ip == Address(m.funcs[s.top.fn], Next(s.top.pc))
    ensures StateRel(m, EnterCall(s, Signatures(m.funcs), out, callee, argStart, argc, Next(s.top.pc), ENTRY),
                     EnterCall(t, Signatures(m.funcs), out, callee, argStart, argc, ip, 0))
  {
    hide FrameRel, AllWellBuilt, SignatureOf, HasInst;
    FrameFields(m, s.top, t.top);
    CallerRel(m, s.top, t.top, ip);
    var u := EnterCall(s, Signatures(m.funcs), out, callee, argStart, argc, Next(s.top.pc), ENTRY);
    if u.Running? {
      EntryPoints(m);
      EntryHasInst(m, u.top.fn);
      EntryRel(m, u.top.fn, u.top.base, out);
    }
  }

  lemma EntryHasInst(m: Module, fn: nat)
    requires fn < |m.funcs| && forall f <- m.funcs :: f.nregs <= 256 && IsPoint(f, ENTRY)
    ensures HasInst(m, fn, ENTRY)
  {
    assert m.funcs[fn] in m.funcs;
  }

  lemma CallerRel(m: Module, f: Frame<Point>, g: Frame<nat>, ip: nat)
    requires FrameRel(m, f, g) && HasInst(m, f.fn, Next(f.pc)) && ip == Address(m.funcs[f.fn], Next(f.pc))
    ensures FrameRel(m, f.(pc := Next(f.pc)), g.(pc := ip))
  {
    hide Address;
  }

  // -- one IR step --

  lemma LoweredBuilt(m: Module, fs: seq<B.FuncObject>)
    requires Lowered(m, fs)
    ensures AllWellBuilt(m)
  {
    hide WellBuilt, LowerFunc;
  }

  /** Fetching at the VM's position means fetching at the instruction's address. */
  lemma StepIs(fs: seq<B.FuncObject>, v: B.Vm, i: B.Instr, next: nat)
    requires v.state.Running? && v.state.top.fn < |fs|
    requires B.Fetch(fs[v.state.top.fn], v.state.top.pc) == Ok(B.Fetched(i, next))
    ensures B.Step(fs, v) == B.Exec(fs, v, |fs[v.state.top.fn].code|, i, next)
  {
    hide B.Fetch, B.Exec;
  }

  lemma TopRel(m: Module, s: IrState, v: B.Vm)
    requires s.Running? && VmRel(m, s, v)
    ensures v.state.Running? && v.state.stack == s.stack && v.state.top.fn == s.top.fn && s.top.fn < |m.funcs|
    ensures v.state.top.base == s.top.base && HasInst(m, s.top.fn, s.top.pc)
    ensures v.state.top.pc == Address(m.funcs[s.top.fn], s.top.pc)
    ensures StateRel(m, s, v.state) && B.Visible(v.globals, v.moduleId) == m.globals
    ensures |v.state.callers| == |s.callers|
  {
    hide Address, B.Visible;
  }

  lemma PlainStep(m: Module, fs: seq<B.FuncObject>, s: IrState, v: B.Vm, i: Inst, at: nat, k: nat)
    requires Lowered(m, fs) && s.Running? && VmRel(m, s, v) && Here(m, fs, s, i, at, k) && AsRegOp(i).Some?
    ensures StepMatched(m, fs, s, v)
  {
    hide Lowered, VmRel, StateRel, Holds, Encodable, TargetsReach, ConstantIn, Address, Plain, HasInst, Apply,
         B.Fetch, B.Visible, Entries;
    TopRel(m, s, v);
    FetchPlain(fs[s.top.fn], at, i, k);
    var next := at + |Plain(i, k)|;
    StepIs(fs, v, InstrOf(i), next);
    ApplyRel(m, s, v.state, AsRegOp(i).value, Next(s.top.pc), next);
    B.RunOne(fs, v);
    RelOf(m, Step(m, s), B.Step(fs, v), v);
  }

  lemma RelOf(m: Module, s: IrState, w: B.Vm, v: B.Vm)
    requires StateRel(m, s, w.state) && B.Visible(v.globals, v.moduleId) == m.globals
    requires w.globals == v.globals && w.moduleId == v.moduleId
    ensures VmRel(m, s, w)
  {
    hide StateRel, B.Visible;
  }

  lemma CallStep(m: Module, fs: seq<B.FuncObject>, s: IrState, v: B.Vm, i: Inst, at: nat, k: nat)
    requires Lowered(m, fs) && s.Running? && VmRel(m, s, v) && Here(m, fs, s, i, at, k) && i.Call?
    ensures StepMatched(m, fs, s, v)
  {
    hide Lowered, VmRel, StateRel, Holds, TargetsReach, ConstantIn, Address, HasInst, EnterCall, B.Fetch, B.Visible,
         Entries, AllWellBuilt;
    TopRel(m, s, v);
    LoweredBuilt(m, fs);
    SameSignatures(m, fs);
    FetchPlain(fs[s.top.fn], at, i, k);
    var next := at + |Plain(i, k)|;
    StepIs(fs, v, InstrOf(i), next);
    assert i.dst in Regs(i) && i.callee in Regs(i) && (i.argStart.Some? ==> i.argStart.value in Regs(i));
    EnterRel(m, s, v.state, i.dst, i.callee, if i.argStart.Some? then i.argStart.value else 0, i.argc, next);
    B.RunOne(fs, v);
    RelOf(m, Step(m, s), B.Step(fs, v), v);
  }

  /** A jump lowered at `at` takes the VM to the entry of its target block. */
  lemma JumpLands(m: Module, fs: seq<B.FuncObject>, s: IrState, v: B.Vm, at: nat, t: BlockId)
    requires s.Running? && VmRel(m, s, v) && |fs| == |m.funcs| && s.top.fn < |fs| && HasInst(m, s.top.fn, Point(t, 0))
    requires t < |Entries(m.funcs[s.top.fn].blocks)|
    requires var target := Entries(m.funcs[s.top.fn].blocks)[t];
             var o := fs[s.top.fn];
             target == Address(m.funcs[s.top.fn], Point(t, 0)) && target <= |o.code| &&
             Distance(target, at + 3) <= B.U16_MAX && Holds(o.code, at, JumpBytes(at, target))
    ensures var w := B.Step(fs, v.(state := v.state.(top := v.state.top.(pc := at))));
            VmRel(m, s.(top := s.top.(pc := Point(t, 0))), w)
  {
    hide VmRel, StateRel, Holds, Address, HasInst, B.Fetch, B.Visible, Entries;
    TopRel(m, s, v);
    var target := Entries(m.funcs[s.top.fn].blocks)[t];
    var v0 := v.(state := v.state.(top := v.state.top.(pc := at)));
    FetchJump(fs[s.top.fn], at, target);
    StepIs(fs, v0, if target < at + 3 then B.Backward(at + 3 - target) else B.Forward(target - (at + 3)), at + 3);
    MoveRel(m, s, v.state, Point(t, 0), target);
    RelOf(m, s.(top := s.top.(pc := Point(t, 0))), B.Step(fs, v0), v);
  }

  lemma JumpStep(m: Module, fs: seq<B.FuncObject>, s: IrState, v: B.Vm, i: Inst, at: nat, k: nat)
    requires Lowered(m, fs) && s.Running? && VmRel(m, s, v) && Here(m, fs, s, i, at, k) && i.Jump?
    ensures StepMatched(m, fs, s, v)
  {
    hide Lowered, VmRel, StateRel, Holds, Address, HasInst, B.Step, B.Visible, Entries, ConstantIn;
    TopRel(m, s, v);
    assert i.target in Targets(i);
    JumpLands(m, fs, s, v, at, i.target);
    B.RunOne(fs, v);
    assert v == v.(state := v.state.(top := v.state.top.(pc := at)));
  }

  lemma BranchFetch(m: Module, fs: seq<B.FuncObject>, s: IrState, i: Inst, at: nat, k: nat)
    requires s.Running? && Here(m, fs, s, i, at, k) && i.Branch?
    ensures var o := fs[s.top.fn];
            var es := Entries(m.funcs[s.top.fn].blocks);
            i.onTrue < |es| && i.onFalse < |es| && at + 7 <= es[i.onTrue] <= |o.code| && es[i.onFalse] <= |o.code| &&
            at + 7 <= |o.code| &&
            HasInst(m, s.top.fn, Point(i.onTrue, 0)) && HasInst(m, s.top.fn, Point(i.onFalse, 0)) &&
            Address(m.funcs[s.top.fn], Point(i.onTrue, 0)) == es[i.onTrue] &&
            Address(m.funcs[s.top.fn], Point(i.onFalse, 0)) == es[i.onFalse] &&
            Distance(es[i.onFalse], at + 7) <= B.U16_MAX && Holds(o.code, at + 4, JumpBytes(at + 4, es[i.onFalse])) &&
            B.Fetch(o, at) == Ok(B.Fetched(B.ForwardIf(Byte(i.cond), es[i.onTrue] - (at + 4)), at + 4)) &&
            Byte(i.cond) == i.cond
  {
    hide Holds, Address, HasInst, B.Fetch, Entries, ConstantIn, JumpBytes;
    HereIs(m, fs, s, i, at, k);
    assert i.cond in Regs(i) && i.onTrue in Targets(i) && i.onFalse in Targets(i);
    var o := fs[s.top.fn];
    var es := Entries(m.funcs[s.top.fn].blocks);
    HoldsParts(o.code, at, [B.OP_JNZ, Byte(i.cond)] + U16(Distance(es[i.onTrue], at + 4)),
               JumpBytes(at + 4, es[i.onFalse]));
    FetchBranch(o, at, i.cond, es[i.onTrue]);
    BranchSize(i, at, k, es);
  }

  /** A conditional branch: a forward jump when the condition holds, otherwise fall into
      the unconditional jump behind it. */
  lemma BranchStep(m: Module, fs: seq<B.FuncObject>, s: IrState, v: B.Vm, i: Inst, at: nat, k: nat)
    requires Lowered(m, fs) && s.Running? && VmRel(m, s, v) && Here(m, fs, s, i, at, k) && i.Branch?
    requires InFile(s.stack, s.top.base, i.cond)
    ensures StepMatched(m, fs, s, v)
  {
    hide Lowered, VmRel, StateRel, Holds, Address, HasInst, B.Fetch, B.Step, B.Visible, Entries, Here, JumpBytes,
         Distance;
    BranchFetch(m, fs, s, i, at, k);
    HereIs(m, fs, s, i, at, k);
    TopRel(m, s, v);
    var es := Entries(m.funcs[s.top.fn].blocks);
    StepIs(fs, v, B.ForwardIf(Byte(i.cond), es[i.onTrue] - (at + 4)), at + 4);
    B.RunOne(fs, v);
    if BranchTruth(s.stack[s.top.base + i.cond]) {
      MoveRel(m, s, v.state, Point(i.onTrue, 0), es[i.onTrue]);
      RelOf(m, Step(m, s), B.Step(fs, v), v);
    } else {
      TwoSteps(fs, v);
      JumpLands(m, fs, s, v, at + 4, i.onFalse);
    }
  }

  lemma HereIs(m: Module, fs: seq<B.FuncObject>, s: IrState, i: Inst, at: nat, k: nat)
    requires s.Running? && Here(m, fs, s, i, at, k)
    ensures |fs| == |m.funcs| && HasInst(m, s.top.fn, s.top.pc) && i == InstAt(m, s.top.fn, s.top.pc)
    ensures s.top.fn < |m.funcs| && at == Address(m.funcs[s.top.fn], s.top.pc)
  {
    hide Holds, Address, Entries, ConstantIn, Encoded, Encodable, TargetsReach;
  }

  lemma ReturnBytes(m: Module, fs: seq<B.FuncObject>, s: IrState, i: Inst, at: nat, k: nat)
    requires s.Running? && Here(m, fs, s, i, at, k) && i.Return?
    ensures var o := fs[s.top.fn];
            if i.value.Some? && i.value.value != 0 then
              B.Fetch(o, at) == Ok(B.Fetched(B.Window(Copy(0, i.value.value)), at + 3)) &&
              B.Fetch(o, at + 3) == Ok(B.Fetched(B.Return, at + 4))
            else B.Fetch(o, at) == Ok(B.Fetched(B.Return, at + 1))
  {
    hide Holds, Address, HasInst, B.Fetch, Entries, ConstantIn;
    HereIs(m, fs, s, i, at, k);
    var o := fs[s.top.fn];
    if i.value.Some? && i.value.value != 0 {
      var r := i.value.value;
      assert r in Regs(i);
      assert Plain(i, k) == [B.OP_MOVE, 0, Byte(r)] + [B.OP_RETURN];
      HoldsParts(o.code, at, [B.OP_MOVE, 0, Byte(r)], [B.OP_RETURN]);
      FetchMove(o, at, 0, r);
      FetchReturn(o, at + 3);
    } else {
      FetchReturn(o, at);
    }
  }

  lemma ReturnStep(m: Module, fs: seq<B.FuncObject>, s: IrState, v: B.Vm, i: Inst, at: nat, k: nat)
    requires Lowered(m, fs) && s.Running? && VmRel(m, s, v) && Here(m, fs, s, i, at, k) && i.Return?
    requires i.value.Some? ==> InFile(s.stack, s.top.base, i.value.value) && InFile(s.stack, s.top.base, 0)
    ensures StepMatched(m, fs, s, v)
  {
    hide Lowered, VmRel, StateRel, Holds, Address, HasInst, B.Fetch, B.Step, B.Visible, Entries, Here, LeaveCall,
         Apply;
    ReturnBytes(m, fs, s, i, at, k);
    HereIs(m, fs, s, i, at, k);
    TopRel(m, s, v);
    B.RunOne(fs, v);
    if i.value.Some? && i.value.value != 0 {
      var r := i.value.value;
      StepIs(fs, v, B.Window(Copy(0, r)), at + 3);
      TwoSteps(fs, v);
      var v1 := B.Step(fs, v);
      MovedRel(m, s, v.state, r, at + 3);
      StepIs(fs, v1, B.Return, at + 4);
      RelOf(m, Step(m, s), B.Step(fs, v1), v);
    } else {
      StepIs(fs, v, B.Return, at + 1);
      LeaveRel(m, s, v.state);
      if i.value.Some? { MovedSame(m, s); }
      RelOf(m, Step(m, s), B.Step(fs, v), v);
    }
  }

  /** Moving register 0 to itself changes nothing. */
  lemma MovedSame(m: Module, s: IrState)
    requires s.Running? && InFile(s.stack, s.top.base, 0)
    ensures Apply(Copy(0, 0), s, m.globals, s.top.pc) == s
  {
  }

  /** The move in front of a return leaves the IR machine where it is and the VM in the
      middle of the instruction; both then return the same value. */
  lemma MovedRel(m: Module, s: IrState, t: State<nat>, r: Reg, ip: nat)
    requires s.Running? && StateRel(m, s, t)
    requires InFile(s.stack, s.top.base, r) && InFile(s.stack, s.top.base, 0)
    ensures var s1 := Apply(Copy(0, r), s, m.globals, s.top.pc);
            var t1 := Apply(Copy(0, r), t, m.globals, ip);
            s1.Running? && t1.Running? && t1.top == t.top.(pc := ip) && SameDepth(s, t1) && StateRel(m, LeaveCall(s1), LeaveCall(t1))
  {
    hide LeaveCall, Address;
    var s1 := Apply(Copy(0, r), s, m.globals, s.top.pc);
    var t1 := Apply(Copy(0, r), t, m.globals, ip);
    var t2 := t1.(top := t1.top.(pc := t.top.pc));
    LeaveRel(m, s1, t2);
    LeaveAnywhere(t1, t2);
  }

  lemma LeaveAnywhere(t: State<nat>, u: State<nat>)
    requires t.Running? && u.Running? && u == t.(top := u.top) && t.top == u.top.(pc := t.top.pc)
    ensures LeaveCall(t) == LeaveCall(u)
  {
  }

  /** Every IR step is matched by one or two VM steps. */
  lemma StepSim(m: Module, fs: seq<B.FuncObject>, s: IrState, v: B.Vm)
    requires Lowered(m, fs) && Safe(m, s) && VmRel(m, s, v)
    ensures StepMatched(m, fs, s, v)
  {
    hide Lowered, Safe, VmRel, Here, StepMatched, AllWellBuilt, Address, Emitted, Before;
    if s.Halted? {
      HaltedSim(m, fs, s, v);
      return;
    }
    LoweredBuilt(m, fs);
    OperandsInFile(m, s);
    var at, k := Address(m.funcs[s.top.fn], s.top.pc), |Emitted(Before(m.funcs[s.top.fn], s.top.pc)).constants|;
    HereFacts(m, fs, s, k);
    var i := InstAt(m, s.top.fn, s.top.pc);
    match i
    case Jump(_) => JumpStep(m, fs, s, v, i, at, k);
    case Branch(c, _, _) =>
      assert c in Regs(i);
      BranchStep(m, fs, s, v, i, at, k);
    case Call(_, _, _, _) => CallStep(m, fs, s, v, i, at, k);
    case Return(r) =>
      if r.Some? { assert r.value in Regs(i); }
      ReturnStep(m, fs, s, v, i, at, k);
    case _ => PlainStep(m, fs, s, v, i, at, k);
  }

  lemma HaltedSim(m: Module, fs: seq<B.FuncObject>, s: IrState, v: B.Vm)
    requires s.Halted? && VmRel(m, s, v)
    ensures StepMatched(m, fs, s, v)
  {
    hide B.Visible;
    B.RunOne(fs, v);
  }
}
