/**
 The limits of the machine: 256 frames and 8192 slots.  When a run of any byte code meets one,
 and how much every program may use before it can.
 */
module Headroom {
  import opened Values
  import opened Machine
  import opened Opcodes
  import B = Bytecode

  /** The activations in progress. */
  function Frames(vm: B.Vm): nat
    requires vm.state.Running?
  {
    |vm.state.callers| + 1
  }

  /** The machine is about to call a function. */
  ghost predicate Calls(fs: seq<B.FuncObject>, vm: B.Vm, callee: byte, start: byte, argc: byte) {
    vm.state.Running? && HasReg(vm, callee) && Reg(vm, callee).Function? && Reg(vm, callee).id < |fs| &&
    exists out: byte :: Reads(fs, vm, [72, out, callee, start, argc])
  }

  /** 256 frames are in use, and a call needs one more. */
  ghost predicate FramesFull(fs: seq<B.FuncObject>, vm: B.Vm) {
    vm.state.Running? && Frames(vm) == 256 &&
    exists callee: byte, start: byte, argc: byte :: Calls(fs, vm, callee, start, argc)
  }

  /** The arguments of a call or the window of its function would end beyond slot 8192. */
  ghost predicate SlotsFull(fs: seq<B.FuncObject>, vm: B.Vm) {
    exists callee: byte, start: byte, argc: byte ::
      Calls(fs, vm, callee, start, argc) &&
      (vm.state.top.base + start + argc > 8192 || vm.state.top.base + start + Slots(fs[Reg(vm, callee).id]) > 8192)
  }

  /** Every window starts in the first 256 slots of the one below it. */
  ghost predicate Stacked(vm: B.Vm) {
    vm.state.Running? && vm.state.top.base <= 255 * |vm.state.callers| &&
    forall i | 0 <= i < |vm.state.callers| :: vm.state.callers[i].base <= 255 * i
  }

  ghost predicate StopsWith(vm: B.Vm, f: Fault) {
    vm.state == Halted(Faulted(f))
  }

  /** The bytes of a fetched call. */
  lemma FetchedCall(f: B.FuncObject, ip: nat)
    requires B.Fetch(f, ip).Ok? && B.Fetch(f, ip).value.instr.Call?
    ensures var i := B.Fetch(f, ip).value.instr;
            ip + 5 <= |f.code| && f.code[ip..ip + 5] == [72, i.out, i.callee, i.argStart, i.argc]
  {
  }

  lemma OtherExec(fs: seq<B.FuncObject>, vm: B.Vm, size: nat, i: B.Instr, next: nat)
    requires vm.state.Running? && !i.Call?
    ensures var st := B.Exec(fs, vm, size, i, next).state;
            (st.Halted? ==> st.end.Faulted? ==> !IsMachineLimit(st.end.f)) &&
            (st.Running? ==> |st.callers| <= |vm.state.callers| && (Stacked(vm) ==> Stacked(vm.(state := st))))
  {
    if i.Window? && OpInFile(i.op, vm.state.stack, vm.state.top.base) {
      WindowFault(i.op, vm.state.stack, vm.state.top.base, B.Visible(vm.globals, vm.moduleId));
    }
  }

  lemma WindowFault(op: RegOp, stack: seq<Value>, base: nat, globals: map<NameId, nat>)
    requires OpInFile(op, stack, base)
    ensures var v := OpValue(op, stack, base, globals); v.Err? ==> !IsMachineLimit(v.fault)
  {
  }

  lemma FetchFault(f: B.FuncObject, ip: nat)
    ensures B.Fetch(f, ip).Err? ==> !IsMachineLimit(B.Fetch(f, ip).fault)
  {
  }

  /** Only a call meets a limit. */
  lemma LimitStep(fs: seq<B.FuncObject>, vm: B.Vm)
    requires vm.state.Running? && Frames(vm) <= 256
    ensures var vm' := B.Step(fs, vm);
            (StopsWith(vm', StackOverflow) ==> FramesFull(fs, vm)) && (StopsWith(vm', WindowOverflow) ==> SlotsFull(fs, vm)) &&
            (vm'.state.Running? ==> Frames(vm') <= 256 && (Stacked(vm) ==> Stacked(vm')))
  {
    hide B.Fetch, Reads;
    if vm.state.top.fn >= |fs| { return; }
    var f, ip := fs[vm.state.top.fn], vm.state.top.pc;
    FetchFault(f, ip);
    if B.Fetch(f, ip).Err? { return; }
    var i := B.Fetch(f, ip).value.instr;
    if i.Call? {
      FetchedCall(f, ip);
      AtCall(fs, vm, i);
      if HasReg(vm, i.callee) {
        CallStep(fs, vm, i.out, i.callee, i.argStart, i.argc);
        var c := Reg(vm, i.callee);
        if c.Function? && c.id < |fs| { assert Calls(fs, vm, i.callee, i.argStart, i.argc); }
      }
    } else {
      OtherExec(fs, vm, |f.code|, i, B.Fetch(f, ip).value.next);
    }
  }

  lemma AtCall(fs: seq<B.FuncObject>, vm: B.Vm, i: B.Instr)
    requires vm.state.Running? && vm.state.top.fn < |fs| && i.Call?
    requires var f, ip := fs[vm.state.top.fn], vm.state.top.pc;
             ip + 5 <= |f.code| && f.code[ip..ip + 5] == [72, i.out, i.callee, i.argStart, i.argc]
    ensures Reads(fs, vm, [72, i.out, i.callee, i.argStart, i.argc])
  {
  }

  /** The step on which a run meets a limit. */
  lemma {:induction false} LimitMet(fs: seq<B.FuncObject>, vm: B.Vm, k: nat, f: Fault) returns (j: nat)
    requires vm.state.Running? && Frames(vm) <= 256 && StopsWith(B.Run(fs, vm, k), f) && IsMachineLimit(f)
    ensures j < k && B.Run(fs, vm, k) == B.Step(fs, B.Run(fs, vm, j))
    ensures var s := B.Run(fs, vm, j);
            s.state.Running? && (Stacked(vm) ==> Stacked(s)) &&
            (f == StackOverflow ==> FramesFull(fs, s)) && (f == WindowOverflow ==> SlotsFull(fs, s))
    decreases k
  {
    hide B.Step, FramesFull, SlotsFull, Stacked;
    LimitStep(fs, vm);
    var vm' := B.Step(fs, vm);
    if vm'.state.Running? {
      j := LimitMet(fs, vm', k - 1, f);
      j := j + 1;
    } else {
      j := 0;
      B.RunHalted(fs, vm', k - 1);
    }
  }

  /** A run that starts in one frame stops with a stack overflow only out of a state with 256 frames. */
  lemma StackOverflowAt(fs: seq<B.FuncObject>, vm: B.Vm, k: nat) returns (j: nat)
    requires vm.state.Running? && vm.state.callers == [] && StopsWith(B.Run(fs, vm, k), StackOverflow)
    ensures j < k && FramesFull(fs, B.Run(fs, vm, j)) && B.Run(fs, vm, k) == B.Step(fs, B.Run(fs, vm, j))
  {
    j := LimitMet(fs, vm, k, StackOverflow);
  }

  /** And with a window overflow only where a window or its arguments would end beyond slot 8192. */
  lemma WindowOverflowAt(fs: seq<B.FuncObject>, vm: B.Vm, k: nat) returns (j: nat)
    requires vm.state.Running? && vm.state.callers == [] && StopsWith(B.Run(fs, vm, k), WindowOverflow)
    ensures j < k && SlotsFull(fs, B.Run(fs, vm, j)) && B.Run(fs, vm, k) == B.Step(fs, B.Run(fs, vm, j))
  {
    j := LimitMet(fs, vm, k, WindowOverflow);
  }

  /** Whatever the byte code, a run meets no limit before 32 windows are open: up to there every
      window has room. */
  lemma RoomForWindows(fs: seq<B.FuncObject>, vm: B.Vm, k: nat, f: Fault) returns (j: nat)
    requires vm.state.Running? && vm.state.callers == [] && vm.state.top.base == 0
    requires forall o <- fs :: Slots(o) <= 256
    requires StopsWith(B.Run(fs, vm, k), f) && IsMachineLimit(f)
    ensures j < k && B.Run(fs, vm, j).state.Running? && Frames(B.Run(fs, vm, j)) >= 32
  {
    hide B.Run, B.Step;
    j := LimitMet(fs, vm, k, f);
  }
}
