/**
 Whole runs of lowered code: the VM follows the IR machine through any number of steps,
 and no run, however long, ends in a fault that only malformed byte code can cause.
 */
module LowerRun {
  import opened Values
  import opened Machine
  import opened Ir
  import opened LowerSim
  import B = Bytecode

  /** VM steps that execute the next `n` IR steps. */
  function TotalCost(m: Module, s: IrState, n: nat): nat
    decreases n
  {
    if n == 0 then 0 else Cost(m, s) + TotalCost(m, Step(m, s), n - 1)
  }

  lemma {:induction false} RunSim(m: Module, fs: seq<B.FuncObject>, s: IrState, v: B.Vm, n: nat)
    requires Lowered(m, fs) && Safe(m, s) && VmRel(m, s, v)
    ensures VmRel(m, Run(m, s, n), B.Run(fs, v, TotalCost(m, s, n)))
    ensures Safe(m, Run(m, s, n)) && n <= TotalCost(m, s, n)
    decreases n
  {
    hide Lowered, Safe, VmRel, Step, Cost, B.Step, AllWellBuilt;
    if n > 0 {
      var c := Cost(m, s);
      var w := B.Run(fs, v, c);
      LoweredBuilt(m, fs);
      StepSafe(m, s);
      StepSim(m, fs, s, v);
      CostRange(m, s);
      RunSim(m, fs, Step(m, s), w, n - 1);
      B.RunSplit(fs, v, c, TotalCost(m, Step(m, s), n - 1));
    } else {
      RunNone(m, fs, s, v);
    }
  }

  lemma RunNone(m: Module, fs: seq<B.FuncObject>, s: IrState, v: B.Vm)
    ensures Run(m, s, 0) == s && B.Run(fs, v, 0) == v && TotalCost(m, s, 0) == 0
  {
    hide Step, B.Step, Cost;
  }

  lemma CostRange(m: Module, s: IrState)
    ensures 1 <= Cost(m, s) <= 2
  {
    hide BranchTruth;
  }

  /** Every number of VM steps is the cost of a number of IR steps, or one more than that,
      in the middle of the next one. */
  lemma {:induction false} RunCut(m: Module, s: IrState, k: nat) returns (n: nat)
    ensures n <= k
    ensures TotalCost(m, s, n) == k || (TotalCost(m, s, n) == k - 1 && Cost(m, Run(m, s, n)) == 2)
    decreases k
  {
    hide Step, Cost;
    CostRange(m, s);
    var c := Cost(m, s);
    if k < c {
      n := 0;
    } else {
      var r := RunCut(m, Step(m, s), k - c);
      n := r + 1;
    }
  }

  /** The VM is within its register file and frame limit, or has stopped for a reason a
      source program can cause. */
  ghost predicate Sound(st: State<nat>) {
    if st.Halted? then
      st.end.Faulted? ==>
        st.end.f !in {BytecodeTruncated, JumpOutOfRange, UnknownOpcode, ConstantOutOfRange,
                      RegisterOutOfRange, InvalidDefinition, MissingInstruction}
    else |st.stack| == 8192 && |st.callers| + 1 <= 256
  }

  lemma RelSound(m: Module, s: IrState, v: B.Vm)
    requires Safe(m, s) && VmRel(m, s, v)
    ensures Sound(v.state)
  {
    hide FrameOk, FrameRel, B.Visible;
  }

  lemma SafeSizes(m: Module, s: IrState)
    requires Safe(m, s) && s.Running?
    ensures |s.stack| == STACK_CAPACITY && |s.callers| < MAX_FRAMES
  {
    hide FrameOk;
  }

  lemma RunOneMore(fs: seq<B.FuncObject>, v: B.Vm, k: nat)
    ensures B.Run(fs, v, k + 1) == B.Step(fs, B.Run(fs, v, k))
  {
    hide B.Step;
    B.RunSplit(fs, v, k, 1);
    B.RunOne(fs, B.Run(fs, v, k));
  }

  /** Control safety over whole runs: after any number of VM steps no truncated code, no
      jump out of range, no unknown opcode, no bad constant and no register outside the
      register file has been met. */
  lemma NoControlFault(m: Module, fs: seq<B.FuncObject>, s: IrState, v: B.Vm, k: nat)
    requires Lowered(m, fs) && Safe(m, s) && VmRel(m, s, v)
    ensures Sound(B.Run(fs, v, k).state)
  {
    hide Lowered, Safe, VmRel, Step, Cost, B.Step, B.Run, Run, TotalCost;
    var n := RunCut(m, s, k);
    RunSim(m, fs, s, v, n);
    var t, w := Run(m, s, n), B.Run(fs, v, TotalCost(m, s, n));
    if TotalCost(m, s, n) == k {
      RelSound(m, t, w);
    } else {
      StepSim(m, fs, t, w);
      RunOneMore(fs, v, k - 1);
      SafeSizes(m, t);
    }
  }

  /** A VM run that stops has stopped as the IR machine did. */
  lemma HaltedTogether(m: Module, fs: seq<B.FuncObject>, s: IrState, v: B.Vm, k: nat) returns (n: nat)
    requires Lowered(m, fs) && Safe(m, s) && VmRel(m, s, v) && B.Run(fs, v, k).state.Halted?
    ensures n <= k && Run(m, s, n) == Halted(B.Run(fs, v, k).state.end)
  {
    hide Lowered, Safe, VmRel, Step, Cost, B.Step, B.Run, Run, TotalCost;
    n := RunCut(m, s, k);
    RunSim(m, fs, s, v, n);
    var t, w := Run(m, s, n), B.Run(fs, v, TotalCost(m, s, n));
    if TotalCost(m, s, n) == k {
      RelHalted(m, t, w);
    } else {
      StepSim(m, fs, t, w);
      RunOneMore(fs, v, k - 1);
      assert false;
    }
  }

  lemma RelHalted(m: Module, s: IrState, v: B.Vm)
    requires VmRel(m, s, v)
    ensures s.Halted? <==> v.state.Halted?
    ensures s.Halted? ==> s == Halted(v.state.end)
  {
    hide FrameRel, B.Visible;
  }
}
