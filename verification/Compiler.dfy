/**
 The back half of the compiler as a whole: source trees to IR to byte code.  The byte code
 VM and the reference interpreter agree on every function of a scoped program, for every
 argument vector and every length of run, unless the machine runs out of frames or
 registers.
 */
module Compiler {
  import opened Values
  import opened Machine
  import opened Source
  import opened Ir
  import opened Build
  import opened BuildScope
  import opened BuildShape
  import opened BuildSim
  import opened Lower
  import opened LowerLayout
  import opened LowerSim
  import opened LowerRun
  import BuildRegs
  import B = Bytecode

  /** Lowers built functions in order, each under its declared name. */
  function LowerAll(ds: seq<FuncDecl>, funcs: seq<Func>): (r: Option<seq<B.FuncObject>>)
    requires |ds| == |funcs|
    ensures r.Some? ==> |r.value| == |ds|
  {
    if ds == [] then Some([])
    else
      var n := |ds| - 1;
      var o := LowerFunc(ds[n].name, funcs[n]);
      var r := LowerAll(ds[..n], funcs[..n]);
      if o.None? || r.None? then
        None
      else
        Some(r.value + [o.value])
  }

  /** Lowering succeeds exactly if every function can be lowered, and then it is lowering
      each of them. */
  lemma {:induction false} LowerEach(ds: seq<FuncDecl>, funcs: seq<Func>)
    requires |ds| == |funcs|
    ensures var r := LowerAll(ds, funcs);
            (r.Some? <==> forall f <- funcs :: Lowerable(f)) &&
            (r.Some? ==> forall i | 0 <= i < |ds| :: LowerFunc(ds[i].name, funcs[i]) == Some(r.value[i]))
    decreases |ds|
  {
    hide Lowerable, LowerFunc;
    if ds != [] {
      var n := |ds| - 1;
      LowerEach(ds[..n], funcs[..n]);
      assert funcs == funcs[..n] + [funcs[n]];
    }
  }

  /** The code objects of a unit, in declaration order. */
  function Compile(p: Program): (r: Option<seq<B.FuncObject>>)
    ensures r.Some? ==> |r.value| == |p.funcs|
  {
    var b := BuildFuncs(Visible(p), p.funcs);
    if b.None? then None else LowerAll(p.funcs, b.value)
  }

  ghost function Image(p: Program): Module
    requires Compile(p).Some?
  {
    Module(BuildFuncs(Visible(p), p.funcs).value, GlobalsOf(p.funcs))
  }

  /** Function `id` about to run on its own, its arguments in the first registers. */
  ghost predicate Starts(p: Program, v: B.Vm, id: nat) {
    && id < |p.funcs| && v.state.Running?
    && v.state.top == Frame(id, 0, 0, 0) && v.state.callers == [] && |v.state.stack| == STACK_CAPACITY
    && B.Visible(v.globals, v.moduleId) == GlobalsOf(p.funcs)
  }

  lemma CompiledParts(p: Program)
    requires Compile(p).Some?
    ensures var m, fs := Image(p), Compile(p).value;
            |m.funcs| == |p.funcs| && Lowered(m, fs) && m.globals == GlobalsOf(p.funcs) &&
            (forall i | 0 <= i < |p.funcs| :: BuildFunc(Visible(p), p.funcs[i]) == Some(m.funcs[i])) &&
            (forall i | 0 <= i < |p.funcs| :: m.funcs[i].nregs <= 256 && m.funcs[i].arity == |p.funcs[i].params| <= m.funcs[i].nregs) &&
            (forall i | 0 <= i < |p.funcs| :: fs[i].name == p.funcs[i].name)
  {
    hide BuildFunc, BuildFuncs, LowerAll, WellBuilt, Lowerable, Emitted, Entries, ApplyAll;
    var m, fs := Image(p), Compile(p).value;
    LowerEach(p.funcs, m.funcs);
    forall i | 0 <= i < |p.funcs|
      ensures WellBuilt(m.funcs[i]) && m.funcs[i].nregs <= 256 && LowerFunc(fs[i].name, m.funcs[i]) == Some(fs[i])
      ensures m.funcs[i].arity == |p.funcs[i].params| <= m.funcs[i].nregs && fs[i].name == p.funcs[i].name
    {
      FuncShape(Visible(p), p.funcs[i]);
      BuildRegs.FewRegisters(Visible(p), p.funcs[i]);
      BuiltArity(Visible(p), p.funcs[i]);
    }
  }

  lemma BuiltArity(visible: set<Name>, d: FuncDecl)
    requires BuildFunc(visible, d).Some?
    ensures var f := BuildFunc(visible, d).value; f.arity == |d.params| <= f.nregs
  {
    hide WellBuilt, BuildStmt;
    FuncShape(visible, d);
    WellBuiltArity(BuildFunc(visible, d).value);
  }

  lemma WellBuiltArity(f: Func)
    requires WellBuilt(f)
    ensures f.arity <= f.nregs
  {
    hide CodeOk, Constants;
  }

  lemma FewParams(p: Program, id: nat)
    requires Compile(p).Some? && id < |p.funcs|
    ensures |p.funcs[id].params| <= 256
  {
    hide Compile, Image, BuildFunc, Lowered;
    CompiledParts(p);
  }

  /** The IR machine in the same initial situation. */
  function IrStart(stack: seq<Value>, id: nat): IrState {
    Running(stack, Frame(id, ENTRY, 0, 0), [])
  }

  function Arguments(p: Program, v: B.Vm, id: nat): (vs: seq<Value>)
    requires id < |p.funcs| && v.state.Running? && |p.funcs[id].params| <= |v.state.stack|
    ensures |vs| == |p.funcs[id].params|
  {
    v.state.stack[..|p.funcs[id].params|]
  }

  /** The VM and the IR machine start in step, whatever the program. */
  lemma StartRel(p: Program, v: B.Vm, id: nat)
    requires Compile(p).Some? && Starts(p, v, id)
    ensures |p.funcs[id].params| <= |v.state.stack|
    ensures var m, s := Image(p), IrStart(v.state.stack, id);
            Lowered(m, Compile(p).value) && Safe(m, s) && VmRel(m, s, v)
  {
    hide Lowered, BuildFunc, WellBuilt, Address, Visible, Compile, Image;
    CompiledParts(p);
    var m, fs := Image(p), Compile(p).value;
    LoweredBuilt(m, fs);
    EntryPoints(m);
    assert m.funcs[id] in m.funcs;
    EntryRel(m, id, 0, 0);
    StartSafe(m, IrStart(v.state.stack, id), id);
  }

  lemma StartFacts(p: Program, v: B.Vm, id: nat)
    requires ScopedProgram(p) && Compile(p).Some? && Starts(p, v, id)
    ensures |p.funcs[id].params| <= |v.state.stack|
    ensures var m, s := Image(p), IrStart(v.state.stack, id);
            Lowered(m, Compile(p).value) && BuildSim.Compiled(m, p) && Safe(m, s) && VmRel(m, s, v) &&
            Entered(m, p, s, id, Arguments(p, v, id))
  {
    hide Lowered, ScopedProgram, BuildFunc, WellBuilt, Safe, VmRel, Visible, Compile, Image;
    StartRel(p, v, id);
    CompiledParts(p);
  }

  lemma StartSafe(m: Module, s: IrState, id: nat)
    requires id < |m.funcs| && m.funcs[id].nregs <= 256 && IsPoint(m.funcs[id], ENTRY)
    requires s.Running? && s == IrStart(s.stack, id) && |s.stack| == STACK_CAPACITY
    ensures Safe(m, s)
  {
  }

  // ----- main theorems -----

  /** The VM has stopped with the interpreter's result. */
  ghost predicate EndsWith(st: State<nat>, res: RunResult) {
    st.Halted? &&
    match res
    case Result(v) => st.end == Finished(v)
    case UnspecifiedResult => st.end.Finished?
    case RunFault(f) => st.end == Faulted(f)
    case OutOfFuel => false
  }

  ghost predicate AtLimit(st: State<nat>) {
    st == Halted(Faulted(StackOverflow)) || st == Halted(Faulted(WindowOverflow))
  }

  /** The VM has stopped at a machine limit, or with the interpreter's result. */
  ghost predicate Agrees(st: State<nat>, res: RunResult) {
    EndsWith(st, res) || AtLimit(st)
  }

  lemma PostAgrees(m: Module, s: IrState, t: IrState, v: B.Vm, res: RunResult)
    requires s.Running? && s.callers == [] && FuncPost(s, t, res) && !res.OutOfFuel? && VmRel(m, t, v)
    ensures Agrees(v.state, res) && (!HitLimit(t) ==> EndsWith(v.state, res) && !AtLimit(v.state))
  {
    hide VmRel;
    RelHalted(m, t, v);
  }

  /** Whatever the interpreter computes, the compiled code computes; with at most 31 calls inside
      one another, the first included, whatever the limits of the machine. */
  lemma InterpreterToVm(p: Program, v: B.Vm, id: nat, fuel: Fuel) returns (k: nat)
    requires ScopedProgram(p) && Compile(p).Some? && Starts(p, v, id)
    ensures |p.funcs[id].params| <= |v.state.stack|
    ensures var res := CallFunction(p, id, Arguments(p, v, id), fuel);
            var st := B.Run(Compile(p).value, v, k).state;
            res.OutOfFuel? || if fuel.depth <= 31 then EndsWith(st, res) && !AtLimit(st) else Agrees(st, res)
  {
    hide Lowered, ScopedProgram, BuildSim.Compiled, Safe, VmRel, Entered, FuncPost, CallFunction, B.Run, Run, Compile,
         Image, TotalCost;
    StartFacts(p, v, id);
    var m, s := Image(p), IrStart(v.state.stack, id);
    var n := FuncSim(m, p, s, id, Arguments(p, v, id), fuel);
    RunSim(m, Compile(p).value, s, v, n);
    k := TotalCost(m, s, n);
    var res := CallFunction(p, id, Arguments(p, v, id), fuel);
    if !res.OutOfFuel? { PostAgrees(m, s, Run(m, s, n), B.Run(Compile(p).value, v, k), res); }
  }

  /** Whatever the compiled code computes, the interpreter computes: a run that stops
      anywhere but at a machine limit is no longer than the fuel that explains it. */
  lemma VmToInterpreter(p: Program, v: B.Vm, id: nat, k: nat)
    requires ScopedProgram(p) && Compile(p).Some? && Starts(p, v, id)
    requires B.Run(Compile(p).value, v, k).state.Halted?
    ensures |p.funcs[id].params| <= |v.state.stack|
    ensures var st := B.Run(Compile(p).value, v, k).state;
            AtLimit(st) || EndsWith(st, CallFunction(p, id, Arguments(p, v, id), Fuel(k + 2, k + 2)))
  {
    hide Lowered, ScopedProgram, BuildSim.Compiled, Safe, VmRel, Entered, FuncPost, CallFunction, B.Run, Run, Compile,
         Image, TotalCost;
    StartFacts(p, v, id);
    var m, s, fs := Image(p), IrStart(v.state.stack, id), Compile(p).value;
    var h := HaltedTogether(m, fs, s, v, k);
    var vs := Arguments(p, v, id);
    var n := FuncSim(m, p, s, id, vs, Fuel(k + 2, k + 2));
    SameEnd(m, s, h, n);
    var st := B.Run(fs, v, k).state;
    if AtLimit(st) { return; }
    EndAgrees(s, Run(m, s, n), CallFunction(p, id, vs, Fuel(k + 2, k + 2)), st.end, n, h);
  }

  /** Once stopped, the machine stays as it is. */
  lemma SameEnd(m: Module, s: IrState, h: nat, n: nat)
    requires Run(m, s, h).Halted?
    ensures (n >= h || Run(m, s, n).Halted?) ==> Run(m, s, n) == Run(m, s, h)
  {
    hide Run;
    if n >= h {
      RunSplit(m, s, h, n - h);
      RunHalted(m, Run(m, s, h), n - h);
    } else if Run(m, s, n).Halted? {
      RunSplit(m, s, n, h - n);
      RunHalted(m, Run(m, s, n), h - n);
    }
  }

  /** What fits in 31 calls inside one another meets no limit of the machine: no run stops but with
      the interpreter's result, and the code does stop. */
  lemma WithinLimits(p: Program, v: B.Vm, id: nat, turns: nat) returns (k: nat)
    requires ScopedProgram(p) && Compile(p).Some? && Starts(p, v, id)
    requires |p.funcs[id].params| <= |v.state.stack|
    requires !CallFunction(p, id, Arguments(p, v, id), Fuel(turns, 31)).OutOfFuel?
    ensures B.Run(Compile(p).value, v, k).state.Halted?
    ensures forall n: nat ::
              var st := B.Run(Compile(p).value, v, n).state;
              st.Halted? ==> EndsWith(st, CallFunction(p, id, Arguments(p, v, id), Fuel(turns, 31))) && !AtLimit(st)
  {
    hide ScopedProgram, CallFunction, B.Run, Compile;
    k := InterpreterToVm(p, v, id, Fuel(turns, 31));
    forall n: nat | B.Run(Compile(p).value, v, n).state.Halted?
      ensures B.Run(Compile(p).value, v, n) == B.Run(Compile(p).value, v, k)
    {
      SameVm(Compile(p).value, v, n, k);
    }
  }

  lemma SameVm(fs: seq<B.FuncObject>, v: B.Vm, a: nat, b: nat)
    requires B.Run(fs, v, a).state.Halted? && B.Run(fs, v, b).state.Halted?
    ensures B.Run(fs, v, a) == B.Run(fs, v, b)
  {
    hide B.Run;
    var lo, hi := if a < b then a else b, if a < b then b else a;
    B.RunSplit(fs, v, lo, hi - lo);
    B.RunHalted(fs, B.Run(fs, v, lo), hi - lo);
  }

  lemma EndAgrees(s: IrState, t: IrState, res: RunResult, end: End, n: nat, h: nat)
    requires s.Running? && s.callers == [] && FuncPost(s, t, res)
    requires res.OutOfFuel? ==> n > h || HitLimit(t)
    requires (n >= h || t.Halted?) ==> t == Halted(end)
    requires !(end.Faulted? && IsMachineLimit(end.f))
    ensures EndsWith(Halted(end), res)
  {
  }

  /** No run of compiled code meets malformed byte code or leaves the register file. */
  lemma CompiledCodeIsSound(p: Program, v: B.Vm, id: nat, k: nat)
    requires ScopedProgram(p) && Compile(p).Some? && Starts(p, v, id)
    ensures Sound(B.Run(Compile(p).value, v, k).state)
  {
    hide Lowered, ScopedProgram, BuildSim.Compiled, Safe, VmRel, Entered, B.Run, Compile, Image;
    StartFacts(p, v, id);
    NoControlFault(Image(p), Compile(p).value, IrStart(v.state.stack, id), v, k);
  }
}
