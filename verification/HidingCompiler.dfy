/**
 The compiler's correctness for programs that hide names but never mention a hidden one
 again.  Such a program compiles to the same byte code as the program with its declarations
 renamed apart, and means the same.
 */
module HidingCompiler {
  import opened Values
  import opened Machine
  import opened Source
  import opened Ir
  import opened Build
  import opened BuildScope
  import opened LowerRun
  import opened Compiler
  import opened Hiding
  import opened HidingBuild
  import opened HidingRun
  import B = Bytecode

  /** Code objects depend on the functions' names and on nothing else of the source. */
  lemma {:induction false} SameObjects(ds: seq<FuncDecl>, es: seq<FuncDecl>, funcs: seq<Func>)
    requires |ds| == |es| == |funcs| && forall i | 0 <= i < |ds| :: ds[i].name == es[i].name
    ensures LowerAll(es, funcs) == LowerAll(ds, funcs)
    decreases |ds|
  {
    if ds != [] {
      var n := |ds| - 1;
      SameObjects(ds[..n], es[..n], funcs[..n]);
    }
  }

  lemma SameCode(p: Program, base: nat)
    requires NothingHiddenIsUsed(p, base)
    ensures Compile(RenamedProgram(p, base)) == Compile(p)
  {
    hide GlobalsOf, StmtOk, RenamedFunc, BuildFuncs, LowerAll, ScopedProgram;
    var q := RenamedProgram(p, base);
    RenamedScoped(p, base);
    NamesBelow(p, base);
    FuncsSame(p, Visible(p), p.funcs, q.funcs, base);
    var b := BuildFuncs(Visible(p), p.funcs);
    if b.Some? { SameObjects(p.funcs, q.funcs, b.value); }
  }

  lemma SameStart(p: Program, base: nat, v: B.Vm, id: nat)
    requires NothingHiddenIsUsed(p, base) && Starts(p, v, id)
    ensures var q := RenamedProgram(p, base);
            ScopedProgram(q) && Starts(q, v, id) && |q.funcs[id].params| == |p.funcs[id].params|
  {
    hide GlobalsOf, FuncOk, ScopedProgram;
    RenamedScoped(p, base);
  }

  /** Whatever the interpreter computes, the compiled code computes. */
  lemma InterpreterToVm(p: Program, base: nat, v: B.Vm, id: nat, fuel: Fuel) returns (k: nat)
    requires NothingHiddenIsUsed(p, base) && Compile(p).Some? && Starts(p, v, id)
    ensures |p.funcs[id].params| <= |v.state.stack|
    ensures var res := CallFunction(p, id, Arguments(p, v, id), fuel);
            var st := B.Run(Compile(p).value, v, k).state;
            res.OutOfFuel? || if fuel.depth <= 31 then EndsWith(st, res) && !AtLimit(st) else Agrees(st, res)
  {
    hide StmtOk, RenamedProgram, CallFunction, B.Run, Compile, ScopedProgram, GlobalsOf;
    SameCode(p, base);
    SameStart(p, base, v, id);
    k := Compiler.InterpreterToVm(RenamedProgram(p, base), v, id, fuel);
    RenamedRuns(p, base, id, Arguments(p, v, id), fuel);
  }

  /** Whatever the compiled code computes, the interpreter computes. */
  lemma VmToInterpreter(p: Program, base: nat, v: B.Vm, id: nat, k: nat)
    requires NothingHiddenIsUsed(p, base) && Compile(p).Some? && Starts(p, v, id)
    requires B.Run(Compile(p).value, v, k).state.Halted?
    ensures |p.funcs[id].params| <= |v.state.stack|
    ensures var st := B.Run(Compile(p).value, v, k).state;
            AtLimit(st) || EndsWith(st, CallFunction(p, id, Arguments(p, v, id), Fuel(k + 2, k + 2)))
  {
    hide StmtOk, RenamedProgram, CallFunction, B.Run, Compile, ScopedProgram, GlobalsOf;
    SameCode(p, base);
    SameStart(p, base, v, id);
    Compiler.VmToInterpreter(RenamedProgram(p, base), v, id, k);
    RenamedRuns(p, base, id, Arguments(p, v, id), Fuel(k + 2, k + 2));
  }

  /** No run of the compiled code meets malformed byte code or leaves the register file. */
  lemma CompiledCodeIsSound(p: Program, base: nat, v: B.Vm, id: nat, k: nat)
    requires NothingHiddenIsUsed(p, base) && Compile(p).Some? && Starts(p, v, id)
    ensures Sound(B.Run(Compile(p).value, v, k).state)
  {
    hide StmtOk, RenamedProgram, B.Run, Compile, ScopedProgram, GlobalsOf;
    SameCode(p, base);
    SameStart(p, base, v, id);
    Compiler.CompiledCodeIsSound(RenamedProgram(p, base), v, id, k);
  }

  /** The programs whose compiled code means what the source says. */
  predicate Faithful(p: Program, base: nat) {
    ScopedProgram(p) || NothingHiddenIsUsed(p, base)
  }

  lemma FaithfulNames(p: Program, base: nat)
    requires Faithful(p, base)
    ensures forall i, j | 0 <= i < j < |p.funcs| :: p.funcs[i].name != p.funcs[j].name
  {
    hide ScopedFunc, FuncOk;
  }

  lemma FaithfulRun(p: Program, base: nat, v: B.Vm, id: nat, k: nat)
    requires Faithful(p, base) && Compile(p).Some? && Starts(p, v, id) && B.Run(Compile(p).value, v, k).state.Halted?
    ensures |p.funcs[id].params| <= |v.state.stack|
    ensures var st := B.Run(Compile(p).value, v, k).state;
            AtLimit(st) || EndsWith(st, CallFunction(p, id, Arguments(p, v, id), Fuel(k + 2, k + 2)))
  {
    hide ScopedProgram, NothingHiddenIsUsed, CallFunction, B.Run, Compile;
    if ScopedProgram(p) { Compiler.VmToInterpreter(p, v, id, k); } else { VmToInterpreter(p, base, v, id, k); }
  }

  lemma FaithfulIsSound(p: Program, base: nat, v: B.Vm, id: nat, k: nat)
    requires Faithful(p, base) && Compile(p).Some? && Starts(p, v, id)
    ensures Sound(B.Run(Compile(p).value, v, k).state)
  {
    hide ScopedProgram, NothingHiddenIsUsed, B.Run, Compile;
    if ScopedProgram(p) { Compiler.CompiledCodeIsSound(p, v, id, k); } else { CompiledCodeIsSound(p, base, v, id, k); }
  }
}
