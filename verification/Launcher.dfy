/**
 The launcher: it runs the init chunks of a linked program one after the other, looks the
 entry function up in the global table they leave behind, and runs it.  For a compiled
 source program the value it hands back is the reference interpreter's.
 */
module Launcher {
  import opened Values
  import opened Machine
  import opened InitChunk
  import opened Linker
  import opened VmMachine
  import B = Bytecode
  import S = Source
  import Compiler
  import H = HidingCompiler

  datatype LaunchResult =
    | Returned(v: Value)
    | InitRuntimeError
    | EntryLookupFailed
    | EntryRuntimeError(f: Fault)
    | StillRunning

  /** A compiled unit: its function objects by number and the rest of its linker record. */
  datatype Unit = Unit(moduleId: nat, functions: seq<nat>, pool: seq<string>, others: seq<NameId>)

  function NamesOf(fs: seq<B.FuncObject>, ids: seq<nat>): seq<NameId>
    requires AreObjects(fs, ids)
  {
    seq(|ids|, i requires 0 <= i < |ids| => fs[ids[i]].name)
  }

  /** What the back end hands to the linker for a unit. */
  function ModuleOf(fs: seq<B.FuncObject>, u: Unit): CompileModule
    requires AreObjects(fs, u.functions)
  {
    CompileModule(u.moduleId, InitObject(u.functions), u.pool, FirstOccurrences(NamesOf(fs, u.functions)), u.others)
  }

  ghost predicate AreUnits(fs: seq<B.FuncObject>, us: seq<Unit>) {
    forall u <- us :: AreObjects(fs, u.functions)
  }

  /** The chunks of a linked program are the units' init chunks, in order. */
  ghost predicate ChunksOf(p: LinkedProgram, us: seq<Unit>) {
    |p.chunks| == |us| && forall i | 0 <= i < |us| :: p.chunks[i] == Chunk(us[i].moduleId, InitObject(us[i].functions))
  }

  // ----- the global table after initialisation -----

  ghost function Initialised(fs: seq<B.FuncObject>, us: seq<Unit>, g: Table): Table
    requires AreUnits(fs, us)
  {
    if us == [] then g
    else
      var n := |us| - 1;
      Defined(fs, us[n].functions, us[n].moduleId, Initialised(fs, us[..n], g), |us[n].functions|)
  }

  /** The unit has this function under one of the constants its chunk can name. */
  ghost predicate Provides(fs: seq<B.FuncObject>, u: Unit, key: B.GlobalKey)
    requires AreObjects(fs, u.functions)
  {
    Introduces(fs, u.functions, u.moduleId, |u.functions|, key)
  }

  /** A key is in the table exactly if some unit provides it, and its entry is the number of
      a function of that name in a unit of that module. */
  lemma {:induction false} InitialisedKeys(fs: seq<B.FuncObject>, us: seq<Unit>, key: B.GlobalKey)
    requires AreUnits(fs, us)
    ensures var t := Initialised(fs, us, map[]);
            (key in t <==> exists u <- us :: Provides(fs, u, key)) &&
            (key in t ==> t[key] < |fs| && fs[t[key]].name == key.name &&
                          exists u <- us :: u.moduleId == key.moduleId && t[key] in u.functions)
    decreases |us|
  {
    hide Introduces;
    if us != [] {
      var n := |us| - 1;
      assert us == us[..n] + [us[n]];
      InitialisedKeys(fs, us[..n], key);
      OneUnit(fs, us[n], Initialised(fs, us[..n], map[]), key);
    }
  }

  lemma OneUnit(fs: seq<B.FuncObject>, u: Unit, g: Table, key: B.GlobalKey)
    requires AreObjects(fs, u.functions)
    ensures var t := Defined(fs, u.functions, u.moduleId, g, |u.functions|);
            if Provides(fs, u, key) then
              key in t && key.moduleId == u.moduleId && t[key] < |fs| && fs[t[key]].name == key.name && t[key] in u.functions
            else
              (key in t <==> key in g) && (key in t ==> t[key] == g[key])
  {
    hide Defined;
    DefinedKeys(fs, u.functions, u.moduleId, g, |u.functions|, key);
  }

  /** Every entry of a table is the number of a function object. */
  ghost predicate InRange(fs: seq<B.FuncObject>, g: Table) {
    forall k <- g :: g[k] < |fs|
  }

  lemma {:induction false} DefinedInRange(fs: seq<B.FuncObject>, u: Unit, g: Table, n: nat)
    requires AreObjects(fs, u.functions) && InRange(fs, g) && n <= |u.functions|
    ensures InRange(fs, Defined(fs, u.functions, u.moduleId, g, n))
    decreases n
  {
    if n > 0 { DefinedInRange(fs, u, g, n - 1); }
  }

  // ----- launching -----

  /** How the function ends, run on its own on these registers for `bound` turns. */
  function EntryEnd(fs: seq<B.FuncObject>, stack: seq<Value>, id: nat, moduleId: nat, g: Table, bound: nat): Option<End>
    requires id < |fs|
  {
    if fs[id].code == [] then Some(Finished(Nil))
    else
      var st := B.Run(fs, Start(stack, id, g, moduleId), bound).state;
      if st.Halted? then Some(st.end) else None
  }

  /** An init chunk cannot fail: it finishes within one turn more than it has functions. */
  lemma ChunkRuns(fs: seq<B.FuncObject>, u: Unit, stack: seq<Value>, g: Table, bound: nat)
    requires AreObjects(fs, u.functions) && |stack| == STACK_CAPACITY
    ensures var c := InitObject(u.functions);
            var r := B.Run(fs + [c], Start(stack, |fs|, g, u.moduleId), bound);
            c.code != [] &&
            if bound <= |u.functions| then r.state.Running?
            else r == B.Vm(Halted(Finished(stack[0])), Defined(fs, u.functions, u.moduleId, g, |u.functions|), u.moduleId)
    ensures B.LastStack(fs + [InitObject(u.functions)], Start(stack, |fs|, g, u.moduleId), bound) == stack
  {
    hide B.Run, B.Step, B.LastStack, Defined, DefinesCode;
    var more := fs + [InitObject(u.functions)];
    RunInit(more, Start(stack, |fs|, g, u.moduleId), u.functions, bound);
    InitStack(more, Start(stack, |fs|, g, u.moduleId), u.functions, bound);
    SameDefined(fs, more, u, g, |u.functions|);
  }

  lemma {:induction false} SameDefined(fs: seq<B.FuncObject>, more: seq<B.FuncObject>, u: Unit, g: Table, n: nat)
    requires AreObjects(fs, u.functions) && fs <= more && n <= |u.functions|
    ensures Defined(fs, u.functions, u.moduleId, g, n) == Defined(more, u.functions, u.moduleId, g, n)
    decreases n
  {
    if n > 0 { SameDefined(fs, more, u, g, n - 1); }
  }

  /** What the launcher makes of the entry function's end. */
  function Told(end: Option<End>): LaunchResult {
    match end
    case None => StillRunning
    case Some(e) => if e.Finished? then Returned(e.v) else EntryRuntimeError(e.f)
  }

  /** What a launch answers, `t` being the table after initialisation and `stack` the
      registers of the machine, which initialisation does not touch. */
  ghost function Answer(fs: seq<B.FuncObject>, p: LinkedProgram, us: seq<Unit>, t: Table, stack: seq<Value>, bound: nat)
    : (r: LaunchResult)
    requires InRange(fs, t)
    ensures r != InitRuntimeError
  {
    var key := B.GlobalKey(p.entryModule, p.entryName);
    if exists u <- us :: bound <= |u.functions| then StillRunning
    else if key !in t then EntryLookupFailed
    else Told(EntryEnd(fs, stack, t[key], p.entryModule, t, bound))
  }

  lemma {:induction false} InitialisedInRange(fs: seq<B.FuncObject>, us: seq<Unit>, g: Table)
    requires AreUnits(fs, us) && InRange(fs, g)
    ensures InRange(fs, Initialised(fs, us, g))
    decreases |us|
  {
    hide Defined;
    if us != [] {
      var n := |us| - 1;
      InitialisedInRange(fs, us[..n], g);
      DefinedInRange(fs, us[n], Initialised(fs, us[..n], g), |us[n].functions|);
    }
  }

  /** Runs a linked program on a VM that holds the units' function objects; every run gets
      at most `bound` turns. */
  method LaunchProgram(vm: Vm, p: LinkedProgram, bound: nat, ghost us: seq<Unit>) returns (r: LaunchResult)
    requires vm.stack.Length == STACK_CAPACITY && InRange(vm.functions, vm.globals)
    requires AreUnits(vm.functions, us) && ChunksOf(p, us)
    modifies vm, vm.stack
    ensures vm.functions == old(vm.functions)
    ensures var t := Initialised(vm.functions, us, old(vm.globals));
            InRange(vm.functions, t) && r == Answer(vm.functions, p, us, t, old(vm.stack[..]), bound)
  {
    hide B.Run, B.LastStack, Defined, InitObject, AreObjects, InRange;
    ghost var fs, g, stack := vm.functions, vm.globals, vm.stack[..];
    InitialisedInRange(fs, us, g);
    for i := 0 to |p.chunks|
      invariant vm.functions == fs && vm.stack[..] == stack && InRange(fs, vm.globals)
      invariant vm.globals == Initialised(fs, us[..i], g)
      invariant forall j | 0 <= j < i :: bound > |us[j].functions|
    {
      var c := p.chunks[i];
      assert us[i] in us && us[..i + 1][..i] == us[..i];
      ChunkRuns(fs, us[i], stack, vm.globals, bound);
      DefinedInRange(fs, us[i], vm.globals, |us[i].functions|);
      var end := vm.ExecuteChunk(c.code, c.moduleId, bound);
      if end.None? { return StillRunning; }
      if end.value.Faulted? { return InitRuntimeError; }
    }
    assert us[..|us|] == us;
    var entry := vm.LookupGlobalFunctionById(p.entryModule, p.entryName);
    if entry.None? { return EntryLookupFailed; }
    EntryInRange(fs, vm.globals, B.GlobalKey(p.entryModule, p.entryName));
    var end := vm.ExecuteFunction(entry.value, p.entryModule, bound);
    if end.None? { return StillRunning; }
    if end.value.Faulted? { return EntryRuntimeError(end.value.f); }
    return Returned(end.value.v);
  }

  lemma EntryInRange(fs: seq<B.FuncObject>, g: Table, key: B.GlobalKey)
    requires InRange(fs, g) && key in g
    ensures g[key] < |fs|
  {
  }

  // ----- linking and launching together -----

  function ModulesOf(fs: seq<B.FuncObject>, us: seq<Unit>): seq<CompileModule>
    requires AreUnits(fs, us)
  {
    seq(|us|, i requires 0 <= i < |us| => ModuleOf(fs, us[i]))
  }

  lemma {:induction false} SymbolOrigin(ms: seq<CompileModule>, s: Symbol) returns (i: nat)
    requires s in AllSymbols(ms)
    ensures i < |ms| && s in Listed(ms[i])
    decreases |ms|
  {
    hide Listed;
    var n := |ms| - 1;
    if s in Listed(ms[n]) { i := n; } else { i := SymbolOrigin(ms[..n], s); }
  }

  /** A linked entry is found after initialisation exactly if it is a function, and not an
      exported symbol of another kind, whose constant its chunk can name; what is found
      is a function of that name in the module of the entry. */
  lemma EntryFound(fs: seq<B.FuncObject>, us: seq<Unit>, p: LinkedProgram)
    requires AreUnits(fs, us)
    ensures var t, key := Initialised(fs, us, map[]), B.GlobalKey(p.entryModule, p.entryName);
            (key in t <==> exists u <- us, i | 0 <= i < |u.functions| ::
                             i < INDEXABLE && u.moduleId == p.entryModule && fs[u.functions[i]].name == p.entryName) &&
            (key in t ==> t[key] < |fs| && fs[t[key]].name == p.entryName &&
                          exists u <- us :: u.moduleId == p.entryModule && t[key] in u.functions)
  {
    hide Initialised;
    InitialisedKeys(fs, us, B.GlobalKey(p.entryModule, p.entryName));
  }

  /** If the entry name belongs to no exported symbol but functions, and no unit has more
      functions than its chunk can name, a program that links is a program whose entry is
      found. */
  lemma LinkedEntryFound(fs: seq<B.FuncObject>, us: seq<Unit>, p: LinkedProgram, entry: string)
    requires AreUnits(fs, us) && Symbol(p.entryName, entry, p.entryModule) in AllSymbols(ModulesOf(fs, us))
    requires forall u <- us :: |u.functions| <= INDEXABLE
    requires forall u <- us, x <- u.others :: SymbolName(u.pool, x, "sid") != entry
    ensures B.GlobalKey(p.entryModule, p.entryName) in Initialised(fs, us, map[])
  {
    hide Initialised, SymbolName, AllSymbols;
    EntryFound(fs, us, p);
    var s := Symbol(p.entryName, entry, p.entryModule);
    var i := SymbolOrigin(ModulesOf(fs, us), s);
    var u := us[i];
    assert u in us;
    ExportedFunction(fs, u, s);
    var j :| 0 <= j < |u.functions| && fs[u.functions[j]].name == s.id;
    assert 0 <= j < |u.functions| && j < INDEXABLE && u.moduleId == p.entryModule && fs[u.functions[j]].name == p.entryName;
  }

  lemma ExportedFunction(fs: seq<B.FuncObject>, u: Unit, s: Symbol)
    requires AreObjects(fs, u.functions) && s in Listed(ModuleOf(fs, u))
    requires forall x <- u.others :: SymbolName(u.pool, x, "sid") != s.name
    ensures s.moduleId == u.moduleId && exists j :: 0 <= j < |u.functions| && fs[u.functions[j]].name == s.id
  {
    hide SymbolName;
    var m := ModuleOf(fs, u);
    assert forall j | 0 <= j < |m.others| :: m.others[j] in u.others;
    assert s in Exported(m);
    var j :| 0 <= j < |m.exports| && Exported(m)[j] == s;
    assert m.exports[j] in FirstOccurrences(NamesOf(fs, u.functions));
    assert s.id in NamesOf(fs, u.functions);
    var k :| 0 <= k < |u.functions| && NamesOf(fs, u.functions)[k] == s.id;
  }

  // ----- a compiled source program -----

  function Numbers(n: nat): (ids: seq<nat>)
    ensures |ids| == n && forall i | 0 <= i < n :: ids[i] == i
  {
    seq(n, i => i)
  }

  /** The table after initialisation is the one the reference interpreter uses. */
  lemma TableOfProgram(p: S.Program, fs: seq<B.FuncObject>, moduleId: nat, g: Table)
    requires |fs| == |p.funcs| <= INDEXABLE && forall i | 0 <= i < |fs| :: fs[i].name == p.funcs[i].name
    requires forall i, j | 0 <= i < j < |p.funcs| :: p.funcs[i].name != p.funcs[j].name
    requires forall k <- g :: k.moduleId != moduleId
    ensures B.Visible(Defined(fs, Numbers(|fs|), moduleId, g, |fs|), moduleId) == S.GlobalsOf(p.funcs)
  {
    hide Defined;
    var t, gs := Defined(fs, Numbers(|fs|), moduleId, g, |fs|), S.GlobalsOf(p.funcs);
    forall x: NameId
      ensures B.GlobalKey(moduleId, x) in t <==> x in gs
      ensures x in gs ==> t[B.GlobalKey(moduleId, x)] == gs[x]
    {
      DefinedKeys(fs, Numbers(|fs|), moduleId, g, |fs|, B.GlobalKey(moduleId, x));
      if x in gs { assert fs[Numbers(|fs|)[gs[x]]].name == x; }
    }
  }

  /** Whatever a launch of a compiled program answers, the interpreter explains it: the entry
      is found, and its value or fault is that of the source function on the arguments that
      the first registers hold, unless the machine ran out of frames or registers. */
  ghost predicate Explained(p: S.Program, id: nat, vs: seq<Value>, fuel: S.Fuel, r: LaunchResult)
    requires id < |p.funcs| && |p.funcs[id].params| == |vs|
  {
    match r
    case StillRunning => true
    case Returned(v) => S.CallFunction(p, id, vs, fuel) in {S.Result(v), S.UnspecifiedResult}
    case EntryRuntimeError(f) => IsMachineLimit(f) || S.CallFunction(p, id, vs, fuel) == S.RunFault(f)
    case InitRuntimeError => false
    case EntryLookupFailed => false
  }

  lemma LaunchExplained(p: S.Program, base: nat, u: Unit, q: LinkedProgram, id: nat, stack: seq<Value>, bound: nat,
                        r: LaunchResult)
    requires H.Faithful(p, base) && Compiler.Compile(p).Some? && |p.funcs| <= INDEXABLE && id < |p.funcs|
    requires u.functions == Numbers(|p.funcs|) && u.moduleId == q.entryModule && q.entryName == p.funcs[id].name
    requires |stack| == STACK_CAPACITY
    requires var fs := Compiler.Compile(p).value;
             AreObjects(fs, u.functions) && InRange(fs, Initialised(fs, [u], map[])) &&
             r == Answer(fs, q, [u], Initialised(fs, [u], map[]), stack, bound)
    ensures |p.funcs[id].params| <= |stack| && Explained(p, id, stack[..|p.funcs[id].params|], S.Fuel(bound + 2, bound + 2), r)
  {
    hide H.Faithful, Compiler.Compile, EntryEnd, Told, Explained, Defined, S.GlobalsOf, B.Visible, InitObject;
    var fs := Compiler.Compile(p).value;
    Compiler.CompiledParts(p);
    H.FaithfulNames(p, base);
    var t := Initialised(fs, [u], map[]);
    assert t == Defined(fs, u.functions, u.moduleId, map[], |fs|);
    TableOfProgram(p, fs, u.moduleId, map[]);
    NumberOf(p, id);
    var key := B.GlobalKey(q.entryModule, q.entryName);
    assert p.funcs[id].name in S.GlobalsOf(p.funcs);
    assert p.funcs[id].name in B.Visible(t, u.moduleId);
    assert key in t && t[key] == id;
    EndExplained(p, base, id, u.moduleId, t, stack, bound);
    StillExplained(p, id, stack[..|p.funcs[id].params|], S.Fuel(bound + 2, bound + 2));
  }

  lemma StillExplained(p: S.Program, id: nat, vs: seq<Value>, fuel: S.Fuel)
    requires id < |p.funcs| && |p.funcs[id].params| == |vs|
    ensures Explained(p, id, vs, fuel, StillRunning)
  {
  }

  lemma NumberOf(p: S.Program, id: nat)
    requires id < |p.funcs| && forall i, j | 0 <= i < j < |p.funcs| :: p.funcs[i].name != p.funcs[j].name
    ensures S.GlobalsOf(p.funcs)[p.funcs[id].name] == id
  {
    var k := S.GlobalsOf(p.funcs)[p.funcs[id].name];
    assert p.funcs[k].name == p.funcs[id].name;
  }

  lemma EndExplained(p: S.Program, base: nat, id: nat, moduleId: nat, t: Table, stack: seq<Value>, bound: nat)
    requires H.Faithful(p, base) && Compiler.Compile(p).Some? && id < |p.funcs| && |stack| == STACK_CAPACITY
    requires B.Visible(t, moduleId) == S.GlobalsOf(p.funcs)
    ensures |p.funcs[id].params| <= |stack|
    ensures Explained(p, id, stack[..|p.funcs[id].params|], S.Fuel(bound + 2, bound + 2),
                      Told(EntryEnd(Compiler.Compile(p).value, stack, id, moduleId, t, bound)))
  {
    hide H.Faithful, Compiler.Compile, B.Run, S.CallFunction, S.GlobalsOf, B.Visible;
    var fs := Compiler.Compile(p).value;
    NotEmpty(p, base, id, moduleId, t);
    var v := Start(stack, id, t, moduleId);
    Compiler.FewParams(p, id);
    if B.Run(fs, v, bound).state.Halted? { H.FaithfulRun(p, base, v, id, bound); }
  }

  /** A compiled function has code: without, running it would be a malformed run. */
  lemma NotEmpty(p: S.Program, base: nat, id: nat, moduleId: nat, t: Table)
    requires H.Faithful(p, base) && Compiler.Compile(p).Some? && id < |p.funcs|
    requires B.Visible(t, moduleId) == S.GlobalsOf(p.funcs)
    ensures Compiler.Compile(p).value[id].code != []
  {
    hide H.Faithful, Compiler.Compile, S.GlobalsOf, B.Visible;
    var fs := Compiler.Compile(p).value;
    var v := Start(seq(STACK_CAPACITY, _ => Nil), id, t, moduleId);
    H.FaithfulIsSound(p, base, v, id, 1);
    B.RunOne(fs, v);
  }
}
