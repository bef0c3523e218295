/**
 The init chunk of a module: one definition per function object, in order, and a return.
 Running it enters the module's functions in the global table, up to the number of
 constants that a 16-bit index can name.
 */
module InitChunk {
  import opened Values
  import opened Machine
  import B = Bytecode

  type byte = B.byte
  type Table = map<B.GlobalKey, nat>

  /** Constants that a wide index can tell apart. */
  const INDEXABLE: nat := 0x1_0000

  /** The definition of constant `k`.  A wide index is cut to 16 bits. */
  function DefineCode(k: nat): (c: seq<byte>) {
    if k <= 255 then [B.OP_DEFINE_GLOBAL, k] else [B.OP_DEFINE_GLOBAL_W, k / 256 % 256, k % 256]
  }

  function DefinesCode(n: nat): (c: seq<byte>) {
    if n == 0 then [] else DefinesCode(n - 1) + DefineCode(n - 1)
  }

  function Constants(ids: seq<nat>): (cs: seq<Value>) {
    seq(|ids|, i requires 0 <= i < |ids| => Function(ids[i]))
  }

  function InitObject(ids: seq<nat>): B.FuncObject {
    B.FuncObject(0, 0, 1, DefinesCode(|ids|) + [B.OP_RETURN], Constants(ids))
  }

  /** Builds the chunk for function objects `ids`. */
  method MakeInitChunk(ids: seq<nat>) returns (chunk: B.FuncObject)
    ensures chunk == InitObject(ids)
  {
    var code: seq<byte>, constants: seq<Value> := [], [];
    for i := 0 to |ids|
      invariant code == DefinesCode(i) && constants == Constants(ids[..i])
    {
      var constantIndex := |constants|;
      constants := constants + [Function(ids[i])];
      if constantIndex <= 255 {
        code := code + [B.OP_DEFINE_GLOBAL, constantIndex];
      } else {
        code := code + [B.OP_DEFINE_GLOBAL_W, constantIndex / 256 % 256, constantIndex % 256];
      }
    }
    assert ids[..|ids|] == ids;
    chunk := B.FuncObject(0, 0, 1, code + [B.OP_RETURN], constants);
  }

  // ----- what the chunk does -----

  ghost predicate AreObjects(fs: seq<B.FuncObject>, ids: seq<nat>) {
    forall i | 0 <= i < |ids| :: ids[i] < |fs|
  }

  /** The table after the first `n` definitions. */
  ghost function Defined(fs: seq<B.FuncObject>, ids: seq<nat>, moduleId: nat, g: Table, n: nat): Table
    requires AreObjects(fs, ids) && n <= |ids|
  {
    if n == 0 then g
    else
      var id := ids[(n - 1) % INDEXABLE];
      Defined(fs, ids, moduleId, g, n - 1)[B.GlobalKey(moduleId, fs[id].name) := id]
  }

  /** The definitions come one after the other in the code. */
  lemma {:induction false} DefineAt(k: nat, n: nat)
    requires k < n
    ensures DefinesCode(k) + DefineCode(k) <= DefinesCode(n)
    decreases n
  {
    if k < n - 1 { DefineAt(k, n - 1); }
  }

  lemma DefineStep(fs: seq<B.FuncObject>, v: B.Vm, ids: seq<nat>, k: nat)
    requires v.state.Running? && v.state.top.fn < |fs| && fs[v.state.top.fn] == InitObject(ids)
    requires k < |ids| && AreObjects(fs, ids) && v.state.top.pc == |DefinesCode(k)|
    ensures B.Step(fs, v) == v.(state := v.state.(top := v.state.top.(pc := |DefinesCode(k + 1)|)),
                                globals := v.globals[B.GlobalKey(v.moduleId, fs[ids[k % INDEXABLE]].name) := ids[k % INDEXABLE]])
  {
    hide B.Decode, B.OperandBytes, B.Fetch, DefinesCode;
    var f, pc := InitObject(ids), v.state.top.pc;
    DefineAt(k, |ids|);
    AfterDefine(k);
    AfterDefine(|ids|);
    var c, size := DefineCode(k), |DefinesCode(k + 1)|;
    assert forall j | 0 <= j < |c| :: f.code[pc + j] == (DefinesCode(k) + c)[pc + j] == c[j];
    assert f.code[pc + 1..pc + |c|] == c[1..];
    DefineIndex(k);
    B.DecodeDefine(f.constants, c[1..], k % INDEXABLE);
    FetchDefine(f, pc, size, k % INDEXABLE);
  }

  lemma FetchDefine(f: B.FuncObject, pc: nat, next: nat, k: nat)
    requires pc < next <= |f.code| && k < |f.constants|
    requires B.OperandBytes(f.code[pc]) == Some(next - pc - 1)
    requires B.Decode(f.constants, f.code[pc], f.code[pc + 1..next]) == B.Define(f.constants, k)
    ensures B.Fetch(f, pc) == Ok(B.Fetched(B.DefineGlobal(f.constants[k]), next))
  {
    hide B.Decode, B.OperandBytes;
  }

  lemma AfterDefine(k: nat)
    ensures |DefinesCode(k + 1)| == |DefinesCode(k)| + |DefineCode(k)|
  {
  }

  lemma DefineIndex(k: nat)
    ensures var c := DefineCode(k);
            if k <= 255 then k % INDEXABLE == c[1] else k % INDEXABLE == B.Short(c[1], c[2])
  {
    if k > 255 { LowBits(k, k / 256, k % 256, k / 256 / 256, k / 256 % 256); }
  }

  /** Two low bytes are the remainder modulo 2 to the 16. */
  lemma LowBits(k: nat, q: nat, low: nat, top: nat, high: nat)
    requires k == 256 * q + low && low < 256 && q == 256 * top + high && high < 256
    ensures k % INDEXABLE == high * 256 + low
  {
    assert k == INDEXABLE * top + (high * 256 + low) && high * 256 + low < INDEXABLE;
  }

  /** Function object `script` of `fs` at the start of the chunk. */
  ghost predicate AtStart(fs: seq<B.FuncObject>, v: B.Vm, ids: seq<nat>) {
    && v.state.Running? && v.state.top.fn < |fs| && fs[v.state.top.fn] == InitObject(ids) && AreObjects(fs, ids)
    && v.state.top.pc == 0 && v.state.top.base == 0 && v.state.callers == [] && |v.state.stack| == STACK_CAPACITY
  }

  lemma {:induction false} RunDefines(fs: seq<B.FuncObject>, v: B.Vm, ids: seq<nat>, k: nat)
    requires AtStart(fs, v, ids) && k <= |ids|
    ensures B.Run(fs, v, k) == v.(state := v.state.(top := v.state.top.(pc := |DefinesCode(k)|)),
                                  globals := Defined(fs, ids, v.moduleId, v.globals, k))
    decreases k
  {
    hide B.Step, DefinesCode, DefineCode;
    if k == 0 {
      assert |DefinesCode(0)| == 0 by { NoDefines(); }
    } else {
      RunDefines(fs, v, ids, k - 1);
      var u := B.Run(fs, v, k - 1);
      DefineStep(fs, u, ids, k - 1);
      B.RunSplit(fs, v, k - 1, 1);
    }
  }

  /** Neither its steps nor their end touch a register. */
  lemma InitStack(fs: seq<B.FuncObject>, v: B.Vm, ids: seq<nat>, n: nat)
    requires AtStart(fs, v, ids)
    ensures B.LastStack(fs, v, n) == v.state.stack
  {
    hide B.Step, B.Run, B.LastStack, Defined, DefinesCode, InitObject;
    var k := if n <= |ids| then n else |ids|;
    RunDefines(fs, v, ids, k);
    if n > |ids| { ReturnStep(fs, B.Run(fs, v, k), ids); }
    B.LastStackAt(fs, v, k, n);
  }

  lemma NoDefines()
    ensures DefinesCode(0) == []
  {
  }

  /** The chunk ends after one turn per function and one more, with all of them defined. */
  lemma RunInit(fs: seq<B.FuncObject>, v: B.Vm, ids: seq<nat>, n: nat)
    requires AtStart(fs, v, ids)
    ensures if n <= |ids| then B.Run(fs, v, n).state.Running?
            else B.Run(fs, v, n) == v.(state := Halted(Finished(v.state.stack[0])),
                                       globals := Defined(fs, ids, v.moduleId, v.globals, |ids|))
  {
    hide B.Step, B.Run, Defined, DefinesCode, InitObject;
    if n <= |ids| {
      RunDefines(fs, v, ids, n);
    } else {
      var k := |ids|;
      RunDefines(fs, v, ids, k);
      ReturnStep(fs, B.Run(fs, v, k), ids);
      B.RunSplit(fs, v, k, n - k);
      RunToReturn(fs, B.Run(fs, v, k), n - k);
    }
  }

  lemma RunToReturn(fs: seq<B.FuncObject>, v: B.Vm, n: nat)
    requires n > 0 && B.Step(fs, v).state.Halted?
    ensures B.Run(fs, v, n) == B.Step(fs, v)
  {
    hide B.Step;
    B.RunHalted(fs, B.Step(fs, v), n - 1);
  }

  lemma ReturnStep(fs: seq<B.FuncObject>, v: B.Vm, ids: seq<nat>)
    requires v.state.Running? && v.state.top.fn < |fs| && fs[v.state.top.fn] == InitObject(ids)
    requires v.state.top.pc == |DefinesCode(|ids|)| && v.state.top.base == 0 && v.state.callers == [] && |v.state.stack| > 0
    ensures B.Step(fs, v) == v.(state := Halted(Finished(v.state.stack[0])))
  {
    hide DefinesCode;
    assert InitObject(ids).code[v.state.top.pc] == B.OP_RETURN;
  }

  // ----- what it leaves behind -----

  /** Some function among the first `n` that can be named has this key. */
  ghost predicate Introduces(fs: seq<B.FuncObject>, ids: seq<nat>, moduleId: nat, n: nat, key: B.GlobalKey)
    requires AreObjects(fs, ids) && n <= |ids|
  {
    key.moduleId == moduleId && exists i :: 0 <= i < n && i < INDEXABLE && fs[ids[i]].name == key.name
  }

  /** The table gains exactly the keys of the functions whose constant can be named, each
      with a function of that name; every other entry stays. */
  lemma {:induction false} DefinedKeys(fs: seq<B.FuncObject>, ids: seq<nat>, moduleId: nat, g: Table, n: nat, key: B.GlobalKey)
    requires AreObjects(fs, ids) && n <= |ids|
    ensures var t := Defined(fs, ids, moduleId, g, n);
            if Introduces(fs, ids, moduleId, n, key) then
              key in t && exists i :: 0 <= i < n && i < INDEXABLE && fs[ids[i]].name == key.name && t[key] == ids[i]
            else
              (key in t <==> key in g) && (key in t ==> t[key] == g[key])
    decreases n
  {
    if n > 0 {
      var j := (n - 1) % INDEXABLE;
      DefinedKeys(fs, ids, moduleId, g, n - 1, key);
      if key == B.GlobalKey(moduleId, fs[ids[j]].name) {
        assert 0 <= j < n && j < INDEXABLE && fs[ids[j]].name == key.name;
      } else if Introduces(fs, ids, moduleId, n, key) {
        assert n - 1 < INDEXABLE ==> j == n - 1;
        assert Introduces(fs, ids, moduleId, n - 1, key);
      }
    }
  }

  /** With distinct names, a function can be looked up afterwards exactly if its constant
      index fits in 16 bits. */
  lemma DefinedIff(fs: seq<B.FuncObject>, ids: seq<nat>, moduleId: nat, g: Table, i: nat)
    requires AreObjects(fs, ids) && i < |ids|
    requires forall a, b | 0 <= a < b < |ids| :: fs[ids[a]].name != fs[ids[b]].name
    requires B.GlobalKey(moduleId, fs[ids[i]].name) !in g
    ensures var key := B.GlobalKey(moduleId, fs[ids[i]].name);
            var t := Defined(fs, ids, moduleId, g, |ids|);
            (key in t <==> i < INDEXABLE) && (key in t ==> t[key] == ids[i])
  {
    hide Defined;
    DefinedKeys(fs, ids, moduleId, g, |ids|, B.GlobalKey(moduleId, fs[ids[i]].name));
  }
}
