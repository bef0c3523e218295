/**
 Two programs that the compiler gets wrong, down to the byte code: a call without arguments
 overwrites a register of its caller, and a parameter that a local has hidden is mentioned
 again after the local's block.
 */
module Limits {
  import opened Values
  import opened Machine
  import opened Source
  import opened Ir
  import opened Build
  import opened BuildScope
  import opened Lower
  import opened LowerRun
  import opened Compiler
  import B = Bytecode

  const MAIN: Name := 0
  const G: Name := 1
  const A: Name := 2

  function OneCall(): Stmt {
    ExprStmt(Expr.Call(Ident(G), Args.NoArgs))
  }

  /** main(a) { g(); return a; }  g() { return 5; } */
  function Clobber(): Program {
    Program([FuncDecl(MAIN, [A], Block(Seq(OneCall(), Seq(Stmt.Return(Some(Ident(A))), Done)))),
             FuncDecl(G, [], Stmt.Return(Some(IntLit(5))))])
  }

  function ClobberModule(): Module {
    Module([Func(1, 3, [[LoadGlobal(1, G), Inst.Call(2, 1, None, 0), Inst.Return(Some(0))]]),
            Func(0, 1, [[Constant(0, Int(5)), Inst.Return(Some(0))]])], map[MAIN := 0, G := 1])
  }

  lemma ClobberGlobals()
    ensures GlobalsOf(Clobber().funcs) == map[MAIN := 0, G := 1]
  {
    var fs := Clobber().funcs;
    assert fs[..1][..0] == [] && fs[..1][0] == fs[0];
    assert GlobalsOf(fs[..1]) == map[MAIN := 0];
  }

  lemma ClobberBuilt()
    ensures BuildFuncs({MAIN, G}, Clobber().funcs) == Some(ClobberModule().funcs)
  {
    var fs, v := Clobber().funcs, {MAIN, G};
    MainBuilt();
    var g0 := StartFunc(fs[1]);
    EmitOne(Fresh(g0), Constant(0, Int(5)));
    assert [] + [Constant(0, Int(5))] == [Constant(0, Int(5))];
    var g1 := Ctx([[Constant(0, Int(5))]], 0, 1, map[], []);
    assert BuildExpr(v, g0, IntLit(5)) == BuiltExpr(g1, 0);
    EmitOne(g1, Inst.Return(Some(0)));
    assert [Constant(0, Int(5))] + [Inst.Return(Some(0))] == ClobberModule().funcs[1].blocks[0];
    assert BuildFunc(v, fs[1]) == Some(ClobberModule().funcs[1]);
    assert fs[..1][..0] == [] && fs[..1][0] == fs[0];
    assert BuildFuncs(v, fs[..1][..0]) == Some([]);
    assert [] + [ClobberModule().funcs[0]] == [ClobberModule().funcs[0]];
    assert BuildFuncs(v, fs[..1]) == Some([ClobberModule().funcs[0]]);
    assert [ClobberModule().funcs[0]] + [ClobberModule().funcs[1]] == ClobberModule().funcs;
  }

  // ----- to the byte code -----

  lemma {:induction false} NoJumps(list: seq<Inst>)
    requires forall i <- list :: !i.Jump? && !i.Branch?
    ensures Emitted(list).patches == []
    decreases |list|
  {
    if list != [] { NoJumps(list[..|list| - 1]); }
  }

  /** A function of one block of encodable instructions can be lowered. */
  lemma StraightLine(f: Func)
    requires f.arity <= 255 && |f.blocks| == 1
    requires forall i <- f.blocks[0] :: Encodable(i) && !i.Jump? && !i.Branch?
    ensures Lowerable(f)
  {
    hide Encodable;
    assert f.blocks[..0] == [];
    assert Flat(f.blocks) == Flat(f.blocks[..0]) + f.blocks[0] == f.blocks[0];
    NoJumps(f.blocks[0]);
  }

  lemma CompiledFrom(p: Program, m: Module)
    requires BuildFuncs(Visible(p), p.funcs) == Some(m.funcs) && GlobalsOf(p.funcs) == m.globals
    requires forall f <- m.funcs :: Lowerable(f)
    ensures Compile(p).Some? && Image(p) == m
  {
    hide BuildFuncs, LowerAll, Lowerable, GlobalsOf;
    LowerEach(p.funcs, m.funcs);
  }

  /** What the IR machine ends with, the lowered code ends with. */
  lemma ByteCodeEnds(p: Program, v: B.Vm, id: nat, n: nat, end: End) returns (k: nat)
    requires Compile(p).Some? && Starts(p, v, id)
    requires Run(Image(p), IrStart(v.state.stack, id), n) == Halted(end)
    ensures B.Run(Compile(p).value, v, k).state == Halted(end)
  {
    hide Compile, Image, Run, B.Run, TotalCost, B.Visible, GlobalsOf;
    StartRel(p, v, id);
    var m, s := Image(p), IrStart(v.state.stack, id);
    RunSim(m, Compile(p).value, s, v, n);
    k := TotalCost(m, s, n);
    RelHalted(m, Run(m, s, n), B.Run(Compile(p).value, v, k));
  }

  // ----- a call without arguments -----

  /** Emission into a function of one block. */
  lemma EmitOne(g: Ctx, i: Inst)
    requires |g.blocks| == 1 && g.cur == 0
    ensures Emit(g, i) == g.(blocks := [g.blocks[0] + [i]])
  {
    assert g.blocks[0 := g.blocks[0] + [i]] == [g.blocks[0] + [i]];
  }

  /** After the call. */
  function Called(): Ctx {
    Ctx([[LoadGlobal(1, G), Inst.Call(2, 1, None, 0)]], 0, 3, map[A := 0], [])
  }

  lemma CallBuilt()
    ensures BuildStmt({MAIN, G}, StartFunc(Clobber().funcs[0]), OneCall()) == Some(Called())
  {
    var v, g0, g2 := {MAIN, G}, StartFunc(Clobber().funcs[0]), Called();
    assert g0.names == map[A := 0];
    var g1 := Ctx([[LoadGlobal(1, G)]], 0, 2, map[A := 0], []);
    EmitOne(Fresh(g0), LoadGlobal(1, G));
    assert [] + [LoadGlobal(1, G)] == [LoadGlobal(1, G)];
    assert BuildExpr(v, g0, Ident(G)) == BuiltExpr(g1, 1);
    EmitOne(Fresh(g1), Inst.Call(2, 1, None, 0));
    assert [LoadGlobal(1, G)] + [Inst.Call(2, 1, None, 0)] == g2.blocks[0];
    assert BuildCall(g1, 1, []) == BuiltExpr(g2, 2);
    assert BuildArgs(v, g1, Args.NoArgs) == BuiltArgs(g1, []);
  }

  lemma MainBuilt()
    ensures BuildFunc({MAIN, G}, Clobber().funcs[0]) == Some(ClobberModule().funcs[0])
  {
    var v, g2 := {MAIN, G}, Called();
    CallBuilt();
    var rest := Seq(Stmt.Return(Some(Ident(A))), Done);
    EmitOne(g2, Inst.Return(Some(0)));
    assert g2.blocks[0] + [Inst.Return(Some(0))] == ClobberModule().funcs[0].blocks[0];
    assert BuildStmts(v, g2, rest) == Some(Emit(g2, Inst.Return(Some(0))));
  }

  lemma ClobberLowerable()
    ensures Lowerable(ClobberModule().funcs[0]) && Lowerable(ClobberModule().funcs[1])
  {
    hide Lowerable;
    StraightLine(ClobberModule().funcs[0]);
    StraightLine(ClobberModule().funcs[1]);
  }

  lemma ClobberCompiled()
    ensures Compile(Clobber()).Some? && Image(Clobber()) == ClobberModule()
  {
    hide BuildFuncs, Lowerable, GlobalsOf, Clobber;
    ClobberBuilt();
    ClobberGlobals();
    ClobberLowerable();
    assert Visible(Clobber()) == {MAIN, G};
    CompiledFrom(Clobber(), ClobberModule());
  }

  /** The source says `main` hands its argument back; the byte code hands back what `g` left
      in the register the two windows share. */
  lemma ZeroArgumentCallClobbers(n: int, v: B.Vm) returns (k: nat)
    requires Starts(Clobber(), v, 0) && v.state.stack[0] == Int(n)
    ensures Compile(Clobber()).Some?
    ensures CallFunction(Clobber(), 0, [Int(n)], Fuel(0, 3)) == Result(Int(n))
    ensures B.Run(Compile(Clobber()).value, v, k).state == Halted(Finished(Int(5)))
  {
    hide Compile, Image, Run, B.Run, CallFunction;
    ClobberCompiled();
    ClobberInterpreted(n);
    ClobberRun(v.state.stack);
    k := ByteCodeEnds(Clobber(), v, 0, 5, Finished(Int(5)));
  }

  lemma ClobberInterpreted(n: int)
    ensures CallFunction(Clobber(), 0, [Int(n)], Fuel(0, 3)) == Result(Int(n))
  {
    ClobberGlobals();
    var p, env: Env := Clobber(), map[A := Int(n)];
    assert CallFunction(p, 1, [], Fuel(0, 2)) == Result(Int(5));
    assert EvalExpr(p, env, Ident(G), Fuel(0, 2)) == Val(Function(1));
    assert EvalArgs(p, env, Args.NoArgs, Fuel(0, 2)) == Vals([]);
    assert ExecStmt(p, env, OneCall(), Fuel(0, 2)) == Normal(env);
    assert ExecStmts(p, env, Seq(Stmt.Return(Some(Ident(A))), Done), Fuel(0, 2)) == Returned(Int(n));
    assert BindParams([A], [Int(n)]) == env;
  }

  lemma ClobberRun(stack: seq<Value>)
    requires |stack| == STACK_CAPACITY
    ensures Run(ClobberModule(), Running(stack, Frame(0, ENTRY, 0, 0), []), 5) == Halted(Finished(Int(5)))
  {
    hide Step, Run, ClobberModule;
    var m := ClobberModule();
    var called := stack[1 := Function(1)];
    var done := called[0 := Int(5)];
    ToCall(stack);
    ToCallee(called);
    InCallee(called);
    ToCaller(done);
    AtEnd(done[2 := Int(5)]);
    FiveSteps(m, Running(stack, Frame(0, ENTRY, 0, 0), []));
  }

  lemma ToCall(stack: seq<Value>)
    requires |stack| == STACK_CAPACITY
    ensures Step(ClobberModule(), Running(stack, Frame(0, ENTRY, 0, 0), [])) ==
            Running(stack[1 := Function(1)], Frame(0, Point(0, 1), 0, 0), [])
  {
  }

  lemma ToCallee(stack: seq<Value>)
    requires |stack| == STACK_CAPACITY && stack[1] == Function(1)
    ensures Step(ClobberModule(), Running(stack, Frame(0, Point(0, 1), 0, 0), [])) ==
            Running(stack, Frame(1, ENTRY, 0, 2), [Frame(0, Point(0, 2), 0, 0)])
  {
  }

  lemma InCallee(stack: seq<Value>)
    requires |stack| == STACK_CAPACITY
    ensures Step(ClobberModule(), Running(stack, Frame(1, ENTRY, 0, 2), [Frame(0, Point(0, 2), 0, 0)])) ==
            Running(stack[0 := Int(5)], Frame(1, Point(0, 1), 0, 2), [Frame(0, Point(0, 2), 0, 0)])
  {
  }

  lemma ToCaller(stack: seq<Value>)
    requires |stack| == STACK_CAPACITY && stack[0] == Int(5)
    ensures Step(ClobberModule(), Running(stack, Frame(1, Point(0, 1), 0, 2), [Frame(0, Point(0, 2), 0, 0)])) ==
            Running(stack[2 := Int(5)], Frame(0, Point(0, 2), 0, 0), [])
  {
    assert stack[0 := stack[0]] == stack;
    assert [Frame(0, Point(0, 2), 0, 0)][..0] == [];
  }

  lemma AtEnd(stack: seq<Value>)
    requires |stack| == STACK_CAPACITY && stack[0] == Int(5)
    ensures Step(ClobberModule(), Running(stack, Frame(0, Point(0, 2), 0, 0), [])) == Halted(Finished(Int(5)))
  {
  }

  lemma FiveSteps(m: Module, s: IrState)
    ensures Run(m, s, 5) == Step(m, Step(m, Step(m, Step(m, Step(m, s)))))
  {
    hide Step;
    assert Run(m, s, 5) == Run(m, Step(m, Step(m, s)), 3);
    assert Run(m, Step(m, Step(m, s)), 3) == Run(m, Step(m, Step(m, Step(m, Step(m, s)))), 1);
  }

  // ----- a hidden parameter -----

  /** main(a) { { var x = 5; } return a; } */
  function HidingMain(x: Name): FuncDecl {
    FuncDecl(MAIN, [A], Block(Seq(Block(Seq(VarDecl(x, IntLit(5)), Done)), Seq(Stmt.Return(Some(Ident(A))), Done))))
  }

  function Shadow(x: Name): Program {
    Program([HidingMain(x)])
  }

  function ShadowModule(x: Name): Module {
    Module([Func(1, 3, [[Constant(2, Int(5)), Move(1, 2), Inst.Return(Some(if x == A then 1 else 0))]])], map[MAIN := 0])
  }

  /** After the inner declaration. */
  function Declared(x: Name): Ctx {
    Ctx([[Constant(2, Int(5)), Move(1, 2)]], 0, 3, map[A := 0][x := 1], [])
  }

  lemma DeclarationBuilt(x: Name)
    ensures BuildStmt({MAIN}, StartFunc(HidingMain(x)), VarDecl(x, IntLit(5))) == Some(Declared(x))
  {
    var g0 := StartFunc(HidingMain(x));
    assert g0.names == map[A := 0];
    var h := g0.(nv := 3, names := Declared(x).names);
    EmitOne(h, Constant(2, Int(5)));
    assert [] + [Constant(2, Int(5))] == [Constant(2, Int(5))];
    EmitOne(h.(blocks := [[Constant(2, Int(5))]]), Move(1, 2));
    assert [Constant(2, Int(5))] + [Move(1, 2)] == Declared(x).blocks[0];
  }

  lemma ShadowBuilt(x: Name)
    ensures BuildFunc({MAIN}, HidingMain(x)) == Some(ShadowModule(x).funcs[0])
  {
    var v, d := {MAIN}, HidingMain(x);
    var g0, g1, i := StartFunc(d), Declared(x), Inst.Return(Some(if x == A then 1 else 0));
    DeclarationBuilt(x);
    EmitOne(g1, i);
    assert g1.blocks[0] + [i] == [Constant(2, Int(5)), Move(1, 2), i];
    assert BuildStmt(v, g1, Stmt.Return(Some(Ident(A)))) == Some(Emit(g1, i));
    assert BuildStmts(v, g0, Seq(VarDecl(x, IntLit(5)), Done)) == Some(g1);
    assert BuildStmts(v, g0, d.body.body) == BuildStmts(v, g1, Seq(Stmt.Return(Some(Ident(A))), Done));
  }

  lemma ShadowCompiled(x: Name)
    ensures Compile(Shadow(x)).Some? && Image(Shadow(x)) == ShadowModule(x)
  {
    hide BuildFunc, Lowerable;
    var p, m := Shadow(x), ShadowModule(x);
    assert p.funcs[..0] == [];
    assert GlobalsOf(p.funcs) == GlobalsOf(p.funcs[..0])[MAIN := 0] == map[MAIN := 0];
    ShadowBuilt(x);
    assert BuildFuncs({MAIN}, p.funcs[..0]) == Some([]);
    assert [] + [m.funcs[0]] == m.funcs;
    assert BuildFuncs({MAIN}, p.funcs) == Some(m.funcs);
    StraightLine(m.funcs[0]);
    assert Visible(p) == {MAIN};
    CompiledFrom(p, m);
  }

  lemma ShadowInterpreted(x: Name, n: int)
    ensures CallFunction(Shadow(x), 0, [Int(n)], Fuel(0, 1)) == Result(Int(n))
  {
    var p, env: Env := Shadow(x), map[A := Int(n)];
    assert BindParams([A], [Int(n)]) == env;
    var inner := Seq(VarDecl(x, IntLit(5)), Done);
    assert ExecStmts(p, env[x := Int(5)], Done, Fuel(0, 0)) == Normal(env[x := Int(5)]);
    var after := if x in env then env[x := Int(5)][x := env[x]] else env[x := Int(5)];
    assert ExecStmt(p, env, VarDecl(x, IntLit(5)), Fuel(0, 0)) == Normal(env[x := Int(5)]);
    assert ExecStmts(p, env, inner, Fuel(0, 0)) == Normal(after);
    assert Restrict(after, env.Keys) == env;
    assert ExecStmt(p, env, Block(inner), Fuel(0, 0)) == Normal(env);
    assert ExecStmts(p, env, Seq(Stmt.Return(Some(Ident(A))), Done), Fuel(0, 0)) == Returned(Int(n));
  }

  lemma ShadowRun(x: Name, stack: seq<Value>)
    requires |stack| == STACK_CAPACITY
    ensures Run(ShadowModule(x), IrStart(stack, 0), 3) == Halted(Finished(if x == A then Int(5) else stack[0]))
  {
    var m := ShadowModule(x);
    var s0, s1, s2 := stack, stack[2 := Int(5)], stack[2 := Int(5)][1 := Int(5)];
    assert Step(m, IrStart(s0, 0)) == Running(s1, Frame(0, Point(0, 1), 0, 0), []);
    assert Step(m, Running(s1, Frame(0, Point(0, 1), 0, 0), [])) == Running(s2, Frame(0, Point(0, 2), 0, 0), []);
    assert Step(m, Running(s2, Frame(0, Point(0, 2), 0, 0), [])) == Halted(Finished(if x == A then s2[1] else s2[0]));
    ThreeSteps(m, IrStart(s0, 0));
  }

  lemma ThreeSteps(m: Module, s: IrState)
    ensures Run(m, s, 3) == Step(m, Step(m, Step(m, s)))
  {
    hide Step;
    assert Run(m, s, 3) == Run(m, Step(m, Step(m, s)), 1);
  }

  /** Whatever the local is called, the source hands the argument back; the byte code does too,
      unless the local was called `a`: then it hands back the local's value. */
  lemma HiddenMentionLeaks(x: Name, n: int, v: B.Vm) returns (k: nat)
    requires Starts(Shadow(x), v, 0) && v.state.stack[0] == Int(n)
    ensures Compile(Shadow(x)).Some?
    ensures CallFunction(Shadow(x), 0, [Int(n)], Fuel(0, 1)) == Result(Int(n))
    ensures B.Run(Compile(Shadow(x)).value, v, k).state == Halted(Finished(Int(if x == A then 5 else n)))
  {
    hide Compile, Image, Run, B.Run, CallFunction;
    ShadowCompiled(x);
    ShadowInterpreted(x, n);
    ShadowRun(x, v.state.stack);
    k := ByteCodeEnds(Shadow(x), v, 0, 3, Finished(Int(if x == A then 5 else n)));
  }
}
