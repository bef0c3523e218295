/**
 The builder preserves meaning: the IR machine, started where a statement was built, does
 what the reference interpreter does with that statement, for every amount of fuel.
 Every lemma returns the number of machine steps it talks about.
 */
module BuildSim {
  import opened Values
  import opened Machine
  import opened Source
  import opened Ir
  import opened Build
  import opened BuildShape
  import opened BuildScope
  import opened Overwriting

  /** `m` is what building the scoped program `p` produced, small enough for 8-bit registers. */
  ghost predicate Compiled(m: Module, p: Program) {
    && ScopedProgram(p)
    && |m.funcs| == |p.funcs| && m.globals == GlobalsOf(p.funcs)
    && (forall i | 0 <= i < |p.funcs| :: BuildFunc(Visible(p), p.funcs[i]) == Some(m.funcs[i]))
    && (forall i | 0 <= i < |p.funcs| :: m.funcs[i].nregs <= 256)
  }

  /** The variables of `env` are in their registers. */
  ghost predicate EnvIn(env: Env, names: map<Name, Reg>, stack: seq<Value>, base: nat) {
    forall x <- env :: x in names && base + names[x] < |stack| && stack[base + names[x]] == env[x]
  }

  /** The current window lies in the register file. */
  ghost predicate Window(m: Module, st: IrState, fn: nat) {
    && st.Running? && st.top.fn == fn < |m.funcs|
    && |st.stack| == STACK_CAPACITY
    && st.top.base + m.funcs[fn].nregs <= STACK_CAPACITY && st.top.base < STACK_CAPACITY
    && st.top.base <= 255 * |st.callers|
    && (st.callers != [] ==> st.callers[|st.callers| - 1].base + st.top.out < STACK_CAPACITY)
  }

  /** The machine is about to execute the first instruction `g` does not have yet. */
  ghost predicate At(m: Module, st: IrState, fn: nat, g: Ctx) {
    && HasBlock(g) && Window(m, st, fn) && st.top.pc == Point(g.cur, |g.blocks[g.cur]|)
  }

  /** What has been built so far is part of the finished function. */
  ghost predicate Fits(m: Module, fn: nat, g: Ctx) {
    fn < |m.funcs| && Within(g.blocks, m.funcs[fn].blocks) && g.nv <= m.funcs[fn].nregs
  }

  ghost predicate Ready(m: Module, p: Program, st: IrState, fn: nat, g: Ctx, env: Env) {
    && Inv(g) && !Terminated(g) && At(m, st, fn, g)
    && NamesFor(p, env.Keys, g.names)
    && EnvIn(env, g.names, st.stack, st.top.base)
  }

  /** `t` continues the activation of `s`, its registers below `keep` and those of the callers intact. */
  ghost predicate SameFrame(s: IrState, t: IrState, keep: nat)
    requires s.Running?
  {
    && t.Running? && t.top.(pc := s.top.pc) == s.top && t.callers == s.callers
    && |t.stack| == |s.stack|
    && forall i | 0 <= i < |s.stack| && i < s.top.base + keep :: t.stack[i] == s.stack[i]
  }

  ghost predicate HitLimit(st: IrState) {
    st.Halted? && st.end.Faulted? && IsMachineLimit(st.end.f)
  }

  /** Counting the calls that the interpreter may still open, there may be 32 windows or more at once. */
  ghost predicate Deep(st: IrState, fuel: Fuel) {
    st.Running? && |st.callers| + fuel.depth >= 31
  }

  /** Fewer steps than this do not use up the fuel. */
  function Least(fuel: Fuel): nat {
    if fuel.turns < fuel.depth then fuel.turns else fuel.depth
  }

  /** Whoever runs out of fuel has made that many steps; the machine meets a limit only with many
      windows open. */
  ghost predicate Spent(st: IrState, t: IrState, timeout: bool, n: nat, fuel: Fuel) {
    (timeout ==> n >= Least(fuel) || HitLimit(t)) && (HitLimit(t) ==> Deep(st, fuel))
  }

  /** The activation of `s` has returned `v`: to its caller's out register, or as the
      result of the run. */
  ghost predicate ReturnedTo(s: IrState, t: IrState, v: Value)
    requires s.Running?
  {
    if s.callers == [] then t == Halted(Finished(v))
    else
      var n := |s.callers| - 1;
      var slot := s.callers[n].base + s.top.out;
      && t.Running? && t.top == s.callers[n] && t.callers == s.callers[..n]
      && |t.stack| == |s.stack| && slot < |t.stack| && t.stack[slot] == v
      && forall i | 0 <= i < |s.stack| && i < s.top.base && i != slot :: t.stack[i] == s.stack[i]
  }

  // ----- single instructions -----

  lemma StepAt(m: Module, st: IrState, fn: nat, g: Ctx, i: Inst)
    requires At(m, st, fn, g) && Fits(m, fn, Emit(g, i))
    ensures Step(m, st) == ExecInst(m, st, i)
  {
    assert Emit(g, i).blocks[g.cur][|g.blocks[g.cur]|] == i;
    assert Emit(g, i).blocks[g.cur] <= m.funcs[fn].blocks[g.cur];
  }

  /** A window operation with its destination in the window. */
  lemma OpStep(m: Module, st: IrState, fn: nat, g: Ctx, i: Inst, op: RegOp)
    requires At(m, st, fn, g) && Fits(m, fn, Emit(g, i)) && AsRegOp(i) == Some(op)
    requires OpInFile(op, st.stack, st.top.base)
    ensures match OpValue(op, st.stack, st.top.base, m.globals)
            case Ok(v) =>
              var t := Step(m, st);
              SameFrame(st, t, op.dst) && At(m, t, fn, Emit(g, i)) &&
              t.stack == st.stack[st.top.base + op.dst := v]
            case Err(f) => Step(m, st) == Halted(Faulted(f))
  {
    StepAt(m, st, fn, g, i);
  }

  /** No limit of the machine stops a window operation. */
  lemma OpFault(op: RegOp, stack: seq<Value>, base: nat, globals: map<NameId, nat>)
    requires OpInFile(op, stack, base)
    ensures var v := OpValue(op, stack, base, globals); v.Err? ==> !IsMachineLimit(v.fault)
  {
  }

  lemma RunStep(m: Module, st: IrState, n: nat)
    ensures Run(m, st, n + 1) == Step(m, Run(m, st, n))
  {
    RunSplit(m, st, n, 1);
  }

  // ----- expressions -----

  ghost predicate ExprPost(m: Module, st: IrState, t: IrState, fn: nat, g: Ctx, g': Ctx, r: Reg, res: ExprResult) {
    st.Running? &&
    (HitLimit(t) ||
     match res
     case Val(v) =>
       SameFrame(st, t, g.nv) && At(m, t, fn, g') &&
       t.top.base + r < |t.stack| && t.stack[t.top.base + r] == v
     case ExprFault(f) => t == Halted(Faulted(f))
     case ExprTimeout => t.Running?)
  }

  ghost predicate ArgsPost(m: Module, st: IrState, t: IrState, fn: nat, g: Ctx, g': Ctx, rs: seq<Reg>, res: ArgsResult) {
    st.Running? &&
    (HitLimit(t) ||
     match res
     case Vals(vs) =>
       SameFrame(st, t, g.nv) && At(m, t, fn, g') && |vs| == |rs| && Holds(t, rs, vs)
     case ArgsFault(f) => t == Halted(Faulted(f))
     case ArgsTimeout => t.Running?)
  }

  ghost predicate Holds(t: IrState, rs: seq<Reg>, vs: seq<Value>)
    requires t.Running? && |vs| == |rs|
  {
    forall k | 0 <= k < |rs| :: t.top.base + rs[k] < |t.stack| && t.stack[t.top.base + rs[k]] == vs[k]
  }

  /** Ends an expression with a fresh destination: one more step. */
  lemma DefineSim(m: Module, st: IrState, fn: nat, g: Ctx, i: Inst, op: RegOp) returns (t: IrState)
    requires At(m, st, fn, g) && Inv(g) && AsRegOp(i) == Some(op) && op.dst == g.nv
    requires Fits(m, fn, Define(g, i).g) && OpInFile(op, st.stack, st.top.base)
    ensures t == Step(m, st) && !HitLimit(t)
    ensures ExprPost(m, st, t, fn, g, Define(g, i).g, g.nv, OfResult(OpValue(op, st.stack, st.top.base, m.globals)))
  {
    t := Step(m, st);
    OpFault(op, st.stack, st.top.base, m.globals);
    OpStep(m, st, fn, Fresh(g), i, op);
  }

  lemma FrameTrans(a: IrState, b: IrState, c: IrState, k: nat, k': nat)
    requires a.Running? && b.Running? && k <= k' && SameFrame(a, b, k) && SameFrame(b, c, k')
    ensures SameFrame(a, c, k)
  {
  }

  /** Evaluating a part of an expression leaves everything ready for the next part. */
  lemma ReadyNext(m: Module, p: Program, st: IrState, t: IrState, fn: nat, g: Ctx, g': Ctx, env: Env)
    requires Ready(m, p, st, fn, g, env) && SameFrame(st, t, g.nv) && At(m, t, fn, g') && ExprShape(g, g')
    ensures Ready(m, p, t, fn, g', env)
  {
    hide CodeOk, Constants;
    forall x <- env
      ensures t.top.base + g'.names[x] < |t.stack| && t.stack[t.top.base + g'.names[x]] == env[x]
    {
      assert g.names[x] < g.nv;
    }
  }

  lemma SpentTrans(st: IrState, st1: IrState, t: IrState, timeout: bool, n: nat, k: nat, fuel: Fuel)
    requires st.Running? && SameFrame(st, st1, 0) && Spent(st1, t, timeout, k, fuel)
    ensures Spent(st, t, timeout, n + k, fuel)
  {
  }

  lemma FitsEarlier(m: Module, fn: nat, g: Ctx, g': Ctx)
    requires Extends(g, g') && Fits(m, fn, g')
    ensures Fits(m, fn, g)
  {
    WithinExtended(g, g', m.funcs[fn].blocks);
  }

  /** A later part's result is the result of the whole. */
  lemma PostTrans(m: Module, st: IrState, st1: IrState, t: IrState, fn: nat, g: Ctx, g1: Ctx, g': Ctx, r: Reg,
                  res: ExprResult)
    requires st.Running? && g.nv <= g1.nv && SameFrame(st, st1, g.nv) && ExprPost(m, st1, t, fn, g1, g', r, res)
    ensures ExprPost(m, st, t, fn, g, g', r, res)
  {
  }

  lemma DstInFile(m: Module, t: IrState, fn: nat, g: Ctx, g': Ctx)
    requires At(m, t, fn, g) && Fits(m, fn, g') && g.nv < g'.nv
    ensures InFile(t.stack, t.top.base, g.nv)
  {
  }

  /** Ends an expression, whose parts took `n` steps, with one more instruction. */
  lemma EndSim(m: Module, st: IrState, n: nat, fn: nat, g: Ctx, g1: Ctx, i: Inst, op: RegOp)
    requires st.Running? && Inv(g1) && AsRegOp(i) == Some(op) && op.dst == g1.nv && g.nv <= g1.nv
    requires var t := Run(m, st, n);
             SameFrame(st, t, g.nv) && At(m, t, fn, g1) && OpInFile(op, t.stack, t.top.base)
    requires Fits(m, fn, Define(g1, i).g)
    ensures var t := Run(m, st, n);
            ExprPost(m, st, Run(m, st, n + 1), fn, g, Define(g1, i).g, g1.nv,
                     OfResult(OpValue(op, t.stack, t.top.base, m.globals)))
    ensures !HitLimit(Run(m, st, n + 1))
  {
    hide Inv, Within, Run, Step;
    var t := Run(m, st, n);
    var u := DefineSim(m, t, fn, g1, i, op);
    PostTrans(m, st, t, u, fn, g, g1, Define(g1, i).g, g1.nv, OfResult(OpValue(op, t.stack, t.top.base, m.globals)));
    RunStep(m, st, n);
  }

  /** The expression built in `g` behaves as the interpreter says. */
  ghost predicate ExprSimulated(m: Module, p: Program, st: IrState, fn: nat, g: Ctx, e: Expr, env: Env, fuel: Fuel, n: nat)
    requires HasBlock(g)
  {
    var r := BuildExpr(Visible(p), g, e);
    var res := EvalExpr(p, env, e, fuel);
    var t := Run(m, st, n);
    r.BuiltExpr? && ExprPost(m, st, t, fn, g, r.g, r.r, res) && Spent(st, t, res.ExprTimeout?, n, fuel)
  }

  lemma {:induction false} ExprSim(m: Module, p: Program, st: IrState, fn: nat, g: Ctx, e: Expr, env: Env, fuel: Fuel)
    returns (n: nat)
    requires Compiled(m, p) && Ready(m, p, st, fn, g, env) && ScopedExpr(p, env.Keys, e)
    requires BuildExpr(Visible(p), g, e).BuiltExpr? && Fits(m, fn, BuildExpr(Visible(p), g, e).g)
    ensures ExprSimulated(m, p, st, fn, g, e, env, fuel, n)
    decreases fuel.depth, fuel.turns, 1, e, 2
  {
    hide CodeOk, Constants, Compiled, Within;
    match e
    case IntLit(i) =>
      var t := DefineSim(m, st, fn, g, Constant(g.nv, Int(i)), Load(g.nv, Int(i)));
      return 1;
    case BoolLit(b) =>
      var t := DefineSim(m, st, fn, g, Constant(g.nv, Bool(b)), Load(g.nv, Bool(b)));
      return 1;
    case Ident(x) =>
      n := IdentSim(m, p, st, fn, g, e, env, fuel);
    case Binary(_, _, _) =>
      n := BinarySim(m, p, st, fn, g, e, env, fuel);
    case Unary(_, _) =>
      n := UnarySim(m, p, st, fn, g, e, env, fuel);
    case Call(_, _) =>
      n := CallExprSim(m, p, st, fn, g, e, env, fuel);
  }

  lemma IdentSim(m: Module, p: Program, st: IrState, fn: nat, g: Ctx, e: Expr, env: Env, fuel: Fuel)
    returns (n: nat)
    requires e.Ident? && Compiled(m, p) && Ready(m, p, st, fn, g, env) && ScopedExpr(p, env.Keys, e)
    requires BuildExpr(Visible(p), g, e).BuiltExpr? && Fits(m, fn, BuildExpr(Visible(p), g, e).g)
    ensures ExprSimulated(m, p, st, fn, g, e, env, fuel, n)
  {
    hide Within, Extends, BuildFunc, ScopedProgram, CodeOk, Constants;
    if e.x in env {
      n := 0;
    } else {
      var t := DefineSim(m, st, fn, g, LoadGlobal(g.nv, e.x), Global(g.nv, e.x));
      n := 1;
    }
  }

  lemma UnaryParts(p: Program, g: Ctx, e: Expr, env: Env, fuel: Fuel)
    requires e.Unary? && HasBlock(g) && BuildExpr(Visible(p), g, e).BuiltExpr?
    ensures var a := BuildExpr(Visible(p), g, e.operand);
            a.BuiltExpr? && BuildExpr(Visible(p), g, e) == Define(a.g, UnaryInst(e.uop, a.g.nv, a.r))
    ensures var v := EvalExpr(p, env, e.operand, fuel);
            EvalExpr(p, env, e, fuel) == if v.Val? then OfResult(ApplyUn(e.uop, v.v)) else v
  {
  }

  lemma UnarySim(m: Module, p: Program, st: IrState, fn: nat, g: Ctx, e: Expr, env: Env, fuel: Fuel)
    returns (n: nat)
    requires e.Unary? && Compiled(m, p) && Ready(m, p, st, fn, g, env) && ScopedExpr(p, env.Keys, e)
    requires BuildExpr(Visible(p), g, e).BuiltExpr? && Fits(m, fn, BuildExpr(Visible(p), g, e).g)
    ensures ExprSimulated(m, p, st, fn, g, e, env, fuel, n)
    decreases fuel.depth, fuel.turns, 1, e, 0
  {
    hide Inv, Compiled, Within, EnvIn, NamesFor, Run, Step, Extends, EvalExpr, BuildExpr;
    UnaryParts(p, g, e, env, fuel);
    var a := BuildExpr(Visible(p), g, e.operand);
    ExprKeepsShape(Visible(p), g, e.operand);
    var i := UnaryInst(e.uop, a.g.nv, a.r);
    DefineShape(a.g, i);
    FitsEarlier(m, fn, a.g, Define(a.g, i).g);
    n := ExprSim(m, p, st, fn, g, e.operand, env, fuel);
    var st1 := Run(m, st, n);
    if HitLimit(st1) || !EvalExpr(p, env, e.operand, fuel).Val? { return; }
    DstInFile(m, st1, fn, a.g, Define(a.g, i).g);
    EndSim(m, st, n, fn, g, a.g, i, AsRegOp(i).value);
    n := n + 1;
  }

  /** Both operands of a binary expression, left to right. */
  lemma OperandsSim(m: Module, p: Program, st: IrState, fn: nat, g: Ctx, e: Expr, env: Env, fuel: Fuel)
    returns (n: nat)
    requires e.Binary? && Compiled(m, p) && Ready(m, p, st, fn, g, env) && ScopedExpr(p, env.Keys, e)
    requires BuildExpr(Visible(p), g, e).BuiltExpr?
    requires Fits(m, fn, BuildExpr(Visible(p), BuildExpr(Visible(p), g, e.left).g, e.right).g)
    ensures var l := BuildExpr(Visible(p), g, e.left);
            var r := BuildExpr(Visible(p), l.g, e.right);
            var lv, rv := EvalExpr(p, env, e.left, fuel), EvalExpr(p, env, e.right, fuel);
            var t := Run(m, st, n);
            (HitLimit(t) ==> Deep(st, fuel)) &&
            (HitLimit(t) ||
             if lv.Val? && rv.Val? then
               SameFrame(st, t, g.nv) && At(m, t, fn, r.g) && Holds(t, [l.r, r.r], [lv.v, rv.v])
             else
               var bad := if lv.Val? then rv else lv;
               if bad.ExprFault? then t == Halted(Faulted(bad.f)) else t.Running? && n >= Least(fuel))
    decreases fuel.depth, fuel.turns, 1, e, 0
  {
    hide Inv, Compiled, Within, EnvIn, NamesFor, Run, Step, Extends, EvalExpr, BuildExpr, Fits;
    BinaryParts(p, g, e, env, fuel);
    var left, right := e.left, e.right;
    var l := BuildExpr(Visible(p), g, left);
    ExprKeepsShape(Visible(p), g, left);
    var r := BuildExpr(Visible(p), l.g, right);
    ExprKeepsShape(Visible(p), l.g, right);
    FitsEarlier(m, fn, l.g, r.g);
    n := ExprSim(m, p, st, fn, g, left, env, fuel);
    var st1 := Run(m, st, n);
    if HitLimit(st1) || !EvalExpr(p, env, left, fuel).Val? { return; }
    ReadyNext(m, p, st, st1, fn, g, l.g, env);
    var n2 := ExprSim(m, p, st1, fn, l.g, right, env, fuel);
    RunSplit(m, st, n, n2);
    n := n + n2;
    var st2 := Run(m, st1, n2);
    if HitLimit(st2) || !EvalExpr(p, env, right, fuel).Val? { return; }
    FrameTrans(st, st1, st2, g.nv, l.g.nv);
  }

  lemma BinaryParts(p: Program, g: Ctx, e: Expr, env: Env, fuel: Fuel)
    requires e.Binary? && HasBlock(g) && BuildExpr(Visible(p), g, e).BuiltExpr?
    ensures var l := BuildExpr(Visible(p), g, e.left);
            l.BuiltExpr? &&
            var r := BuildExpr(Visible(p), l.g, e.right);
            r.BuiltExpr? && BuildExpr(Visible(p), g, e) == Define(r.g, Bin(e.op, r.g.nv, l.r, r.r))
    ensures var lv, rv := EvalExpr(p, env, e.left, fuel), EvalExpr(p, env, e.right, fuel);
            EvalExpr(p, env, e, fuel) ==
            if !lv.Val? then lv else if !rv.Val? then rv else OfResult(ApplyBin(e.op, lv.v, rv.v))
  {
  }

  lemma BinarySim(m: Module, p: Program, st: IrState, fn: nat, g: Ctx, e: Expr, env: Env, fuel: Fuel)
    returns (n: nat)
    requires e.Binary? && Compiled(m, p) && Ready(m, p, st, fn, g, env) && ScopedExpr(p, env.Keys, e)
    requires BuildExpr(Visible(p), g, e).BuiltExpr? && Fits(m, fn, BuildExpr(Visible(p), g, e).g)
    ensures ExprSimulated(m, p, st, fn, g, e, env, fuel, n)
    decreases fuel.depth, fuel.turns, 1, e, 1
  {
    hide Inv, Compiled, Within, EnvIn, NamesFor, Run, Step, Extends, ApplyBin, EvalExpr, BuildExpr, ScopedExpr;
    BinaryParts(p, g, e, env, fuel);
    var l := BuildExpr(Visible(p), g, e.left);
    ExprKeepsShape(Visible(p), g, e.left);
    var r := BuildExpr(Visible(p), l.g, e.right);
    ExprKeepsShape(Visible(p), l.g, e.right);
    var i := Bin(e.op, r.g.nv, l.r, r.r);
    DefineShape(r.g, i);
    FitsEarlier(m, fn, r.g, Define(r.g, i).g);
    n := OperandsSim(m, p, st, fn, g, e, env, fuel);
    var t := Run(m, st, n);
    if HitLimit(t) || !EvalExpr(p, env, e.left, fuel).Val? || !EvalExpr(p, env, e.right, fuel).Val? { return; }
    assert [l.r, r.r][0] == l.r && [l.r, r.r][1] == r.r;
    DstInFile(m, t, fn, r.g, Define(r.g, i).g);
    EndSim(m, st, n, fn, g, r.g, i, Arith(e.op, r.g.nv, l.r, r.r));
    n := n + 1;
  }

  // ----- calls -----

  ghost predicate ArgsSimulated(m: Module, p: Program, st: IrState, fn: nat, g: Ctx, args: Args, env: Env, fuel: Fuel, n: nat)
    requires HasBlock(g)
  {
    var r := BuildArgs(Visible(p), g, args);
    var res := EvalArgs(p, env, args, fuel);
    var t := Run(m, st, n);
    r.BuiltArgs? && ArgsPost(m, st, t, fn, g, r.g, r.rs, res) && Spent(st, t, res.ArgsTimeout?, n, fuel)
  }

  lemma ArgsParts(p: Program, g: Ctx, args: Args, env: Env, fuel: Fuel)
    requires args.Arg? && HasBlock(g) && BuildArgs(Visible(p), g, args).BuiltArgs?
    ensures var f := BuildExpr(Visible(p), g, args.first);
            f.BuiltExpr? &&
            var r := BuildArgs(Visible(p), f.g, args.rest);
            r.BuiltArgs? && BuildArgs(Visible(p), g, args) == BuiltArgs(r.g, [f.r] + r.rs)
    ensures var fv, rv := EvalExpr(p, env, args.first, fuel), EvalArgs(p, env, args.rest, fuel);
            EvalArgs(p, env, args, fuel) ==
            match fv
            case ExprFault(f) => ArgsFault(f)
            case ExprTimeout => ArgsTimeout
            case Val(v) => if rv.Vals? then Vals([v] + rv.vs) else rv
  {
  }

  lemma {:induction false} ArgsSim(m: Module, p: Program, st: IrState, fn: nat, g: Ctx, args: Args, env: Env, fuel: Fuel)
    returns (n: nat)
    requires Compiled(m, p) && Ready(m, p, st, fn, g, env) && ScopedArgs(p, env.Keys, args)
    requires BuildArgs(Visible(p), g, args).BuiltArgs? && Fits(m, fn, BuildArgs(Visible(p), g, args).g)
    ensures ArgsSimulated(m, p, st, fn, g, args, env, fuel, n)
    decreases fuel.depth, fuel.turns, 1, args
  {
    hide Inv, Compiled, Within, EnvIn, NamesFor, Run, Step, Extends, EvalExpr, BuildExpr, EvalArgs, BuildArgs, Fits,
         Holds, AllBelow, ScopedExpr;
    if args.NoArgs? {
      n := NoArgsSim(m, p, st, fn, g, args, env, fuel);
      return;
    }
    ArgsParts(p, g, args, env, fuel);
    var f := BuildExpr(Visible(p), g, args.first);
    ExprKeepsShape(Visible(p), g, args.first);
    var r := BuildArgs(Visible(p), f.g, args.rest);
    ArgsKeepShape(Visible(p), f.g, args.rest);
    FitsEarlier(m, fn, f.g, r.g);
    n := ExprSim(m, p, st, fn, g, args.first, env, fuel);
    var st1 := Run(m, st, n);
    var fv := EvalExpr(p, env, args.first, fuel);
    if HitLimit(st1) || !fv.Val? { return; }
    ReadyNext(m, p, st, st1, fn, g, f.g, env);
    var n2 := ArgsSim(m, p, st1, fn, f.g, args.rest, env, fuel);
    RunSplit(m, st, n, n2);
    n := n + n2;
    var st2 := Run(m, st1, n2);
    var rv := EvalArgs(p, env, args.rest, fuel);
    if HitLimit(st2) || !rv.Vals? { return; }
    FrameTrans(st, st1, st2, g.nv, f.g.nv);
    HoldsCons(st2, f.r, r.rs, fv.v, rv.vs);
  }

  lemma NoArgsSim(m: Module, p: Program, st: IrState, fn: nat, g: Ctx, args: Args, env: Env, fuel: Fuel)
    returns (n: nat)
    requires args.NoArgs? && Ready(m, p, st, fn, g, env)
    ensures ArgsSimulated(m, p, st, fn, g, args, env, fuel, n)
  {
    n := 0;
  }

  lemma HoldsCons(t: IrState, r: Reg, rs: seq<Reg>, v: Value, vs: seq<Value>)
    requires t.Running? && |rs| == |vs| && Holds(t, rs, vs)
    requires t.top.base + r < |t.stack| && t.stack[t.top.base + r] == v
    ensures Holds(t, [r] + rs, [v] + vs)
  {
  }

  /** The register contents at the argument slots. */
  ghost predicate InSlots(t: IrState, start: Reg, vs: seq<Value>)
    requires t.Running?
  {
    forall k | 0 <= k < |vs| :: t.top.base + start + k < |t.stack| && t.stack[t.top.base + start + k] == vs[k]
  }

  lemma MoveParts(g: Ctx, start: Reg, rs: seq<Reg>)
    requires Inv(g) && !Terminated(g) && rs != [] && start + |rs| <= g.nv && AllBelow(rs, start)
    ensures var g1 := EmitMoves(g, start, rs[..|rs| - 1]);
            Inv(g1) && !Terminated(g1) && Extends(g1, EmitMoves(g, start, rs)) &&
            EmitMoves(g, start, rs) == Emit(g1, Move(start + |rs| - 1, rs[|rs| - 1]))
  {
    hide CodeOk, Constants;
    var k := |rs| - 1;
    MovesShape(g, start, rs[..k]);
    MoveShape(EmitMoves(g, start, rs[..k]), start + k, rs[k]);
  }

  lemma NoMoves(m: Module, st: IrState, g: Ctx, start: Reg, rs: seq<Reg>)
    requires HasBlock(g) && rs == []
    ensures EmitMoves(g, start, rs) == g && Run(m, st, 0) == st
  {
  }

  /** Copying argument values to fresh slots overwrites none of them. */
  lemma {:induction false} MovesSim(m: Module, st: IrState, fn: nat, g: Ctx, start: Reg, rs: seq<Reg>, vs: seq<Value>)
    requires Inv(g) && At(m, st, fn, g) && |rs| == |vs| && Holds(st, rs, vs) && AllBelow(rs, start)
    requires !Terminated(g) && start + |rs| <= g.nv && Fits(m, fn, EmitMoves(g, start, rs))
    ensures var t := Run(m, st, |rs|);
            SameFrame(st, t, start) && At(m, t, fn, EmitMoves(g, start, rs)) && InSlots(t, start, vs)
    decreases |rs|
  {
    hide Inv, Within, Step, Extends, Run, EmitMoves;
    if rs == [] {
      NoMoves(m, st, g, start, rs);
      return;
    }
    var k := |rs| - 1;
    var g1 := EmitMoves(g, start, rs[..k]);
    var i := Move(start + k, rs[k]);
    MoveParts(g, start, rs);
    FitsEarlier(m, fn, g1, Emit(g1, i));
    MovesSim(m, st, fn, g, start, rs[..k], vs[..k]);
    var t := Run(m, st, k);
    assert st.stack[st.top.base + rs[k]] == vs[k];
    OpStep(m, t, fn, g1, i, Copy(start + k, rs[k]));
    RunStep(m, st, k);
    SlotsNext(t, Run(m, st, k + 1), start, vs);
  }

  lemma SlotsNext(t: IrState, u: IrState, start: Reg, vs: seq<Value>)
    requires t.Running? && u.Running? && vs != [] && u.top.base == t.top.base
    requires InSlots(t, start, vs[..|vs| - 1])
    requires t.top.base + start + |vs| <= |t.stack|
    requires u.stack == t.stack[t.top.base + start + |vs| - 1 := vs[|vs| - 1]]
    ensures InSlots(u, start, vs)
  {
    forall j | 0 <= j < |vs|
      ensures u.stack[u.top.base + start + j] == vs[j]
    {
      if j < |vs| - 1 { assert vs[..|vs| - 1][j] == vs[j]; }
    }
  }

  ghost predicate FuncPost(st: IrState, t: IrState, res: RunResult) {
    st.Running? &&
    (HitLimit(t) ||
     match res
     case Result(v) => ReturnedTo(st, t, v)
     case UnspecifiedResult => exists v :: ReturnedTo(st, t, v)
     case RunFault(f) => t == Halted(Faulted(f))
     case OutOfFuel => t.Running?)
  }

  /** Function `id` has just been entered with the given arguments in its first registers. */
  ghost predicate Entered(m: Module, p: Program, st: IrState, id: nat, vs: seq<Value>) {
    && id < |p.funcs| && |p.funcs[id].params| == |vs|
    && Window(m, st, id) && st.top.pc == ENTRY && InSlots(st, 0, vs)
  }

  /** What the interpreter does once callee and arguments are known. */
  function CallResult(p: Program, c: Value, vs: seq<Value>, fuel: Fuel): ExprResult {
    if !c.Function? || c.id >= |p.funcs| then ExprFault(NotCallable)
    else if |p.funcs[c.id].params| != |vs| then ExprFault(ArityMismatch)
    else match CallFunction(p, c.id, vs, fuel)
      case Result(v) => Val(v)
      case UnspecifiedResult => Val(Nil)
      case RunFault(f) => ExprFault(f)
      case OutOfFuel => ExprTimeout
  }

  lemma CallParts(p: Program, g: Ctx, e: Expr, env: Env, fuel: Fuel)
    requires e.Call? && HasBlock(g) && BuildExpr(Visible(p), g, e).BuiltExpr?
    ensures var c := BuildExpr(Visible(p), g, e.callee);
            c.BuiltExpr? &&
            var a := BuildArgs(Visible(p), c.g, e.args);
            a.BuiltArgs? && BuildExpr(Visible(p), g, e) == BuildCall(a.g, c.r, a.rs)
    ensures var cv, av := EvalExpr(p, env, e.callee, fuel), EvalArgs(p, env, e.args, fuel);
            EvalExpr(p, env, e, fuel) ==
            if !cv.Val? then cv else
            match av
            case ArgsFault(f) => ExprFault(f)
            case ArgsTimeout => ExprTimeout
            case Vals(vs) => CallResult(p, cv.v, vs, fuel)
  {
  }

  lemma CallExprSim(m: Module, p: Program, st: IrState, fn: nat, g: Ctx, e: Expr, env: Env, fuel: Fuel)
    returns (n: nat)
    requires e.Call? && Compiled(m, p) && Ready(m, p, st, fn, g, env) && ScopedExpr(p, env.Keys, e)
    requires BuildExpr(Visible(p), g, e).BuiltExpr? && Fits(m, fn, BuildExpr(Visible(p), g, e).g)
    ensures ExprSimulated(m, p, st, fn, g, e, env, fuel, n)
    decreases fuel.depth, fuel.turns, 1, e, 1
  {
    hide Inv, Compiled, Within, EnvIn, NamesFor, Run, Step, Extends, EvalExpr, BuildExpr, EvalArgs, BuildArgs,
         BuildCall, Fits, CallResult;
    n := CallOperandsSim(m, p, st, fn, g, e, env, fuel);
    CallParts(p, g, e, env, fuel);
    var c := BuildExpr(Visible(p), g, e.callee);
    var a := BuildArgs(Visible(p), c.g, e.args);
    var cv, av := EvalExpr(p, env, e.callee, fuel), EvalArgs(p, env, e.args, fuel);
    var st1 := Run(m, st, n);
    if HitLimit(st1) || !cv.Val? || !av.Vals? { return; }
    var n2 := WindowSim(m, p, st1, fn, a.g, c.r, a.rs, cv.v, av.vs, fuel);
    RunSplit(m, st, n, n2);
    PostTrans(m, st, st1, Run(m, st1, n2), fn, g, a.g, BuildCall(a.g, c.r, a.rs).g, BuildCall(a.g, c.r, a.rs).r,
              CallResult(p, cv.v, av.vs, fuel));
    n := n + n2;
  }

  /** Callee and argument values are in their registers, nothing of the call is done yet. */
  ghost predicate CallReady(m: Module, t: IrState, fn: nat, g: Ctx, callee: Reg, rs: seq<Reg>, c: Value, vs: seq<Value>) {
    && Inv(g) && !Terminated(g) && At(m, t, fn, g)
    && |rs| == |vs| && Holds(t, rs, vs) && AllBelow(rs, g.nv)
    && callee < g.nv && t.top.base + callee < |t.stack| && t.stack[t.top.base + callee] == c
  }

  ghost predicate CallOperandsPost(m: Module, p: Program, st: IrState, fn: nat, g: Ctx, e: Expr, env: Env, fuel: Fuel,
                                   n: nat)
    requires e.Call? && HasBlock(g) && st.Running?
  {
    var c := BuildExpr(Visible(p), g, e.callee);
    c.BuiltExpr? &&
    var a := BuildArgs(Visible(p), c.g, e.args);
    a.BuiltArgs? && g.nv <= a.g.nv && ArgCount(e.args) > 0 &&
    var cv, av := EvalExpr(p, env, e.callee, fuel), EvalArgs(p, env, e.args, fuel);
    var t := Run(m, st, n);
    (HitLimit(t) ==> Deep(st, fuel)) &&
    (HitLimit(t) ||
     match cv
     case ExprFault(f) => t == Halted(Faulted(f))
     case ExprTimeout => t.Running? && n >= Least(fuel)
     case Val(v) =>
       match av
       case ArgsFault(f) => t == Halted(Faulted(f))
       case ArgsTimeout => t.Running? && n >= Least(fuel)
       case Vals(vs) =>
         && SameFrame(st, t, g.nv) && CallReady(m, t, fn, a.g, c.r, a.rs, v, vs)
         && Fits(m, fn, BuildCall(a.g, c.r, a.rs).g))
  }

  /** Callee first, then the arguments. */
  lemma CallOperandsSim(m: Module, p: Program, st: IrState, fn: nat, g: Ctx, e: Expr, env: Env, fuel: Fuel)
    returns (n: nat)
    requires e.Call? && Compiled(m, p) && Ready(m, p, st, fn, g, env) && ScopedExpr(p, env.Keys, e)
    requires BuildExpr(Visible(p), g, e).BuiltExpr? && Fits(m, fn, BuildExpr(Visible(p), g, e).g)
    ensures CallOperandsPost(m, p, st, fn, g, e, env, fuel, n)
    decreases fuel.depth, fuel.turns, 1, e, 0
  {
    hide Inv, Compiled, Within, EnvIn, NamesFor, Run, Step, Extends, EvalExpr, BuildExpr, EvalArgs, BuildArgs,
         BuildCall, Fits, Holds, AllBelow, CallResult;
    CallParts(p, g, e, env, fuel);
    var c := BuildExpr(Visible(p), g, e.callee);
    ExprKeepsShape(Visible(p), g, e.callee);
    var a := BuildArgs(Visible(p), c.g, e.args);
    ArgsKeepShape(Visible(p), c.g, e.args);
    CallShape(a.g, c.r, a.rs);
    FitsEarlier(m, fn, a.g, BuildCall(a.g, c.r, a.rs).g);
    FitsEarlier(m, fn, c.g, a.g);
    n := ExprSim(m, p, st, fn, g, e.callee, env, fuel);
    var st1 := Run(m, st, n);
    var cv := EvalExpr(p, env, e.callee, fuel);
    if HitLimit(st1) || !cv.Val? { return; }
    ReadyNext(m, p, st, st1, fn, g, c.g, env);
    var n2 := ArgsSim(m, p, st1, fn, c.g, e.args, env, fuel);
    RunSplit(m, st, n, n2);
    n := n + n2;
    var st2 := Run(m, st1, n2);
    if HitLimit(st2) || !EvalArgs(p, env, e.args, fuel).Vals? { return; }
    FrameTrans(st, st1, st2, g.nv, c.g.nv);
  }

  /** The call instruction opens the callee's window on the argument slots, or, without
      arguments, on the caller's own registers. */
  lemma EnterSim(m: Module, p: Program, st: IrState, fn: nat, g: Ctx, callee: Reg, start: Reg, c: Value, vs: seq<Value>)
    requires Compiled(m, p) && At(m, st, fn, g) && InSlots(st, start, vs)
    requires if vs == [] then start == 0 else callee < start && start + |vs| == g.nv
    requires InFile(st.stack, st.top.base, callee) && st.stack[st.top.base + callee] == c
    requires Fits(m, fn, Define(g, Ir.Call(g.nv, callee, if vs == [] then None else Some(start), |vs|)).g)
    ensures var t := Step(m, st);
            if !c.Function? || c.id >= |p.funcs| then t == Halted(Faulted(NotCallable))
            else if |p.funcs[c.id].params| != |vs| then t == Halted(Faulted(ArityMismatch))
            else (HitLimit(t) && |st.callers| >= 31) ||
                 (Entered(m, p, t, c.id, vs) && t.stack == st.stack && t.top.base == st.top.base + start &&
                  t.top.out == g.nv && t.callers == st.callers + [st.top.(pc := Next(st.top.pc))])
  {
    hide Inv, Within, Compiled, Step;
    var i := Ir.Call(g.nv, callee, if vs == [] then None else Some(start), |vs|);
    StepAt(m, st, fn, Fresh(g), i);
    CompiledSize(m, p);
    CompiledFunc(m, p, fn);
    if c.Function? && c.id < |p.funcs| { CompiledFunc(m, p, c.id); }
  }

  lemma CompiledSize(m: Module, p: Program)
    requires Compiled(m, p)
    ensures |m.funcs| == |p.funcs|
  {
  }

  lemma CompiledFunc(m: Module, p: Program, id: nat)
    requires Compiled(m, p) && id < |p.funcs|
    ensures var f := m.funcs[id];
            f.arity == |p.funcs[id].params| && f.nregs <= 256 && Slots(f.nregs) >= 1 && f.nregs <= Slots(f.nregs)
  {
    hide ScopedProgram, BuildStmt;
    assert BuildFunc(Visible(p), p.funcs[id]) == Some(m.funcs[id]);
    assert m.funcs[id].nregs <= 256;
  }

  /** Back from the callee: nothing below the argument slots has changed. */
  lemma LeaveSim(m: Module, st: IrState, st2: IrState, t: IrState, fn: nat, g: Ctx, i: Inst, start: Reg, v: Value)
    requires At(m, st, fn, g) && st2.Running? && st2.stack == st.stack && start <= g.nv
    requires st2.top.base == st.top.base + start && st2.top.out == g.nv
    requires st2.callers == st.callers + [st.top.(pc := Next(st.top.pc))]
    requires ReturnedTo(st2, t, v) && Fits(m, fn, Define(g, i).g)
    ensures SameFrame(st, t, start) && At(m, t, fn, Define(g, i).g)
    ensures t.top.base + g.nv < |t.stack| && t.stack[t.top.base + g.nv] == v
  {
    hide Inv, Within;
    assert st2.callers[..|st2.callers| - 1] == st.callers;
  }

  lemma SlotsShape(g: Ctx, rs: seq<Reg>)
    requires Inv(g) && !Terminated(g) && AllBelow(rs, g.nv)
    ensures var g0 := g.(nv := g.nv + |rs|);
            Inv(g0) && !Terminated(g0) && Extends(g, g0) && ExprShape(g0, EmitMoves(g0, g.nv, rs)) &&
            EmitMoves(g0, g.nv, rs).nv == g.nv + |rs|
  {
    hide Inv, Extends, EmitMoves;
    var g0 := g.(nv := g.nv + |rs|);
    FreshShape(g, |rs|);
    MovesShape(g0, g.nv, rs);
  }

  lemma WindowParts(g: Ctx, callee: Reg, rs: seq<Reg>)
    requires Inv(g) && !Terminated(g) && callee < g.nv && AllBelow(rs, g.nv) && rs != []
    ensures var g1 := EmitMoves(g.(nv := g.nv + |rs|), g.nv, rs);
            BuildCall(g, callee, rs) == Define(g1, Ir.Call(g1.nv, callee, Some(g.nv), |rs|)) &&
            Extends(g1, BuildCall(g, callee, rs).g) && Inv(g1)
  {
    hide CodeOk, Constants, EmitMoves, Extends, AllBelow;
    SlotsShape(g, rs);
    var g1 := EmitMoves(g.(nv := g.nv + |rs|), g.nv, rs);
    DefineShape(g1, Ir.Call(g1.nv, callee, Some(g.nv), |rs|));
  }

  lemma WindowSim(m: Module, p: Program, st: IrState, fn: nat, g: Ctx, callee: Reg, rs: seq<Reg>, c: Value,
                  vs: seq<Value>, fuel: Fuel)
    returns (n: nat)
    requires Compiled(m, p) && CallReady(m, st, fn, g, callee, rs, c, vs) && rs != []
    requires Fits(m, fn, BuildCall(g, callee, rs).g)
    ensures var r := BuildCall(g, callee, rs);
            var res := CallResult(p, c, vs, fuel);
            ExprPost(m, st, Run(m, st, n), fn, g, r.g, r.r, res) &&
            Spent(st, Run(m, st, n), res.ExprTimeout?, n, fuel)
    decreases fuel.depth, fuel.turns, 0, 1
  {
    hide Inv, Compiled, Within, Extends, Run, Step, BuildCall, EmitMoves, CallFunction, Holds, AllBelow, Fits,
         InSlots, ReturnedTo;
    SlotsShape(g, rs);
    WindowParts(g, callee, rs);
    var start := g.nv;
    var g0 := g.(nv := g.nv + |rs|);
    var g1 := EmitMoves(g0, start, rs);
    var i := Ir.Call(g1.nv, callee, Some(start), |rs|);
    FitsEarlier(m, fn, g1, BuildCall(g, callee, rs).g);
    MovesSim(m, st, fn, g0, start, rs, vs);
    n := |rs|;
    var st1 := Run(m, st, n);
    EnterSim(m, p, st1, fn, g1, callee, start, c, vs);
    RunStep(m, st, n);
    n := n + 1;
    var st2 := Run(m, st, n);
    if HitLimit(st2) || !c.Function? || c.id >= |p.funcs| || |p.funcs[c.id].params| != |vs| { return; }
    var n3 := FuncSim(m, p, st2, c.id, vs, fuel);
    RunSplit(m, st, n, n3);
    n := n + n3;
    var t := Run(m, st2, n3);
    if HitLimit(t) { return; }
    match CallFunction(p, c.id, vs, fuel) {
      case Result(v) =>
        LeaveSim(m, st1, st2, t, fn, g1, i, start, v);
        FrameTrans(st, st1, t, start, start);
      case UnspecifiedResult =>
        CallHasResult(p, c.id, vs, fuel);
        assert false;
      case _ =>
    }
  }

  /** With at least one parameter a completed call has a definite value. */
  lemma CallHasResult(p: Program, id: nat, vs: seq<Value>, fuel: Fuel)
    requires id < |p.funcs| && |p.funcs[id].params| == |vs| && vs != []
    ensures !CallFunction(p, id, vs, fuel).UnspecifiedResult?
  {
    if fuel.depth > 0 {
      var d := p.funcs[id];
      var env := BindParams(d.params, vs);
      ExecKeepsNames(p, env, d.body, InCall(fuel));
      assert d.params[0] in env;
    }
  }

  // ----- calls without arguments -----

  lemma BareParts(p: Program, g: Ctx, e: Expr, env: Env, fuel: Fuel)
    requires CallsFunction(p, e) && HasBlock(g) && BuildExpr(Visible(p), g, e).BuiltExpr? && NamesFor(p, env.Keys, g.names)
    ensures var c := BuildExpr(Visible(p), g, e.callee);
            c.BuiltExpr? && BuildExpr(Visible(p), g, e) == Define(c.g, Ir.Call(c.g.nv, c.r, None, 0))
    ensures var f := Function(GlobalsOf(p.funcs)[e.callee.x]);
            EvalExpr(p, env, e.callee, fuel) == Val(f) && EvalExpr(p, env, e, fuel) == CallResult(p, f, [], fuel)
    ensures ScopedExpr(p, env.Keys, e.callee)
  {
    hide CallFunction, GlobalsOf, BuildExpr, CallResult;
    CallParts(p, g, e, env, fuel);
    BareWindow(p, g, e);
    GlobalsApart(p, env, e.callee.x);
    assert EvalArgs(p, env, e.args, fuel) == Vals([]);
  }

  lemma BareWindow(p: Program, g: Ctx, e: Expr)
    requires BareCall(e) && HasBlock(g) && BuildExpr(Visible(p), g, e).BuiltExpr?
    ensures var c := BuildExpr(Visible(p), g, e.callee);
            c.BuiltExpr? && BuildExpr(Visible(p), g, e) == Define(c.g, Ir.Call(c.g.nv, c.r, None, 0))
  {
    hide GlobalsOf;
    var c := BuildExpr(Visible(p), g, e.callee);
    assert BuildArgs(Visible(p), c.g, e.args) == BuiltArgs(c.g, []);
    assert c.g.(nv := c.g.nv + 0) == c.g;
  }

  /** The function is called and comes back; its window was the caller's, so nothing is left
      there but the result. */
  ghost predicate BareSimulated(m: Module, p: Program, st: IrState, fn: nat, g: Ctx, e: Expr, env: Env, fuel: Fuel, n: nat)
    requires HasBlock(g) && CallsFunction(p, e)
  {
    var r := BuildExpr(Visible(p), g, e);
    var res := EvalExpr(p, env, e, fuel);
    var t := Run(m, st, n);
    st.Running? && r.BuiltExpr? && Spent(st, t, res.ExprTimeout?, n, fuel) &&
    (HitLimit(t) ||
     match res
     case Val(v) =>
       SameFrame(st, t, 0) && At(m, t, fn, r.g) && t.top.base + r.r < |t.stack| &&
       (GivesValue(p.funcs[GlobalsOf(p.funcs)[e.callee.x]]) ==> t.stack[t.top.base + r.r] == v)
     case ExprFault(f) => t == Halted(Faulted(f))
     case ExprTimeout => t.Running?)
  }

  lemma BareCallSim(m: Module, p: Program, st: IrState, fn: nat, g: Ctx, e: Expr, env: Env, fuel: Fuel)
    returns (n: nat)
    requires CallsFunction(p, e) && Compiled(m, p) && Ready(m, p, st, fn, g, env)
    requires BuildExpr(Visible(p), g, e).BuiltExpr? && Fits(m, fn, BuildExpr(Visible(p), g, e).g)
    ensures BareSimulated(m, p, st, fn, g, e, env, fuel, n)
    decreases fuel.depth, fuel.turns, 1, e, 1
  {
    hide Inv, Compiled, Within, EnvIn, Run, Step, Extends, EvalExpr, BuildExpr, CallFunction, Fits, ReturnedTo,
         GivesValue, GlobalsOf, ScopedExpr, NamesFor;
    BareParts(p, g, e, env, fuel);
    var id := GlobalsOf(p.funcs)[e.callee.x];
    var c := BuildExpr(Visible(p), g, e.callee);
    ExprKeepsShape(Visible(p), g, e.callee);
    var i := Ir.Call(c.g.nv, c.r, None, 0);
    DefineShape(c.g, i);
    FitsEarlier(m, fn, c.g, Define(c.g, i).g);
    n := ExprSim(m, p, st, fn, g, e.callee, env, fuel);
    var st1 := Run(m, st, n);
    if HitLimit(st1) { return; }
    EnterSim(m, p, st1, fn, c.g, c.r, 0, Function(id), []);
    RunStep(m, st, n);
    n := n + 1;
    var st2 := Run(m, st, n);
    if HitLimit(st2) || |p.funcs[id].params| != 0 { return; }
    var n3 := FuncSim(m, p, st2, id, [], fuel);
    RunSplit(m, st, n, n3);
    n := n + n3;
    var t := Run(m, st2, n3);
    if HitLimit(t) { return; }
    FrameWeaken(st, st1, g.nv);
    match CallFunction(p, id, [], fuel) {
      case Result(v) =>
        LeaveSim(m, st1, st2, t, fn, c.g, i, 0, v);
        FrameTrans(st, st1, t, 0, 0);
      case UnspecifiedResult =>
        var v :| ReturnedTo(st2, t, v);
        LeaveSim(m, st1, st2, t, fn, c.g, i, 0, v);
        FrameTrans(st, st1, t, 0, 0);
      case _ =>
    }
  }

  /** What the registers of the variables hold now. */
  ghost function Held(t: IrState, names: map<Name, Reg>, dom: set<Name>): (env: Env)
    requires t.Running? && dom <= names.Keys && forall x <- dom :: t.top.base + names[x] < |t.stack|
    ensures env.Keys == dom && EnvIn(env, names, t.stack, t.top.base)
  {
    map x | x in dom :: t.stack[t.top.base + names[x]]
  }

  /** After an expression of a statement: its value is in its register, and the machine is ready
      with variables `env'` that agree on what is still mentioned. */
  ghost predicate UseSimulated(m: Module, p: Program, st: IrState, fn: nat, g: Ctx, e: Expr, live: set<Name>, env: Env,
                               env': Env, fuel: Fuel, n: nat)
    requires HasBlock(g)
  {
    var r := BuildExpr(Visible(p), g, e);
    var res := EvalExpr(p, env, e, fuel);
    var t := Run(m, st, n);
    st.Running? && r.BuiltExpr? && Alike(Kept(live, BareCall(e)), env, env') &&
    Spent(st, t, res.ExprTimeout?, n, fuel) &&
    (HitLimit(t) ||
     match res
     case Val(v) =>
       SameFrame(st, t, 0) && Ready(m, p, t, fn, r.g, env') && InFile(t.stack, t.top.base, r.r) &&
       (Usable(p, live, e) ==> t.stack[t.top.base + r.r] == v)
     case ExprFault(f) => t == Halted(Faulted(f))
     case ExprTimeout => t.Running?)
  }

  lemma UseSim(m: Module, p: Program, st: IrState, fn: nat, g: Ctx, e: Expr, live: set<Name>, env: Env, fuel: Fuel)
    returns (n: nat, env': Env)
    requires Compiled(m, p) && Ready(m, p, st, fn, g, env) && live <= env.Keys
    requires ScopedExpr(p, live, e) || CallsFunction(p, e)
    requires BuildExpr(Visible(p), g, e).BuiltExpr? && Fits(m, fn, BuildExpr(Visible(p), g, e).g)
    ensures UseSimulated(m, p, st, fn, g, e, live, env, env', fuel, n)
    decreases fuel.depth, fuel.turns, 1, e, 3
  {
    hide Inv, Compiled, Within, EnvIn, Run, Step, Extends, EvalExpr, BuildExpr, Fits, NamesFor, ScopedExpr,
         GivesValue, GlobalsOf, Window;
    env' := env;
    ExprKeepsShape(Visible(p), g, e);
    var r := BuildExpr(Visible(p), g, e);
    if ScopedExpr(p, live, e) {
      ScopedNotBare(p, live, e);
      ScopedMore(p, live, env.Keys, e);
      n := ExprSim(m, p, st, fn, g, e, env, fuel);
      var t := Run(m, st, n);
      if HitLimit(t) || !EvalExpr(p, env, e, fuel).Val? { return; }
      ReadyNext(m, p, st, t, fn, g, r.g, env);
      FrameWeaken(st, t, g.nv);
    } else {
      n := BareCallSim(m, p, st, fn, g, e, env, fuel);
      var t := Run(m, st, n);
      if HitLimit(t) || !EvalExpr(p, env, e, fuel).Val? { return; }
      env' := HeldReady(m, p, st, t, fn, g, r.g, env);
    }
  }

  lemma HeldReady(m: Module, p: Program, st: IrState, t: IrState, fn: nat, g: Ctx, g': Ctx, env: Env)
    returns (env': Env)
    requires Ready(m, p, st, fn, g, env) && SameFrame(st, t, 0) && At(m, t, fn, g') && ExprShape(g, g')
    requires Fits(m, fn, g')
    ensures env'.Keys == env.Keys && Ready(m, p, t, fn, g', env')
  {
    hide CodeOk, Constants, Within;
    forall x <- env.Keys
      ensures x in g'.names && t.top.base + g'.names[x] < |t.stack|
    {
      assert g.names[x] < g.nv;
    }
    env' := Held(t, g'.names, env.Keys);
  }

  lemma ScopedNotBare(p: Program, live: set<Name>, e: Expr)
    requires ScopedExpr(p, live, e)
    ensures !BareCall(e)
  {
  }

  lemma {:induction false} ScopedMore(p: Program, live: set<Name>, more: set<Name>, e: Expr)
    requires ScopedExpr(p, live, e) && live <= more
    ensures ScopedExpr(p, more, e)
    decreases e
  {
    hide GlobalsOf;
    match e
    case Binary(_, l, r) =>
      ScopedMore(p, live, more, l);
      ScopedMore(p, live, more, r);
    case Unary(_, a) => ScopedMore(p, live, more, a);
    case Call(c, args) =>
      ScopedMore(p, live, more, c);
      ScopedArgsMore(p, live, more, args);
    case _ =>
  }

  lemma {:induction false} ScopedArgsMore(p: Program, live: set<Name>, more: set<Name>, args: Args)
    requires ScopedArgs(p, live, args) && live <= more
    ensures ScopedArgs(p, more, args)
    decreases args
  {
    hide ScopedExpr;
    if args.Arg? {
      ScopedMore(p, live, more, args.first);
      ScopedArgsMore(p, live, more, args.rest);
    }
  }

  // ----- statements -----

  /** Register 0 belongs to the first parameter. */
  ghost predicate FirstParamIn(d: FuncDecl, env: Env, names: map<Name, Reg>) {
    d.params != [] ==> d.params[0] in env && d.params[0] in names && names[d.params[0]] == 0
  }

  /** The machine stands at the start of block `b`, the variables of `env` in their registers. */
  ghost predicate InBlock(m: Module, st: IrState, t: IrState, fn: nat, names: map<Name, Reg>, b: BlockId, env: Env) {
    && st.Running? && SameFrame(st, t, 0) && Window(m, t, fn) && t.top.pc == Point(b, 0)
    && EnvIn(env, names, t.stack, t.top.base)
  }

  /** `return;` and the end of the body return the first parameter's current value. */
  ghost predicate ExitValue(d: FuncDecl, env: Env, v: Value) {
    d.params != [] ==> d.params[0] in env && v == env[d.params[0]]
  }

  /** An outcome other than normal completion, inside the loops `loops`. */
  ghost predicate AbruptPost(m: Module, d: FuncDecl, st: IrState, t: IrState, fn: nat, names: map<Name, Reg>,
                             loops: seq<BlockId>, dom: set<Name>, o: Outcome)
    requires !o.Normal?
  {
    st.Running? &&
    (HitLimit(t) ||
     match o
     case Broke(env) => loops != [] && InBlock(m, st, t, fn, names, loops[|loops| - 1] + 2, Restrict(env, dom))
     case Continued(env) => loops != [] && InBlock(m, st, t, fn, names, loops[|loops| - 1], Restrict(env, dom))
     case Returned(v) => ReturnedTo(st, t, v)
     case Exited(env) => exists v :: ReturnedTo(st, t, v) && ExitValue(d, env, v)
     case Failed(f) => t == Halted(Faulted(f))
     case Timeout => t.Running?)
  }

  ghost predicate NormalPost(m: Module, st: IrState, t: IrState, fn: nat, g': Ctx, env: Env) {
    st.Running? &&
    (HitLimit(t) ||
     (SameFrame(st, t, 0) && At(m, t, fn, g') && !Terminated(g') && EnvIn(env, g'.names, t.stack, t.top.base)))
  }

  ghost predicate StmtPost(m: Module, d: FuncDecl, st: IrState, t: IrState, fn: nat, g: Ctx, g': Ctx, dom: set<Name>,
                           o: Outcome)
  {
    if o.Normal? then NormalPost(m, st, t, fn, g', o.env)
    else AbruptPost(m, d, st, t, fn, g.names, g.loops, dom, o)
  }

  /** Like StmtPost, for a statement whose normal completion jumps to block `out`. */
  ghost predicate PhasePost(m: Module, d: FuncDecl, st: IrState, t: IrState, fn: nat, names: map<Name, Reg>,
                            loops: seq<BlockId>, dom: set<Name>, out: BlockId, o: Outcome)
  {
    if o.Normal? then st.Running? && (HitLimit(t) || InBlock(m, st, t, fn, names, out, o.env))
    else AbruptPost(m, d, st, t, fn, names, loops, dom, o)
  }

  ghost predicate StmtReady(m: Module, p: Program, d: FuncDecl, st: IrState, fn: nat, g: Ctx, env: Env) {
    st.Running? && Ready(m, p, st, fn, g, env) && FirstParamIn(d, env, g.names)
  }

  // -- outcomes across a prefix of the run --

  lemma AbruptTrans(m: Module, d: FuncDecl, st: IrState, st1: IrState, t: IrState, fn: nat, names: map<Name, Reg>,
                    names1: map<Name, Reg>, loops: seq<BlockId>, dom: set<Name>, dom1: set<Name>, o: Outcome)
    requires st.Running? && st1.Running? && SameFrame(st, st1, 0) && !o.Normal?
    requires AbruptPost(m, d, st1, t, fn, names1, loops, dom1, o)
    requires dom <= dom1 && Agree(dom, names, names1)
    ensures AbruptPost(m, d, st, t, fn, names, loops, dom, o)
  {
    hide Window;
    if o.Returned? && !HitLimit(t) { ReturnTrans(st, st1, t, o.v); }
    if o.Exited? && !HitLimit(t) {
      var v :| ReturnedTo(st1, t, v) && ExitValue(d, o.env, v);
      ReturnTrans(st, st1, t, v);
    }
  }

  lemma ReturnTrans(st: IrState, st1: IrState, t: IrState, v: Value)
    requires st.Running? && st1.Running? && SameFrame(st, st1, 0) && ReturnedTo(st1, t, v)
    ensures ReturnedTo(st, t, v)
  {
  }

  lemma ReturnedInTime(st: IrState, t: IrState, v: Value)
    requires st.Running? && ReturnedTo(st, t, v)
    ensures !HitLimit(t)
  {
  }

  lemma PhaseTrans(m: Module, d: FuncDecl, st: IrState, st1: IrState, t: IrState, fn: nat, names: map<Name, Reg>,
                   names1: map<Name, Reg>, loops: seq<BlockId>, dom: set<Name>, out: BlockId, o: Outcome)
    requires st.Running? && st1.Running? && SameFrame(st, st1, 0)
    requires PhasePost(m, d, st1, t, fn, names1, loops, dom, out, o)
    requires Agree(dom, names, names1) && (o.Normal? ==> o.env.Keys <= dom)
    ensures PhasePost(m, d, st, t, fn, names, loops, dom, out, o)
  {
    hide Window, AbruptPost;
    if !o.Normal? { AbruptTrans(m, d, st, st1, t, fn, names, names1, loops, dom, dom, o); }
  }

  /** A failed or unfinished expression ends the statement the same way. */
  lemma StoppedPost(m: Module, d: FuncDecl, st: IrState, t: IrState, fn: nat, g: Ctx, g1: Ctx, g': Ctx, r: Reg,
                    dom: set<Name>, res: ExprResult)
    requires ExprPost(m, st, t, fn, g, g1, r, res) && (!res.Val? || HitLimit(t))
    ensures forall o: Outcome :: HitLimit(t) ==> StmtPost(m, d, st, t, fn, g, g', dom, o)
    ensures !res.Val? ==> StmtPost(m, d, st, t, fn, g, g', dom, Stopped(res))
  {
    hide SameFrame, At, Terminated, EnvIn, InBlock;
  }

  // -- assignments --

  lemma StoreSim(m: Module, st: IrState, fn: nat, g: Ctx, x: Name, src: Reg, env: Env)
    requires Inv(g) && At(m, st, fn, g) && EnvIn(env, g.names, st.stack, st.top.base)
    requires x in g.names && forall y <- env :: y != x ==> g.names[y] != g.names[x]
    requires InFile(st.stack, st.top.base, src) && Fits(m, fn, Emit(g, Move(g.names[x], src)))
    ensures var t := Step(m, st);
            SameFrame(st, t, 0) && At(m, t, fn, Emit(g, Move(g.names[x], src))) &&
            EnvIn(env[x := st.stack[st.top.base + src]], g.names, t.stack, t.top.base)
  {
    hide Within, CodeOk, Constants, Step;
    var dst := g.names[x];
    OpStep(m, st, fn, g, Move(dst, src), Copy(dst, src));
  }

  lemma NormalTrans(m: Module, st: IrState, st1: IrState, t: IrState, fn: nat, g': Ctx, env: Env, k: nat)
    requires st.Running? && st1.Running? && SameFrame(st, st1, k) && NormalPost(m, st1, t, fn, g', env)
    ensures NormalPost(m, st, t, fn, g', env)
  {
    hide Window, EnvIn;
  }

  /** The statement declares no name anew and mentions only what is intact. */
  ghost predicate Placed(p: Program, live: set<Name>, env: Env, s: Stmt) {
    live <= env.Keys && DeclaresAnew(p, env.Keys, s) && ScopedStmt(p, env.Keys, live, s)
  }

  /** The statement behaves as the interpreter says, up to variables that are not mentioned any
      more: the registers are those of the outcome `o'`. */
  ghost predicate StmtSimulated(m: Module, p: Program, d: FuncDecl, st: IrState, fn: nat, g: Ctx, s: Stmt,
                                live: set<Name>, env: Env, fuel: Fuel, n: nat, o': Outcome)
    requires HasBlock(g) && st.Running?
  {
    var r := BuildStmt(Visible(p), g, s);
    var t := Run(m, st, n);
    && r.Some? && AlikeAfter(live, s, ExecStmt(p, env, s, fuel), o')
    && StmtPost(m, d, st, t, fn, g, r.value, env.Keys, o') && Spent(st, t, o'.Timeout?, n, fuel)
  }

  /** An expression that fails or does not finish ends the statement the same way; the limits of
      the machine allow any outcome. */
  lemma UseStopped(m: Module, p: Program, d: FuncDecl, st: IrState, fn: nat, g: Ctx, g0: Ctx, g': Ctx, e: Expr,
                   live: set<Name>, env: Env, env': Env, fuel: Fuel, n: nat, dom: set<Name>)
    requires HasBlock(g0) && UseSimulated(m, p, st, fn, g0, e, live, env, env', fuel, n)
    requires HitLimit(Run(m, st, n)) || !EvalExpr(p, env, e, fuel).Val?
    ensures HitLimit(Run(m, st, n)) ==> forall o: Outcome :: StmtPost(m, d, st, Run(m, st, n), fn, g, g', dom, o)
    ensures forall timeout: bool :: HitLimit(Run(m, st, n)) ==> Spent(st, Run(m, st, n), timeout, n, fuel)
    ensures var res := EvalExpr(p, env, e, fuel);
            !res.Val? ==> StmtPost(m, d, st, Run(m, st, n), fn, g, g', dom, Stopped(res)) &&
                          Spent(st, Run(m, st, n), Stopped(res).Timeout?, n, fuel)
  {
    hide SameFrame, Ready, EnvIn, InBlock, At, Terminated, Run, EvalExpr, BuildExpr, Usable, Alike, ReturnedTo;
  }

  lemma SameAfter(live: set<Name>, s: Stmt, o: Outcome)
    ensures AlikeAfter(live, s, o, o)
  {
    hide LiveAfter, Kept;
    AlikeSelf(LiveAfter(live, s), o);
    AlikeSelf(Kept(live, Clobbers(s)), o);
  }

  // -- straight-line statements --

  lemma ExprStmtSim(m: Module, p: Program, d: FuncDecl, st: IrState, fn: nat, g: Ctx, s: Stmt,
                    live: set<Name>, env: Env, fuel: Fuel)
    returns (n: nat, o': Outcome)
    requires s.ExprStmt? && Compiled(m, p) && StmtReady(m, p, d, st, fn, g, env) && Placed(p, live, env, s)
    requires BuildStmt(Visible(p), g, s).Some? && Fits(m, fn, BuildStmt(Visible(p), g, s).value)
    ensures StmtSimulated(m, p, d, st, fn, g, s, live, env, fuel, n, o')
    decreases fuel.depth, fuel.turns, 2, s, 0
  {
    hide Inv, Compiled, Within, NamesFor, Run, Step, Extends, EvalExpr, BuildExpr, Fits, Usable, EnvIn, ScopedExpr,
         GlobalsOf;
    var env';
    n, env' := UseSim(m, p, st, fn, g, s.e, live, env, fuel);
    var r := BuildExpr(Visible(p), g, s.e);
    var res := EvalExpr(p, env, s.e, fuel);
    o' := if res.Val? then Normal(env') else Stopped(res);
    if HitLimit(Run(m, st, n)) || !res.Val? {
      UseStopped(m, p, d, st, fn, g, g, r.g, s.e, live, env, env', fuel, n, env.Keys);
    }
  }

  lemma DeclParts(p: Program, g: Ctx, s: Stmt, env: Env, fuel: Fuel)
    requires s.VarDecl? && HasBlock(g)
    ensures var r := BuildExpr(Visible(p), Fresh(g).(names := g.names[s.x := g.nv]), s.init);
            BuildStmt(Visible(p), g, s) == if r.BuiltExpr? then Some(Emit(r.g, Move(g.nv, r.r))) else None
    ensures var res := EvalExpr(p, env, s.init, fuel);
            ExecStmt(p, env, s, fuel) == if res.Val? then Normal(env[s.x := res.v]) else Stopped(res)
  {
    hide BuildExpr, EvalExpr;
  }

  lemma VarDeclSim(m: Module, p: Program, d: FuncDecl, st: IrState, fn: nat, g: Ctx, s: Stmt,
                   live: set<Name>, env: Env, fuel: Fuel)
    returns (n: nat, o': Outcome)
    requires s.VarDecl? && Compiled(m, p) && StmtReady(m, p, d, st, fn, g, env) && Placed(p, live, env, s)
    requires BuildStmt(Visible(p), g, s).Some? && Fits(m, fn, BuildStmt(Visible(p), g, s).value)
    ensures StmtSimulated(m, p, d, st, fn, g, s, live, env, fuel, n, o')
    decreases fuel.depth, fuel.turns, 2, s, 0
  {
    hide Inv, Compiled, Within, NamesFor, Run, Step, Extends, EvalExpr, BuildExpr, Fits, EnvIn, SameFrame, GlobalsOf,
         ScopedExpr, GivesValue, BuildStmt, ExecStmt;
    DeclParts(p, g, s, env, fuel);
    var g0 := Fresh(g).(names := g.names[s.x := g.nv]);
    DeclReady(m, p, st, fn, g, s.x, env);
    ExprKeepsShape(Visible(p), g0, s.init);
    var r := BuildExpr(Visible(p), g0, s.init);
    var g' := Emit(r.g, Move(g.nv, r.r));
    MoveShape(r.g, g.nv, r.r);
    FitsEarlier(m, fn, r.g, g');
    var env';
    n, env' := UseSim(m, p, st, fn, g0, s.init, live, env, fuel);
    var res := EvalExpr(p, env, s.init, fuel);
    o' := if res.Val? then Normal(env'[s.x := res.v]) else Stopped(res);
    var t := Run(m, st, n);
    if HitLimit(t) || !res.Val? {
      UseStopped(m, p, d, st, fn, g, g0, g', s.init, live, env, env', fuel, n, env.Keys);
      return;
    }
    assert forall y <- env' :: y != s.x ==> r.g.names[y] != r.g.names[s.x] by { DeclDistinct(m, p, st, fn, g, s.x, env); }
    StoreSim(m, t, fn, r.g, s.x, r.r, env');
    RunStep(m, st, n);
    StorePost(m, st, t, fn, g', r.g, Move(g.nv, r.r), env'[s.x := res.v], 0);
    n := n + 1;
  }

  lemma DeclReady(m: Module, p: Program, st: IrState, fn: nat, g: Ctx, x: Name, env: Env)
    requires Ready(m, p, st, fn, g, env) && x !in env && x !in GlobalsOf(p.funcs)
    ensures Ready(m, p, st, fn, Fresh(g).(names := g.names[x := g.nv]), env)
  {
    hide CodeOk, Constants;
    FreshShape(g, 1);
    NamesInv(Fresh(g), x, g.nv);
    DeclareNames(p, env.Keys, g, x);
  }

  lemma DeclDistinct(m: Module, p: Program, st: IrState, fn: nat, g: Ctx, x: Name, env: Env)
    requires Ready(m, p, st, fn, g, env) && x !in env
    ensures forall y <- env :: y in g.names && g.names[y] != g.nv
  {
    hide CodeOk, Constants;
  }

  /** After the last store of a statement: one frame, the new environment, an open block. */
  lemma StorePost(m: Module, st: IrState, t: IrState, fn: nat, g': Ctx, g1: Ctx, i: Inst, env: Env, k: nat)
    requires st.Running? && t.Running? && SameFrame(st, t, k) && HasBlock(g1) && g' == Emit(g1, i) && !IsTerminator(i)
    requires var u := Step(m, t); SameFrame(t, u, 0) && At(m, u, fn, g') && EnvIn(env, g'.names, u.stack, u.top.base)
    ensures NormalPost(m, st, Step(m, t), fn, g', env) && Step(m, t).Running?
  {
    hide Step, EnvIn, Window;
  }

  lemma AssignSim(m: Module, p: Program, d: FuncDecl, st: IrState, fn: nat, g: Ctx, s: Stmt,
                  live: set<Name>, env: Env, fuel: Fuel)
    returns (n: nat, o': Outcome)
    requires s.Assign? && Compiled(m, p) && StmtReady(m, p, d, st, fn, g, env) && Placed(p, live, env, s)
    requires BuildStmt(Visible(p), g, s).Some? && Fits(m, fn, BuildStmt(Visible(p), g, s).value)
    ensures StmtSimulated(m, p, d, st, fn, g, s, live, env, fuel, n, o')
    decreases fuel.depth, fuel.turns, 2, s, 0
  {
    hide Inv, Compiled, Within, Run, Step, Extends, EvalExpr, BuildExpr, Fits, EnvIn, SameFrame, GlobalsOf,
         ScopedExpr, GivesValue;
    ExprKeepsShape(Visible(p), g, s.value);
    var r := BuildExpr(Visible(p), g, s.value);
    var dst := g.names[s.target];
    var g' := Emit(r.g, Move(dst, r.r));
    NameInv(r.g, s.target);
    MoveShape(r.g, dst, r.r);
    FitsEarlier(m, fn, r.g, g');
    var env';
    n, env' := UseSim(m, p, st, fn, g, s.value, live, env, fuel);
    var res := EvalExpr(p, env, s.value, fuel);
    o' := if res.Val? then Normal(env'[s.target := res.v]) else Stopped(res);
    var t := Run(m, st, n);
    if HitLimit(t) || !res.Val? {
      UseStopped(m, p, d, st, fn, g, g, g', s.value, live, env, env', fuel, n, env.Keys);
      return;
    }
    StoreSim(m, t, fn, r.g, s.target, r.r, env');
    RunStep(m, st, n);
    StorePost(m, st, t, fn, g', r.g, Move(dst, r.r), env'[s.target := res.v], 0);
    n := n + 1;
  }

  lemma CompoundParts(p: Program, g: Ctx, s: Stmt)
    requires s.CompoundAssign? && HasBlock(g) && BuildStmt(Visible(p), g, s).Some?
    ensures s.target in g.names && Compound(s.op)
    ensures var r := BuildExpr(Visible(p), g, s.value);
            r.BuiltExpr? &&
            var i := Bin(s.op, r.g.nv, g.names[s.target], r.r);
            BuildStmt(Visible(p), g, s) == Some(Emit(Define(r.g, i).g, Move(g.names[s.target], r.g.nv)))
  {
    hide BuildExpr;
  }

  lemma CompoundSim(m: Module, p: Program, d: FuncDecl, st: IrState, fn: nat, g: Ctx, s: Stmt,
                    live: set<Name>, env: Env, fuel: Fuel)
    returns (n: nat, o': Outcome)
    requires s.CompoundAssign? && Compiled(m, p) && StmtReady(m, p, d, st, fn, g, env) && Placed(p, live, env, s)
    requires BuildStmt(Visible(p), g, s).Some? && Fits(m, fn, BuildStmt(Visible(p), g, s).value)
    ensures StmtSimulated(m, p, d, st, fn, g, s, live, env, fuel, n, o')
    decreases fuel.depth, fuel.turns, 2, s, 0
  {
    hide Inv, Compiled, Within, Run, Step, Extends, EvalExpr, BuildExpr, Fits, EnvIn, ApplyBin, BuildStmt, GlobalsOf,
         ScopedExpr;
    o' := ExecStmt(p, env, s, fuel);
    SameAfter(live, s, o');
    ScopedMore(p, live, env.Keys, s.value);
    CompoundParts(p, g, s);
    ExprKeepsShape(Visible(p), g, s.value);
    var x := s.target;
    var r := BuildExpr(Visible(p), g, s.value);
    var dst := g.names[x];
    var i := Bin(s.op, r.g.nv, dst, r.r);
    var gt := Define(r.g, i).g;
    var g' := Emit(gt, Move(dst, r.g.nv));
    NameInv(g, x);
    DefineShape(r.g, i);
    MoveShape(gt, dst, r.g.nv);
    FitsEarlier(m, fn, gt, g');
    FitsEarlier(m, fn, r.g, gt);
    n := ExprSim(m, p, st, fn, g, s.value, env, fuel);
    var res := EvalExpr(p, env, s.value, fuel);
    var t := Run(m, st, n);
    if HitLimit(t) || !res.Val? {
      StoppedPost(m, d, st, t, fn, g, r.g, g', r.r, env.Keys, res);
      return;
    }
    n := CompoundEnd(m, p, st, fn, g, r.g, x, s.op, r.r, env, res.v, n);
  }

  /** The operation into a temporary, then the store. */
  lemma CompoundEnd(m: Module, p: Program, st: IrState, fn: nat, g: Ctx, g1: Ctx, x: Name, op: BinOp,
                    src: Reg, env: Env, v: Value, n: nat)
    returns (n': nat)
    requires Ready(m, p, st, fn, g, env) && x in env && ExprShape(g, g1) && src < g1.nv
    requires var t := Run(m, st, n);
             SameFrame(st, t, g.nv) && At(m, t, fn, g1) && InFile(t.stack, t.top.base, src) &&
             t.stack[t.top.base + src] == v
    requires Fits(m, fn, Emit(Define(g1, Bin(op, g1.nv, g1.names[x], src)).g, Move(g1.names[x], g1.nv)))
    ensures var t := Run(m, st, n');
            var g' := Emit(Define(g1, Bin(op, g1.nv, g1.names[x], src)).g, Move(g1.names[x], g1.nv));
            !HitLimit(t) &&
            match ApplyBin(op, env[x], v)
            case Ok(w) => NormalPost(m, st, t, fn, g', env[x := w])
            case Err(f) => t == Halted(Faulted(f))
  {
    hide Inv, Within, Run, Step, Extends, ApplyBin, NormalPost, EnvIn, NamesFor;
    VarAt(env, g.names, st, x);
    var i := Bin(op, g1.nv, g1.names[x], src);
    var gt := Define(g1, i).g;
    NameInv(g, x);
    DefineShape(g1, i);
    MoveShape(gt, g1.names[x], g1.nv);
    FitsEarlier(m, fn, gt, Emit(gt, Move(g1.names[x], g1.nv)));
    var t := Run(m, st, n);
    DstInFile(m, t, fn, g1, gt);
    assert t.stack[t.top.base + g1.names[x]] == env[x] by { EnvKept(g, st, t, env); VarAt(env, g.names, t, x); }
    EndSim(m, st, n, fn, g, g1, i, Arith(op, g1.nv, g1.names[x], src));
    n' := n + 1;
    var u := Run(m, st, n');
    if HitLimit(u) || ApplyBin(op, env[x], v).Err? { return; }
    TempStore(m, p, st, fn, g, gt, x, g1.nv, env, n');
    n' := n' + 1;
  }

  lemma VarAt(env: Env, names: map<Name, Reg>, t: IrState, x: Name)
    requires t.Running? && x in env && EnvIn(env, names, t.stack, t.top.base)
    ensures x in names && InFile(t.stack, t.top.base, names[x]) && t.stack[t.top.base + names[x]] == env[x]
  {
  }

  /** Stores a temporary computed above the variables of `g` into the variable `x`. */
  lemma TempStore(m: Module, p: Program, st: IrState, fn: nat, g: Ctx, gt: Ctx, x: Name, tmp: Reg, env: Env, n: nat)
    requires Ready(m, p, st, fn, g, env) && x in env && Inv(gt) && gt.names == g.names
    requires var u := Run(m, st, n);
             SameFrame(st, u, g.nv) && At(m, u, fn, gt) && InFile(u.stack, u.top.base, tmp)
    requires Fits(m, fn, Emit(gt, Move(g.names[x], tmp)))
    ensures var u := Run(m, st, n);
            NormalPost(m, st, Run(m, st, n + 1), fn, Emit(gt, Move(g.names[x], tmp)),
                       env[x := u.stack[u.top.base + tmp]]) &&
            Run(m, st, n + 1).Running?
  {
    hide Inv, Within, Run, Step, NormalPost, EnvIn, Fits;
    var u := Run(m, st, n);
    EnvKept(g, st, u, env);
    StoreSim(m, u, fn, gt, x, tmp, env);
    RunStep(m, st, n);
    StorePost(m, st, u, fn, Emit(gt, Move(g.names[x], tmp)), gt, Move(g.names[x], tmp),
              env[x := u.stack[u.top.base + tmp]], g.nv);
  }

  /** Working above the named registers does not disturb the variables. */
  lemma EnvKept(g: Ctx, st: IrState, u: IrState, env: Env)
    requires Inv(g) && st.Running? && EnvIn(env, g.names, st.stack, st.top.base) && SameFrame(st, u, g.nv)
    ensures EnvIn(env, g.names, u.stack, u.top.base)
  {
    hide CodeOk, Constants;
    forall y <- env
      ensures u.stack[u.top.base + g.names[y]] == env[y]
    {
      assert g.names[y] < g.nv;
    }
  }

  // -- jumps and returns --

  lemma JumpStep(m: Module, st: IrState, fn: nat, g: Ctx, t: BlockId, env: Env)
    requires At(m, st, fn, g) && Fits(m, fn, Emit(g, Jump(t))) && EnvIn(env, g.names, st.stack, st.top.base)
    ensures InBlock(m, st, Step(m, st), fn, g.names, t, env)
  {
    hide Within, EnvIn;
    StepAt(m, st, fn, g, Jump(t));
  }

  lemma LeaveLoopSim(m: Module, p: Program, d: FuncDecl, st: IrState, fn: nat, g: Ctx, s: Stmt,
                     live: set<Name>, env: Env, fuel: Fuel)
    returns (n: nat, o': Outcome)
    requires (s.Break? || s.Continue?) && StmtReady(m, p, d, st, fn, g, env)
    requires BuildStmt(Visible(p), g, s).Some? && Fits(m, fn, BuildStmt(Visible(p), g, s).value)
    ensures StmtSimulated(m, p, d, st, fn, g, s, live, env, fuel, n, o')
  {
    hide Inv, Within, Step, EnvIn, Fits, InBlock, NamesFor, Run;
    var l := g.loops[|g.loops| - 1];
    assert Restrict(env, env.Keys) == env;
    var to := if s.Break? then l + 2 else l;
    JumpStep(m, st, fn, g, to, env);
    FrameOf(m, st, Step(m, st), fn, g.names, to, env);
    o' := ExecStmt(p, env, s, fuel);
    SameAfter(live, s, o');
    n := 1;
    RunOne(m, st);
  }

  lemma RunOne(m: Module, st: IrState)
    ensures Run(m, st, 1) == Step(m, st) && Run(m, st, 0) == st
  {
    hide Step;
    assert Run(m, st, 1) == Run(m, Step(m, st), 0);
  }

  lemma ReturnStep(m: Module, st: IrState, fn: nat, g: Ctx, r: Option<Reg>)
    requires At(m, st, fn, g) && Fits(m, fn, Emit(g, Ir.Return(r)))
    requires r.Some? ==> InFile(st.stack, st.top.base, r.value)
    ensures ReturnedTo(st, Step(m, st), st.stack[st.top.base + if r.Some? then r.value else 0])
  {
    hide Within;
    StepAt(m, st, fn, g, Ir.Return(r));
  }

  lemma ReturnSim(m: Module, p: Program, d: FuncDecl, st: IrState, fn: nat, g: Ctx, s: Stmt,
                  live: set<Name>, env: Env, fuel: Fuel)
    returns (n: nat, o': Outcome)
    requires s.Return? && s.result.Some? && Compiled(m, p) && StmtReady(m, p, d, st, fn, g, env)
    requires Placed(p, live, env, s)
    requires BuildStmt(Visible(p), g, s).Some? && Fits(m, fn, BuildStmt(Visible(p), g, s).value)
    ensures StmtSimulated(m, p, d, st, fn, g, s, live, env, fuel, n, o')
    decreases fuel.depth, fuel.turns, 2, s, 0
  {
    hide Inv, Compiled, Within, NamesFor, Run, Step, Extends, EvalExpr, BuildExpr, Fits, EnvIn, ReturnedTo, GlobalsOf,
         ScopedExpr, GivesValue;
    var e := s.result.value;
    ExprKeepsShape(Visible(p), g, e);
    var r := BuildExpr(Visible(p), g, e);
    var g' := Emit(r.g, Ir.Return(Some(r.r)));
    ReturnShape(r.g, Some(r.r));
    FitsEarlier(m, fn, r.g, g');
    var env';
    n, env' := UseSim(m, p, st, fn, g, e, live, env, fuel);
    var res := EvalExpr(p, env, e, fuel);
    o' := if res.Val? then Returned(res.v) else Stopped(res);
    var t := Run(m, st, n);
    if HitLimit(t) || !res.Val? {
      UseStopped(m, p, d, st, fn, g, g, g', e, live, env, env', fuel, n, env.Keys);
      return;
    }
    ReturnStep(m, t, fn, r.g, Some(r.r));
    RunStep(m, st, n);
    ReturnTrans(st, t, Step(m, t), res.v);
    n := n + 1;
  }

  lemma FrameWeaken(st: IrState, t: IrState, k: nat)
    requires st.Running? && SameFrame(st, t, k)
    ensures SameFrame(st, t, 0)
  {
  }

  lemma ExitSim(m: Module, p: Program, d: FuncDecl, st: IrState, fn: nat, g: Ctx, env: Env)
    requires StmtReady(m, p, d, st, fn, g, env) && Fits(m, fn, Emit(g, Ir.Return(None)))
    ensures exists v :: ReturnedTo(st, Run(m, st, 1), v) && ExitValue(d, env, v)
    ensures !HitLimit(Run(m, st, 1))
  {
    hide Inv, Within, Step, Run, Fits;
    ReturnStep(m, st, fn, g, None);
    RunOne(m, st);
    var v := st.stack[st.top.base];
    ReturnedInTime(st, Run(m, st, 1), v);
    assert ReturnedTo(st, Run(m, st, 1), v) && ExitValue(d, env, v);
  }

  // -- nested statements --

  ghost predicate PhaseSimulated(m: Module, p: Program, d: FuncDecl, st: IrState, fn: nat, h: Ctx, s: Stmt, out: BlockId,
                                 live: set<Name>, env: Env, fuel: Fuel, n: nat, o': Outcome)
    requires st.Running?
  {
    var o := Leave(o', env.Keys);
    var t := Run(m, st, n);
    && AlikeAfter(live, s, ExecStmt(p, env, s, fuel), o')
    && PhasePost(m, d, st, t, fn, h.names, h.loops, env.Keys, out, o) && Spent(st, t, o.Timeout?, n, fuel)
  }

  /** A statement built into the empty block `c` of `h`, which then goes on to block `out`. */
  lemma PhaseSim(m: Module, p: Program, d: FuncDecl, st: IrState, fn: nat, h: Ctx, c: BlockId, s: Stmt, out: BlockId,
                 live: set<Name>, env: Env, fuel: Fuel)
    returns (n: nat, o': Outcome)
    requires Compiled(m, p) && Placed(p, live, env, s)
    requires c < |h.blocks| && h.blocks[c] == [] && StmtReady(m, p, d, st, fn, h.(cur := c), env)
    requires BuildStmt(Visible(p), h.(cur := c), s).Some?
    requires Fits(m, fn, CloseWith(BuildStmt(Visible(p), h.(cur := c), s).value, Jump(out)))
    requires out < |h.blocks|
    ensures PhaseSimulated(m, p, d, st, fn, h, s, out, live, env, fuel, n, o')
    decreases fuel.depth, fuel.turns, 2, s, 2
  {
    hide Inv, Compiled, Within, NamesFor, Run, Step, Extends, ExecStmt, BuildStmt, Fits, EnvIn, AbruptPost,
         ScopedStmt, DeclaresAnew, Ready, AlikeAfter;
    var h1 := h.(cur := c);
    var a := BuildStmt(Visible(p), h1, s).value;
    PhaseParts(m, p, d, st, fn, h1, s, out, env);
    n, o' := StmtSim(m, p, d, st, fn, h1, s, live, env, fuel);
    AlikeKeeps(p, live, env, s, fuel, o');
    var t := Run(m, st, n);
    if o'.Normal? {
      if HitLimit(t) { return; }
      JumpStep(m, t, fn, a, out, o'.env);
      RunStep(m, st, n);
      n := n + 1;
      RestrictIn(m, st, t, Step(m, t), fn, a.names, h.names, out, o'.env, env.Keys);
    } else {
      AbruptLeave(m, d, st, t, fn, h.names, h.loops, env.Keys, o');
    }
  }

  lemma PhaseParts(m: Module, p: Program, d: FuncDecl, st: IrState, fn: nat, h: Ctx, s: Stmt, out: BlockId, env: Env)
    requires DeclaresAnew(p, env.Keys, s) && StmtReady(m, p, d, st, fn, h, env) && out < |h.blocks|
    requires BuildStmt(Visible(p), h, s).Some?
    requires Fits(m, fn, CloseWith(BuildStmt(Visible(p), h, s).value, Jump(out)))
    ensures var a := BuildStmt(Visible(p), h, s).value; Fits(m, fn, a) && Agree(env.Keys, h.names, a.names)
  {
    hide CodeOk, Constants, BuildStmt, Within;
    var a := BuildStmt(Visible(p), h, s).value;
    StmtKeepsShape(Visible(p), h, s);
    CloseShape(a, out);
    FitsEarlier(m, fn, a, CloseWith(a, Jump(out)));
    StmtNames(p, env.Keys, h, s);
  }

  /** Leaving a scope: the surviving variables are where they were before it. */
  lemma RestrictIn(m: Module, st: IrState, t: IrState, u: IrState, fn: nat, names1: map<Name, Reg>,
                   names: map<Name, Reg>, b: BlockId, env1: Env, dom: set<Name>)
    requires st.Running? && t.Running? && SameFrame(st, t, 0) && InBlock(m, t, u, fn, names1, b, env1)
    requires Agree(dom, names, names1)
    ensures InBlock(m, st, u, fn, names, b, Restrict(env1, dom))
  {
    hide Window;
    forall x <- Restrict(env1, dom)
      ensures x in names && u.top.base + names[x] < |u.stack| && u.stack[u.top.base + names[x]] == env1[x]
    {
      assert x in env1 && x in dom;
    }
  }

  lemma AbruptLeave(m: Module, d: FuncDecl, st: IrState, t: IrState, fn: nat, names: map<Name, Reg>,
                    loops: seq<BlockId>, dom: set<Name>, o: Outcome)
    requires !o.Normal? && AbruptPost(m, d, st, t, fn, names, loops, dom, o)
    requires o.Exited? && d.params != [] ==> d.params[0] in dom
    ensures AbruptPost(m, d, st, t, fn, names, loops, dom, Leave(o, dom))
  {
    hide InBlock, ReturnedTo;
    if HasEnv(o) { assert Restrict(Restrict(o.env, dom), dom) == Restrict(o.env, dom); }
    if o.Exited? && !HitLimit(t) {
      var v :| ReturnedTo(st, t, v) && ExitValue(d, o.env, v);
      assert ExitValue(d, Restrict(o.env, dom), v);
    }
  }

  // -- if --

  lemma FilledWithin(h: Ctx, c: BlockId, k: Ctx, m: Module, fn: nat)
    requires Filled(h, c, k) && h.blocks[c] == [] && Fits(m, fn, k)
    ensures Fits(m, fn, h)
  {
    forall b | 0 <= b < |h.blocks|
      ensures h.blocks[b] <= m.funcs[fn].blocks[b]
    {
      assert k.blocks[b] <= m.funcs[fn].blocks[b];
    }
  }

  lemma ThenShape(p: Program, dom: set<Name>, g: Ctx, cond: Reg, s: Stmt)
    requires s.If? && Inv(g) && !Terminated(g) && cond < g.nv && BuildBranches(Visible(p), g, cond, s).Some?
    requires NamesFor(p, dom, g.names) && DeclaresAnew(p, dom, s)
    ensures var g1 := BranchHead(g, cond, s);
            var t := |g.blocks|;
            Inv(g1.(cur := t)) && BuildStmt(Visible(p), g1.(cur := t), s.thn).Some? &&
            var g2 := ThenDone(Visible(p), g, cond, s);
            g2 == CloseWith(BuildStmt(Visible(p), g1.(cur := t), s.thn).value, Jump(t + 1)) &&
            Inv(g2) && Filled(g1, t, g2) && NamesFor(p, dom, g2.names) && Agree(dom, g.names, g2.names) &&
            Agree(dom, g.names, g.names) && g2.loops == g.loops
  {
    hide CodeOk, Constants, BuildStmt;
    HeadShape(g, cond, s);
    var g1 := BranchHead(g, cond, s);
    var t := |g.blocks|;
    SwitchInv(g1, t, g1.loops);
    FillBlock(Visible(p), g1, t, s.thn, t + 1);
    InnerNames(p, dom, g1.(cur := t), s.thn);
  }

  lemma ElseShape(p: Program, dom: set<Name>, g: Ctx, cond: Reg, s: Stmt)
    requires s.If? && Inv(g) && !Terminated(g) && cond < g.nv && BuildBranches(Visible(p), g, cond, s).Some?
    requires NamesFor(p, dom, g.names) && DeclaresAnew(p, dom, s)
    ensures var g2 := ThenDone(Visible(p), g, cond, s);
            var g3 := ElseDone(Visible(p), g, cond, s);
            var t := |g.blocks|;
            BuildBranches(Visible(p), g, cond, s) == Some(g3.(cur := t + 1)) &&
            t + 1 < |g3.blocks| && g3.blocks[t + 1] == [] && Agree(dom, g.names, g3.names) &&
            (s.els.Some? ==> Inv(g2.(cur := t + 2)) && t + 2 < |g2.blocks| && g2.blocks[t + 2] == [] &&
                             BuildStmt(Visible(p), g2.(cur := t + 2), s.els.value).Some? && Filled(g2, t + 2, g3) &&
                             g3 == CloseWith(BuildStmt(Visible(p), g2.(cur := t + 2), s.els.value).value, Jump(t + 1)))
  {
    hide CodeOk, Constants, BuildStmt, ThenDone, BranchHead, EndsInTerminator;
    HeadShape(g, cond, s);
    ThenShape(p, dom, g, cond, s);
    BranchesParts(Visible(p), g, cond, s);
    var g2 := ThenDone(Visible(p), g, cond, s);
    var t := |g.blocks|;
    if s.els.Some? {
      SwitchInv(g2, t + 2, g2.loops);
      EmptyOpen(g2, t + 2);
      FillBlock(Visible(p), g2, t + 2, s.els.value, t + 1);
      InnerNames(p, dom, g2.(cur := t + 2), s.els.value);
    }
  }

  lemma BranchStep(m: Module, st: IrState, fn: nat, g: Ctx, cond: Reg, s: Stmt, env: Env)
    requires s.If? && At(m, st, fn, g) && Inv(g) && InFile(st.stack, st.top.base, cond)
    requires EnvIn(env, g.names, st.stack, st.top.base)
    requires Fits(m, fn, BranchHead(g, cond, s))
    ensures var t := |g.blocks|;
            InBlock(m, st, Step(m, st), fn, g.names,
                    if BranchTruth(st.stack[st.top.base + cond]) then t else if s.els.Some? then t + 2 else t + 1, env)
  {
    hide Within, EnvIn, Inv;
    var t := |g.blocks|;
    var g0 := AddBlocks(g, if s.els.Some? then 3 else 2);
    assert g0.blocks[g.cur] == g.blocks[g.cur];
    StepAt(m, st, fn, g0, Branch(cond, t, if s.els.Some? then t + 2 else t + 1));
  }

  lemma BlockReady(m: Module, p: Program, d: FuncDecl, st: IrState, t: IrState, fn: nat, names: map<Name, Reg>,
                   h: Ctx, c: BlockId, env: Env)
    requires InBlock(m, st, t, fn, names, c, env) && c < |h.blocks| && h.blocks[c] == []
    requires Inv(h.(cur := c)) && NamesFor(p, env.Keys, h.names) && Agree(env.Keys, names, h.names)
    requires FirstParamIn(d, env, names)
    ensures StmtReady(m, p, d, t, fn, h.(cur := c), env)
  {
    hide Inv, NamesFor;
  }

  lemma ArmsFit(m: Module, p: Program, fn: nat, dom: set<Name>, g: Ctx, cond: Reg, s: Stmt)
    requires s.If? && HasBlock(g) && Inv(g) && !Terminated(g) && cond < g.nv && BuildBranches(Visible(p), g, cond, s).Some?
    requires NamesFor(p, dom, g.names) && DeclaresAnew(p, dom, s)
    requires Fits(m, fn, BuildBranches(Visible(p), g, cond, s).value)
    ensures Fits(m, fn, ElseDone(Visible(p), g, cond, s))
    ensures Fits(m, fn, ThenDone(Visible(p), g, cond, s))
    ensures Fits(m, fn, BranchHead(g, cond, s))
  {
    hide Inv, Within, Extends, BuildStmt, BranchHead, ThenDone, BuildBranches, Filled, NamesFor, ScopedStmt, Agree;
    HeadShape(g, cond, s);
    ThenShape(p, dom, g, cond, s);
    ElseShape(p, dom, g, cond, s);
    if s.els.Some? {
      FilledWithin(ThenDone(Visible(p), g, cond, s), |g.blocks| + 2, ElseDone(Visible(p), g, cond, s), m, fn);
    }
    FilledWithin(BranchHead(g, cond, s), |g.blocks|, ThenDone(Visible(p), g, cond, s), m, fn);
  }

  lemma FrameOf(m: Module, st: IrState, t: IrState, fn: nat, names: map<Name, Reg>, b: BlockId, env: Env)
    requires InBlock(m, st, t, fn, names, b, env)
    ensures st.Running? && t.Running? && SameFrame(st, t, 0)
  {
  }

  /** Standing at the start of the still empty block `b` is being ready to build on in it. */
  lemma BlockNormal(m: Module, st: IrState, t: IrState, fn: nat, names: map<Name, Reg>, h: Ctx, b: BlockId, env: Env,
                    dom: set<Name>)
    requires InBlock(m, st, t, fn, names, b, env) && env.Keys <= dom && Agree(dom, names, h.names)
    requires b < |h.blocks| && h.blocks[b] == []
    ensures NormalPost(m, st, t, fn, h.(cur := b), env)
  {
    hide Window, SameFrame;
  }

  lemma ArmPost(m: Module, p: Program, d: FuncDecl, st: IrState, st1: IrState, t: IrState, fn: nat, g: Ctx,
                names1: map<Name, Reg>, h: Ctx, join: BlockId, dom: set<Name>, o: Outcome)
    requires st.Running? && st1.Running? && SameFrame(st, st1, 0) && (o.Normal? ==> o.env.Keys <= dom)
    requires PhasePost(m, d, st1, t, fn, names1, g.loops, dom, join, o)
    requires Agree(dom, g.names, names1) && Agree(dom, g.names, h.names)
    requires join < |h.blocks| && h.blocks[join] == []
    ensures StmtPost(m, d, st, t, fn, g, h.(cur := join), dom, o)
  {
    hide AbruptPost, SameFrame, EnvIn, Agree, InBlock;
    PhaseTrans(m, d, st, st1, t, fn, g.names, names1, g.loops, dom, join, o);
    if o.Normal? && !HitLimit(t) { BlockNormal(m, st, t, fn, g.names, h, join, o.env, dom); }
  }

  /** What an `if` does once its condition is known. */
  function Taken(p: Program, env: Env, s: Stmt, v: Value, fuel: Fuel): Outcome
    requires s.If?
  {
    if BranchTruth(v) then Leave(ExecStmt(p, env, s.thn, fuel), env.Keys)
    else if s.els.Some? then Leave(ExecStmt(p, env, s.els.value, fuel), env.Keys)
    else Normal(env)
  }

  /** The arms of an `if` in which these names are intact, `kept` of them afterwards. */
  ghost predicate ArmsPlaced(p: Program, live: set<Name>, kept: set<Name>, env: Env, s: Stmt)
    requires s.If?
  {
    && kept <= live && Placed(p, live, env, s.thn) && kept <= Kept(live, Clobbers(s.thn))
    && (s.els.Some? ==> Placed(p, live, env, s.els.value) && kept <= Kept(live, Clobbers(s.els.value)))
  }

  lemma TakenAlike(p: Program, live: set<Name>, kept: set<Name>, env: Env, env': Env, s: Stmt, v: Value, fuel: Fuel)
    requires s.If? && ArmsPlaced(p, live, kept, env, s) && Twin(p, live, env, env')
    ensures AlikeOn(kept, Taken(p, env, s, v, fuel), Taken(p, env', s, v, fuel))
  {
    hide ExecStmt, ScopedStmt, DeclaresAnew, GlobalsOf;
    if BranchTruth(v) { ArmAlike(p, live, kept, env, env', s.thn, fuel); }
    else if s.els.Some? { ArmAlike(p, live, kept, env, env', s.els.value, fuel); }
  }

  lemma BranchesSim(m: Module, p: Program, d: FuncDecl, st: IrState, fn: nat, g: Ctx, cond: Reg, s: Stmt,
                    live: set<Name>, kept: set<Name>, env: Env, fuel: Fuel)
    returns (n: nat, o': Outcome)
    requires s.If? && Compiled(m, p) && StmtReady(m, p, d, st, fn, g, env)
    requires DeclaresAnew(p, env.Keys, s) && ArmsPlaced(p, live, kept, env, s)
    requires cond < g.nv && InFile(st.stack, st.top.base, cond)
    requires BuildBranches(Visible(p), g, cond, s).Some?
    requires Fits(m, fn, BuildBranches(Visible(p), g, cond, s).value)
    ensures var v := st.stack[st.top.base + cond];
            var t := Run(m, st, n);
            StmtPost(m, d, st, t, fn, g, BuildBranches(Visible(p), g, cond, s).value, env.Keys, o') &&
            Spent(st, t, o'.Timeout?, n, fuel) && AlikeOn(kept, Taken(p, env, s, v, fuel), o')
    decreases fuel.depth, fuel.turns, 2, s, 0, 0
  {
    hide Inv, Compiled, Within, NamesFor, Run, Step, Extends, ExecStmt, BuildStmt, Fits, EnvIn, AbruptPost, Agree,
         BranchHead, ThenDone, ElseDone, BuildBranches, Filled, SameFrame, FirstParamIn, AlikeAfter, ScopedStmt,
         DeclaresAnew, Clobbers;
    var vis := Visible(p);
    var b := |g.blocks|;
    HeadShape(g, cond, s);
    ThenShape(p, env.Keys, g, cond, s);
    ElseShape(p, env.Keys, g, cond, s);
    var g1 := BranchHead(g, cond, s);
    var g2 := ThenDone(vis, g, cond, s);
    var g3 := ElseDone(vis, g, cond, s);
    ArmsFit(m, p, fn, env.Keys, g, cond, s);
    BranchStep(m, st, fn, g, cond, s, env);
    RunOne(m, st);
    var st1 := Run(m, st, 1);
    FrameOf(m, st, st1, fn, g.names, st1.top.pc.block, env);
    n := 1;
    var v := st.stack[st.top.base + cond];
    if BranchTruth(v) {
      BlockReady(m, p, d, st, st1, fn, g.names, g1, b, env);
      var n2, a := PhaseSim(m, p, d, st1, fn, g1, b, s.thn, b + 1, live, env, fuel);
      o' := Leave(a, env.Keys);
      LeaveAlike(live, kept, env.Keys, s.thn, ExecStmt(p, env, s.thn, fuel), a);
      RunSplit(m, st, 1, n2);
      n := 1 + n2;
      ArmPost(m, p, d, st, st1, Run(m, st1, n2), fn, g, g1.names, g3, b + 1, env.Keys, o');
    } else if s.els.Some? {
      BlockReady(m, p, d, st, st1, fn, g.names, g2, b + 2, env);
      var n2, a := PhaseSim(m, p, d, st1, fn, g2, b + 2, s.els.value, b + 1, live, env, fuel);
      o' := Leave(a, env.Keys);
      LeaveAlike(live, kept, env.Keys, s.els.value, ExecStmt(p, env, s.els.value, fuel), a);
      RunSplit(m, st, 1, n2);
      n := 1 + n2;
      ArmPost(m, p, d, st, st1, Run(m, st1, n2), fn, g, g2.names, g3, b + 1, env.Keys, o');
    } else {
      BlockNormal(m, st, st1, fn, g.names, g3, b + 1, env, env.Keys);
      o' := Normal(env);
      AlikeSelf(kept, o');
    }
  }

  lemma IfSim(m: Module, p: Program, d: FuncDecl, st: IrState, fn: nat, g: Ctx, s: Stmt,
              live: set<Name>, env: Env, fuel: Fuel)
    returns (n: nat, o': Outcome)
    requires s.If? && Compiled(m, p) && StmtReady(m, p, d, st, fn, g, env) && Placed(p, live, env, s)
    requires BuildStmt(Visible(p), g, s).Some? && Fits(m, fn, BuildStmt(Visible(p), g, s).value)
    ensures StmtSimulated(m, p, d, st, fn, g, s, live, env, fuel, n, o')
    decreases fuel.depth, fuel.turns, 2, s, 0, 1
  {
    hide Inv, Compiled, Within, NamesFor, Run, Step, Extends, EvalExpr, BuildExpr, Fits, EnvIn, AbruptPost,
         NormalPost, BuildBranches, BuildStmt, ExecStmt, SameFrame, GlobalsOf, ScopedExpr, GivesValue, AlikeOn, Taken;
    IfParts(p, g, s, env, fuel);
    ExprKeepsShape(Visible(p), g, s.cond);
    var r := BuildExpr(Visible(p), g, s.cond);
    var g' := BuildBranches(Visible(p), r.g, r.r, s).value;
    BranchesKeepShape(Visible(p), r.g, r.r, s);
    FitsEarlier(m, fn, r.g, g');
    var env';
    n, env' := UseSim(m, p, st, fn, g, s.cond, live, env, fuel);
    var res := EvalExpr(p, env, s.cond, fuel);
    var t := Run(m, st, n);
    if HitLimit(t) || !res.Val? {
      o' := ExecStmt(p, env, s, fuel);
      SameAfter(live, s, o');
      UseStopped(m, p, d, st, fn, g, g, g', s.cond, live, env, env', fuel, n, env.Keys);
      return;
    }
    var after, kept := Kept(live, BareCall(s.cond)), Kept(live, Clobbers(s));
    var n2;
    ReadyApart(m, p, st, fn, g, env);
    FirstParamKept(d, env, env', g.names);
    n2, o' := BranchesSim(m, p, d, t, fn, r.g, r.r, s, after, kept, env', fuel);
    RunSplit(m, st, n, n2);
    SelfAgree(p, env.Keys, g.names);
    StmtTrans(m, d, st, t, Run(m, t, n2), fn, g, r.g, g', env.Keys, env.Keys, o');
    SpentTrans(st, t, Run(m, t, n2), o'.Timeout?, n, n2, fuel);
    n := n + n2;
    TakenAlike(p, after, kept, env, env', s, res.v, fuel);
    AlikeTrans(kept, Taken(p, env, s, res.v, fuel), Taken(p, env', s, res.v, fuel), o');
  }

  lemma ReadyApart(m: Module, p: Program, st: IrState, fn: nat, g: Ctx, env: Env)
    requires Ready(m, p, st, fn, g, env)
    ensures NoFunctions(p, env.Keys)
  {
    hide Inv, GlobalsOf;
  }

  lemma SelfAgree(p: Program, dom: set<Name>, names: map<Name, Reg>)
    requires NamesFor(p, dom, names)
    ensures Agree(dom, names, names)
  {
  }

  lemma IfParts(p: Program, g: Ctx, s: Stmt, env: Env, fuel: Fuel)
    requires s.If? && HasBlock(g) && BuildStmt(Visible(p), g, s).Some?
    ensures var r := BuildExpr(Visible(p), g, s.cond);
            r.BuiltExpr? && BuildStmt(Visible(p), g, s) == BuildBranches(Visible(p), r.g, r.r, s) &&
            BuildBranches(Visible(p), r.g, r.r, s).Some?
    ensures var r := EvalExpr(p, env, s.cond, fuel);
            ExecStmt(p, env, s, fuel) ==
            if !r.Val? then Stopped(r)
            else Taken(p, env, s, r.v, fuel)
  {
    hide BuildExpr, EvalExpr, BuildBranches;
  }

  /** A statement's outcome after a prefix of the run that kept its variables. */
  lemma StmtTrans(m: Module, d: FuncDecl, st: IrState, st1: IrState, t: IrState, fn: nat, g: Ctx, g1: Ctx, g': Ctx,
                  dom: set<Name>, dom1: set<Name>, o: Outcome)
    requires st.Running? && st1.Running? && SameFrame(st, st1, 0) && g1.loops == g.loops
    requires dom <= dom1 && Agree(dom, g.names, g1.names)
    requires StmtPost(m, d, st1, t, fn, g1, g', dom1, o)
    ensures StmtPost(m, d, st, t, fn, g, g', dom, o)
  {
    hide AbruptPost, NormalPost, Agree;
    if o.Normal? {
      NormalTrans(m, st, st1, t, fn, g', o.env, 0);
    } else {
      AbruptTrans(m, d, st, st1, t, fn, g.names, g1.names, g.loops, dom, dom1, o);
    }
  }

  // -- loops --

  ghost predicate LoopFacts(p: Program, dom: set<Name>, g: Ctx, s: Stmt)
    requires HasBlock(g) && s.Loop? && BuildStmt(Visible(p), g, s).Some?
  {
    var c := |g.blocks|;
    var h := LoopHead(g);
    var k := LoopGuarded(Visible(p), g, s);
    var k' := LoopDone(Visible(p), g, s);
    && Inv(h) && c + 2 < |h.blocks| && h.blocks[c] == [] && Filled(h, c, k) && h.names == g.names && k.names == g.names
    && Inv(k) && Inv(k.(cur := c + 1)) && c + 2 < |k.blocks| && k.blocks[c + 1] == [] && Filled(k, c + 1, k')
    && k.loops == g.loops + [c] && h.loops == g.loops + [c]
    && c + 2 < |k'.blocks| && k'.blocks[c + 2] == [] && Agree(dom, g.names, k'.names)
    && NamesFor(p, dom, g.names) && Agree(dom, g.names, g.names)
  }

  lemma LoopShape(p: Program, dom: set<Name>, g: Ctx, s: Stmt)
    requires s.Loop? && Inv(g) && !Terminated(g) && BuildStmt(Visible(p), g, s).Some?
    requires NamesFor(p, dom, g.names) && DeclaresAnew(p, dom, s)
    ensures LoopFacts(p, dom, g, s)
  {
    hide CodeOk, Constants, BuildStmt, EndsInTerminator, Extends;
    var c := |g.blocks|;
    LoopParts(Visible(p), g, s);
    LoopHeadShape(g);
    var h := LoopHead(g);
    GuardShape(Visible(p), h, s.guard, c);
    var k := LoopGuarded(Visible(p), g, s);
    SwitchInv(k, c + 1, k.loops);
    EmptyOpen(k, c + 1);
    FillBlock(Visible(p), k, c + 1, s.loopBody, c);
    InnerNames(p, dom, k.(cur := c + 1), s.loopBody);
  }

  lemma LoopFits(m: Module, p: Program, fn: nat, dom: set<Name>, g: Ctx, s: Stmt)
    requires s.Loop? && HasBlock(g) && BuildStmt(Visible(p), g, s).Some? && LoopFacts(p, dom, g, s)
    requires Inv(g) && !Terminated(g) && Fits(m, fn, BuildStmt(Visible(p), g, s).value)
    ensures Fits(m, fn, LoopDone(Visible(p), g, s)) && Fits(m, fn, LoopGuarded(Visible(p), g, s))
    ensures Fits(m, fn, LoopHead(g)) && Fits(m, fn, Emit(AddBlocks(g, 3), Jump(|g.blocks|)))
  {
    hide Inv, Within, BuildStmt, LoopGuarded, LoopDone, Filled;
    LoopParts(Visible(p), g, s);
    var c := |g.blocks|;
    FilledWithin(LoopGuarded(Visible(p), g, s), c + 1, LoopDone(Visible(p), g, s), m, fn);
    FilledWithin(LoopHead(g), c, LoopGuarded(Visible(p), g, s), m, fn);
  }

  /** A loop in which these names are intact throughout. */
  ghost predicate LoopPlaced(p: Program, live: set<Name>, env: Env, s: Stmt) {
    s.Loop? && Placed(p, live, env, s) && (Clobbers(s) ==> live == {})
  }

  lemma LoopPlacedParts(p: Program, live: set<Name>, env: Env, s: Stmt)
    requires LoopPlaced(p, live, env, s)
    ensures s.guard.Some? ==> Usable(p, live, s.guard.value) && (BareCall(s.guard.value) ==> live == {}) &&
                              (ScopedExpr(p, live, s.guard.value) || CallsFunction(p, s.guard.value))
    ensures Placed(p, live, env, s.loopBody) && (Clobbers(s.loopBody) ==> live == {})
    ensures DeclaresAnew(p, env.Keys, s)
  {
    hide GivesValue, ScopedExpr, GlobalsOf;
  }

  lemma LoopPlacedKeys(p: Program, live: set<Name>, env: Env, env': Env, s: Stmt)
    requires LoopPlaced(p, live, env, s) && env'.Keys == env.Keys
    ensures LoopPlaced(p, live, env', s)
  {
    hide Usable, GlobalsOf, ScopedStmt, DeclaresAnew;
  }

  ghost predicate LoopSimulated(m: Module, p: Program, d: FuncDecl, st: IrState, fn: nat, g: Ctx, s: Stmt,
                                live: set<Name>, env: Env, fuel: Fuel, n: nat, o': Outcome)
    requires s.Loop? && st.Running?
  {
    var t := Run(m, st, n);
    && AlikeOn(live, ExecLoop(p, env, s, fuel), o')
    && PhasePost(m, d, st, t, fn, g.names, g.loops, env.Keys, |g.blocks| + 2, o') && Spent(st, t, o'.Timeout?, n, fuel)
  }

  /** The condition block: the guard's value decides between body and exit block. */
  lemma GuardSim(m: Module, p: Program, d: FuncDecl, st: IrState, fn: nat, g: Ctx, s: Stmt, live: set<Name>, env: Env,
                 fuel: Fuel)
    returns (n: nat, env': Env)
    requires s.Loop? && HasBlock(g) && BuildStmt(Visible(p), g, s).Some? && LoopFacts(p, env.Keys, g, s)
    requires Compiled(m, p) && Ready(m, p, st, fn, LoopHead(g), env) && LoopPlaced(p, live, env, s)
    requires Fits(m, fn, LoopGuarded(Visible(p), g, s))
    ensures Alike(live, env, env')
    ensures var res := if s.guard.Some? then EvalExpr(p, env, s.guard.value, fuel) else Val(Bool(true));
            var t := Run(m, st, n);
            Spent(st, t, res.ExprTimeout?, n, fuel) &&
            (HitLimit(t) ||
             match res
             case Val(v) => n > 0 && InBlock(m, st, t, fn, g.names, |g.blocks| + (if BranchTruth(v) then 1 else 2), env')
             case ExprFault(f) => t == Halted(Faulted(f))
             case ExprTimeout => t.Running?)
    decreases fuel.depth, fuel.turns, 2, s, 0, 0
  {
    hide Inv, Compiled, Within, NamesFor, Run, Step, Extends, EvalExpr, BuildExpr, Fits, EnvIn, BuildStmt, LoopHead,
         InBlock, LoopDone, LoopPlaced, Usable, GlobalsOf;
    env' := env;
    LoopPlacedParts(p, live, env, s);
    var c := |g.blocks|;
    var h := LoopHead(g);
    LoopParts(Visible(p), g, s);
    if s.guard.None? {
      JumpStep(m, st, fn, h, c + 1, env);
      FrameOf(m, st, Step(m, st), fn, h.names, c + 1, env);
      RunOne(m, st);
      n := 1;
      return;
    }
    var e := s.guard.value;
    ExprKeepsShape(Visible(p), h, e);
    var r := BuildExpr(Visible(p), h, e);
    var i := Branch(r.r, c + 1, c + 2);
    GuardFits(m, fn, h, r.g, i, |g.blocks|);
    n, env' := UseSim(m, p, st, fn, h, e, live, env, fuel);
    var t := Run(m, st, n);
    var res := EvalExpr(p, env, e, fuel);
    if HitLimit(t) || !res.Val? { return; }
    GuardBranch(m, t, fn, r.g, r.r, c, env');
    RunStep(m, st, n);
    var to := c + if BranchTruth(res.v) then 1 else 2;
    InBlockTrans(m, st, t, Step(m, t), fn, g.names, to, env');
    FrameOf(m, st, Step(m, t), fn, g.names, to, env');
    n := n + 1;
  }

  lemma GuardFits(m: Module, fn: nat, h: Ctx, g: Ctx, i: Inst, c: BlockId)
    requires ExprShape(h, g) && i.Branch? && i.onTrue == c + 1 && i.onFalse == c + 2 && c == g.cur
    requires i.cond < g.nv && c + 2 < |g.blocks| && Fits(m, fn, Emit(g, i))
    ensures Fits(m, fn, g)
  {
    hide CodeOk;
    EmitShape(g, i);
    FitsEarlier(m, fn, g, Emit(g, i));
  }

  lemma GuardBranch(m: Module, st: IrState, fn: nat, g: Ctx, cond: Reg, c: BlockId, env: Env)
    requires At(m, st, fn, g) && InFile(st.stack, st.top.base, cond) && EnvIn(env, g.names, st.stack, st.top.base)
    requires Fits(m, fn, Emit(g, Branch(cond, c + 1, c + 2)))
    ensures InBlock(m, st, Step(m, st), fn, g.names,
                    c + (if BranchTruth(st.stack[st.top.base + cond]) then 1 else 2), env)
  {
    hide Within, EnvIn;
    StepAt(m, st, fn, g, Branch(cond, c + 1, c + 2));
  }

  lemma InBlockTrans(m: Module, st: IrState, st1: IrState, t: IrState, fn: nat, names: map<Name, Reg>, b: BlockId,
                     env: Env)
    requires st.Running? && st1.Running? && SameFrame(st, st1, 0) && InBlock(m, st1, t, fn, names, b, env)
    ensures InBlock(m, st, t, fn, names, b, env)
  {
    hide Window, EnvIn;
  }

  /** The outcomes that leave all loops at once. */
  predicate LeavesFunction(o: Outcome) {
    o.Returned? || o.Exited? || o.Failed? || o.Timeout?
  }

  lemma AbruptOutside(m: Module, d: FuncDecl, st: IrState, t: IrState, fn: nat, names: map<Name, Reg>,
                      names': map<Name, Reg>, loops: seq<BlockId>, loops': seq<BlockId>, dom: set<Name>, o: Outcome)
    requires LeavesFunction(o) && AbruptPost(m, d, st, t, fn, names, loops, dom, o)
    ensures AbruptPost(m, d, st, t, fn, names', loops', dom, o)
  {
    hide ReturnedTo, InBlock;
  }

  lemma {:induction false} LoopSim(m: Module, p: Program, d: FuncDecl, st: IrState, fn: nat, g: Ctx, s: Stmt,
                                   live: set<Name>, env: Env, fuel: Fuel)
    returns (n: nat, o': Outcome)
    requires s.Loop? && HasBlock(g) && BuildStmt(Visible(p), g, s).Some? && LoopFacts(p, env.Keys, g, s)
    requires Compiled(m, p) && StmtReady(m, p, d, st, fn, LoopHead(g), env) && LoopPlaced(p, live, env, s)
    requires Fits(m, fn, LoopGuarded(Visible(p), g, s)) && Fits(m, fn, LoopDone(Visible(p), g, s))
    ensures LoopSimulated(m, p, d, st, fn, g, s, live, env, fuel, n, o')
    decreases fuel.depth, fuel.turns, 2, s, 0, 1
  {
    hide Inv, Compiled, Within, NamesFor, Run, Step, Extends, EvalExpr, Fits, EnvIn, BuildStmt, LoopHead, LoopGuarded,
         LoopDone, Filled, InBlock, ExecLoop, ExecStmt, Agree, Ready, FirstParamIn, AbruptPost, LoopPlaced, AlikeOn,
         Alike;
    var env1;
    n, env1 := GuardSim(m, p, d, st, fn, g, s, live, env, fuel);
    KeysAlike(live, env, env1);
    IterationParts(p, env, s, fuel);
    var res := if s.guard.Some? then EvalExpr(p, env, s.guard.value, fuel) else Val(Bool(true));
    var t := Run(m, st, n);
    if HitLimit(t) || !res.Val? {
      o' := ExecLoop(p, env, s, fuel);
      AlikeSelf(live, o');
      LoopStopped(m, d, st, t, fn, g.names, g.loops, env.Keys, |g.blocks| + 2, res);
      return;
    }
    if !BranchTruth(res.v) {
      o' := Normal(env1);
      NormalAlike(live, env, env1);
      return;
    }
    if fuel.turns == 0 {
      o' := Timeout;
      AlikeSelf(live, o');
      TimeoutPost(m, d, st, t, fn, g.names, g.loops, env.Keys, |g.blocks| + 1, env1);
      return;
    }
    LoopPlacedKeys(p, live, env, env1, s);
    FirstParamKept(d, env, env1, g.names);
    var n2, b := IterationSim(m, p, d, st, t, fn, g, s, live, env1, fuel);
    RunSplit(m, st, n, n2);
    n := n + n2;
    var u := Run(m, t, n2);
    ReadyApart(m, p, st, fn, LoopHead(g), env);
    RoundAlike(p, live, env, env1, s, fuel, b);
    var b0 := Leave(ExecStmt(p, env, s.loopBody, fuel), env.Keys);
    EndAlike(live, b0, b);
    if HitLimit(u) {
      o' := ExecLoop(p, env, s, fuel);
      AlikeSelf(live, o');
      LimitPost(m, d, st, u, fn, g.names, g.loops, env.Keys, |g.blocks| + 2, o');
    } else if b.Normal? || b.Continued? {
      LoopPlacedKeys(p, live, env, b.env, s);
      var n3;
      n3, o' := LoopSim(m, p, d, u, fn, g, s, live, b.env, AfterTurn(fuel));
      RunSplit(m, st, n, n3);
      n := n + n3;
      FrameOf(m, st, u, fn, g.names, |g.blocks|, b.env);
      LoopAgree(p, env.Keys, g, s);
      RestAlike(p, live, env, s, b0, b, fuel, o');
      PhaseTrans(m, d, st, u, Run(m, u, n3), fn, g.names, g.names, g.loops, env.Keys, |g.blocks| + 2,
                 o');
    } else {
      o' := if b.Broke? then Normal(b.env) else b;
    }
  }

  // what a loop makes of an iteration whose variables differ where nobody looks

  lemma RoundAlike(p: Program, live: set<Name>, env: Env, env': Env, s: Stmt, fuel: Fuel, b: Outcome)
    requires s.Loop? && LoopPlaced(p, live, env, s) && Alike(live, env, env') && NoFunctions(p, env.Keys)
    requires AlikeOn(live, Leave(ExecStmt(p, env', s.loopBody, fuel), env'.Keys), b)
    ensures var b0 := Leave(ExecStmt(p, env, s.loopBody, fuel), env.Keys);
            AlikeOn(live, b0, b) && (HasEnv(b0) ==> b0.env.Keys == env.Keys)
  {
    hide ExecStmt, AlikeOn, LoopPlaced, ScopedStmt, DeclaresAnew;
    LoopPlacedParts(p, live, env, s);
    ArmAlike(p, live, live, env, env', s.loopBody, fuel);
    AlikeTrans(live, Leave(ExecStmt(p, env, s.loopBody, fuel), env.Keys),
               Leave(ExecStmt(p, env', s.loopBody, fuel), env'.Keys), b);
    ExecKeepsNames(p, env, s.loopBody, fuel);
  }

  lemma RestAlike(p: Program, live: set<Name>, env: Env, s: Stmt, b: Outcome, b': Outcome, fuel: Fuel, o': Outcome)
    requires fuel.turns > 0 && LoopPlaced(p, live, env, s) && NoFunctions(p, env.Keys)
    requires AlikeOn(live, b, b') && (b.Normal? || b.Continued?) && b.env.Keys == env.Keys
    requires AlikeOn(live, ExecLoop(p, b'.env, s, AfterTurn(fuel)), o')
    ensures AlikeOn(live, ExecLoop(p, b.env, s, AfterTurn(fuel)), o')
    ensures o'.Normal? ==> o'.env.Keys <= env.Keys
  {
    hide ExecLoop, ScopedStmt, DeclaresAnew, Clobbers;
    LoopAlike(p, live, b.env, b'.env, s, AfterTurn(fuel));
    AlikeTrans(live, ExecLoop(p, b.env, s, AfterTurn(fuel)), ExecLoop(p, b'.env, s, AfterTurn(fuel)), o');
    LoopKeys(p, live, b.env, s, AfterTurn(fuel), o');
  }

  lemma LoopKeys(p: Program, live: set<Name>, env: Env, s: Stmt, fuel: Fuel, o': Outcome)
    requires s.Loop? && AlikeOn(live, ExecLoop(p, env, s, fuel), o')
    ensures o'.Normal? ==> o'.env.Keys == env.Keys
  {
    hide ExecLoop;
    LoopKeepsNames(p, env, s, fuel);
  }

  lemma NormalAlike(live: set<Name>, env: Env, env': Env)
    requires Alike(live, env, env')
    ensures AlikeOn(live, Normal(env), Normal(env'))
  {
  }

  lemma EndAlike(live: set<Name>, b: Outcome, b': Outcome)
    requires AlikeOn(live, b, b')
    ensures b.Broke? <==> b'.Broke?
    ensures b.Normal? || b.Continued? <==> b'.Normal? || b'.Continued?
    ensures b.Broke? ==> AlikeOn(live, Normal(b.env), Normal(b'.env))
  {
  }

  lemma LoopAgree(p: Program, dom: set<Name>, g: Ctx, s: Stmt)
    requires HasBlock(g) && s.Loop? && BuildStmt(Visible(p), g, s).Some? && LoopFacts(p, dom, g, s)
    ensures Agree(dom, g.names, g.names)
  {
    hide Inv, Filled, BuildStmt;
  }

  lemma LoopStopped(m: Module, d: FuncDecl, st: IrState, t: IrState, fn: nat, names: map<Name, Reg>,
                    loops: seq<BlockId>, dom: set<Name>, out: BlockId, res: ExprResult)
    requires st.Running?
    requires HitLimit(t) || (!res.Val? && if res.ExprFault? then t == Halted(Faulted(res.f)) else t.Running?)
    ensures HitLimit(t) ==> forall o: Outcome :: PhasePost(m, d, st, t, fn, names, loops, dom, out, o)
    ensures !res.Val? ==> PhasePost(m, d, st, t, fn, names, loops, dom, out, Stopped(res))
  {
    hide InBlock, ReturnedTo;
  }

  lemma LimitPost(m: Module, d: FuncDecl, st: IrState, t: IrState, fn: nat, names: map<Name, Reg>,
                  loops: seq<BlockId>, dom: set<Name>, out: BlockId, o: Outcome)
    requires st.Running? && HitLimit(t)
    ensures PhasePost(m, d, st, t, fn, names, loops, dom, out, o)
  {
    hide InBlock, ReturnedTo;
  }

  lemma TimeoutPost(m: Module, d: FuncDecl, st: IrState, t: IrState, fn: nat, names: map<Name, Reg>,
                    loops: seq<BlockId>, dom: set<Name>, b: BlockId, env: Env)
    requires InBlock(m, st, t, fn, names, b, env)
    ensures AbruptPost(m, d, st, t, fn, names, loops, dom, Timeout)
  {
    hide EnvIn;
  }

  /** One pass through the loop body, entered at the start of the body block. */
  lemma IterationSim(m: Module, p: Program, d: FuncDecl, st: IrState, t: IrState, fn: nat, g: Ctx, s: Stmt,
                     live: set<Name>, env: Env, fuel: Fuel)
    returns (n: nat, b: Outcome)
    requires s.Loop? && HasBlock(g) && BuildStmt(Visible(p), g, s).Some? && LoopFacts(p, env.Keys, g, s)
    requires Compiled(m, p) && LoopPlaced(p, live, env, s) && FirstParamIn(d, env, g.names)
    requires InBlock(m, st, t, fn, g.names, |g.blocks| + 1, env) && Fits(m, fn, LoopDone(Visible(p), g, s))
    ensures var c := |g.blocks|;
            var u := Run(m, t, n);
            Spent(st, u, b.Timeout?, n, fuel) && (HasEnv(b) ==> b.env.Keys == env.Keys) &&
            AlikeOn(live, Leave(ExecStmt(p, env, s.loopBody, fuel), env.Keys), b) &&
            (HitLimit(u) ||
             if b.Normal? || b.Continued? then
               InBlock(m, st, u, fn, g.names, c, b.env) && StmtReady(m, p, d, u, fn, LoopHead(g), b.env)
             else if b.Broke? then InBlock(m, st, u, fn, g.names, c + 2, b.env)
             else AbruptPost(m, d, st, u, fn, g.names, g.loops, env.Keys, b))
    decreases fuel.depth, fuel.turns, 2, s, 0, 0
  {
    hide Inv, Compiled, Within, NamesFor, Run, Step, Extends, Fits, EnvIn, BuildStmt, LoopHead, LoopGuarded, LoopDone,
         Filled, InBlock, ExecStmt, FirstParamIn, SameFrame, Ready, EvalExpr, ScopedExpr, LoopPlaced, AlikeOn,
         AlikeAfter;
    LoopPlacedParts(p, live, env, s);
    var c := |g.blocks|;
    var k := LoopGuarded(Visible(p), g, s);
    LoopParts(Visible(p), g, s);
    LoopDoneIs(Visible(p), g, s);
    IterationParts(p, env, s, fuel);
    BlockReady(m, p, d, st, t, fn, g.names, k, c + 1, env);
    var a;
    n, a := PhaseSim(m, p, d, t, fn, k, c + 1, s.loopBody, c, live, env, fuel);
    b := Leave(a, env.Keys);
    LeaveAlike(live, live, env.Keys, s.loopBody, ExecStmt(p, env, s.loopBody, fuel), a);
    AlikeKeys(live, Leave(ExecStmt(p, env, s.loopBody, fuel), env.Keys), b);
    var u := Run(m, t, n);
    FrameOf(m, st, t, fn, g.names, c + 1, env);
    if HitLimit(u) { return; }
    if LeavesFunction(b) {
      AbruptOutside(m, d, t, u, fn, k.names, g.names, k.loops, g.loops, env.Keys, b);
      AbruptTrans(m, d, st, t, u, fn, g.names, g.names, g.loops, env.Keys, env.Keys, b);
    } else {
      assert Restrict(b.env, env.Keys) == b.env;
      var to := if b.Broke? then c + 2 else c;
      InBlockTrans(m, st, t, u, fn, g.names, to, b.env);
      if !b.Broke? {
        FirstParamKept(d, env, b.env, g.names);
        HeadCur(g);
        BlockReady(m, p, d, st, u, fn, g.names, LoopHead(g), c, b.env);
      }
    }
  }

  lemma HeadCur(g: Ctx)
    requires HasBlock(g)
    ensures LoopHead(g).(cur := |g.blocks|) == LoopHead(g)
  {
  }

  lemma FirstParamKept(d: FuncDecl, env: Env, env': Env, names: map<Name, Reg>)
    requires FirstParamIn(d, env, names) && env'.Keys == env.Keys
    ensures FirstParamIn(d, env', names)
  {
  }

  lemma EachPlaced(p: Program, live: set<Name>, env: Env, s: Stmt)
    requires s.Loop? && Placed(p, live, env, s)
    ensures LoopPlaced(p, Kept(live, Clobbers(s)), env, s)
  {
    hide GlobalsOf, Usable;
  }

  lemma LoopStmtSim(m: Module, p: Program, d: FuncDecl, st: IrState, fn: nat, g: Ctx, s: Stmt,
                    live: set<Name>, env: Env, fuel: Fuel)
    returns (n: nat, o': Outcome)
    requires s.Loop? && Compiled(m, p) && StmtReady(m, p, d, st, fn, g, env) && Placed(p, live, env, s)
    requires BuildStmt(Visible(p), g, s).Some? && Fits(m, fn, BuildStmt(Visible(p), g, s).value)
    ensures StmtSimulated(m, p, d, st, fn, g, s, live, env, fuel, n, o')
    decreases fuel.depth, fuel.turns, 2, s, 0, 2
  {
    hide Inv, Compiled, Within, NamesFor, Run, Step, Extends, EvalExpr, Fits, EnvIn, BuildStmt, LoopHead, LoopGuarded,
         LoopDone, Filled, InBlock, ExecLoop, ExecStmt, Agree, FirstParamIn, AbruptPost, ScopedExpr, GlobalsOf,
         Usable, LoopPlaced, AlikeOn;
    var c := |g.blocks|;
    LoopShape(p, env.Keys, g, s);
    LoopFits(m, p, fn, env.Keys, g, s);
    LoopParts(Visible(p), g, s);
    LoopIs(p, env, s, fuel);
    EnterLoop(m, st, fn, g, env);
    RunOne(m, st);
    var t := Run(m, st, 1);
    HeadCur(g);
    BlockReady(m, p, d, st, t, fn, g.names, LoopHead(g), c, env);
    var each := Kept(live, Clobbers(s));
    EachPlaced(p, live, env, s);
    var n2;
    n2, o' := LoopSim(m, p, d, t, fn, g, s, each, env, fuel);
    RunSplit(m, st, 1, n2);
    n := 1 + n2;
    FrameOf(m, st, t, fn, g.names, c, env);
    LoopKeys(p, each, env, s, fuel, o');
    ArmPost(m, p, d, st, t, Run(m, t, n2), fn, g, g.names, LoopDone(Visible(p), g, s).(loops := g.loops), c + 2,
            env.Keys, o');
  }

  lemma LoopIs(p: Program, env: Env, s: Stmt, fuel: Fuel)
    requires s.Loop?
    ensures ExecStmt(p, env, s, fuel) == ExecLoop(p, env, s, fuel)
  {
    hide ExecLoop;
  }

  lemma EnterLoop(m: Module, st: IrState, fn: nat, g: Ctx, env: Env)
    requires At(m, st, fn, g) && EnvIn(env, g.names, st.stack, st.top.base)
    requires Fits(m, fn, Emit(AddBlocks(g, 3), Jump(|g.blocks|)))
    ensures InBlock(m, st, Step(m, st), fn, g.names, |g.blocks|, env)
  {
    hide Within, EnvIn;
    var g0 := AddBlocks(g, 3);
    assert g0.blocks[g.cur] == g.blocks[g.cur];
    JumpStep(m, st, fn, g0, |g.blocks|, env);
  }

  // -- statement lists, statements, functions --

  lemma StmtsParts(p: Program, g: Ctx, ss: Stmts, env: Env, fuel: Fuel)
    requires ss.Seq? && HasBlock(g) && !Terminated(g) && BuildStmts(Visible(p), g, ss).Some?
    requires DeclaresAnew(p, env.Keys, ss.head)
    ensures var a := BuildStmt(Visible(p), g, ss.head);
            a.Some? && BuildStmts(Visible(p), g, ss) == BuildStmts(Visible(p), a.value, ss.tail)
    ensures var o := ExecStmt(p, env, ss.head, fuel);
            ExecStmts(p, env, ss, fuel) == if o.Normal? then ExecStmts(p, o.env, ss.tail, fuel) else o
  {
    hide BuildStmt, ExecStmt;
  }

  ghost predicate ListPlaced(p: Program, live: set<Name>, env: Env, ss: Stmts) {
    live <= env.Keys && DeclareAnew(p, env.Keys, ss) && ScopedStmts(p, env.Keys, live, ss)
  }

  lemma ListPlacedParts(p: Program, live: set<Name>, env: Env, ss: Stmts)
    requires ss.Seq? && ListPlaced(p, live, env, ss) && NoFunctions(p, env.Keys)
    ensures Placed(p, live, env, ss.head)
    ensures forall e: Env :: e.Keys == ScopeAfter(env.Keys, ss.head) ==>
              ListPlaced(p, LiveAfter(live, ss.head), e, ss.tail) && NoFunctions(p, e.Keys)
    ensures var after := LiveAfter(live, ss.head);
            Kept(live, ClobbersIn(ss)) <= Kept(after, ClobbersIn(ss.tail)) &&
            Kept(live, ClobbersIn(ss)) <= Kept(live, Clobbers(ss.head))
  {
    hide GlobalsOf, ScopedStmt, DeclaresAnew;
    LiveInScope(p, env.Keys, live, ss.head);
  }

  lemma {:induction false} StmtsSim(m: Module, p: Program, d: FuncDecl, st: IrState, fn: nat, g: Ctx, ss: Stmts,
                                    live: set<Name>, env: Env, fuel: Fuel)
    returns (n: nat, o': Outcome)
    requires Compiled(m, p) && StmtReady(m, p, d, st, fn, g, env) && ListPlaced(p, live, env, ss)
    requires BuildStmts(Visible(p), g, ss).Some? && Fits(m, fn, BuildStmts(Visible(p), g, ss).value)
    ensures var g' := BuildStmts(Visible(p), g, ss).value;
            StmtPost(m, d, st, Run(m, st, n), fn, g, g', env.Keys, o') && Spent(st, Run(m, st, n), o'.Timeout?, n, fuel) &&
            AlikeOn(Kept(live, ClobbersIn(ss)), ExecStmts(p, env, ss, fuel), o')
    decreases fuel.depth, fuel.turns, 2, ss
  {
    hide Inv, Compiled, Within, Run, Step, Extends, Fits, EnvIn, AbruptPost, NormalPost, BuildStmts, BuildStmt,
         ExecStmts, ExecStmt, SameFrame, Agree, NamesFor, ScopedStmt, DeclaresAnew, AlikeOn, AlikeAfter, ListPlaced,
         Kept, LiveAfter, Placed, ClobbersIn;
    if ss.Done? {
      n := NoStmtsSim(m, p, d, st, fn, g, ss, env, fuel);
      o' := Normal(env);
      AlikeSelf(Kept(live, ClobbersIn(ss)), o');
      return;
    }
    ReadyApart(m, p, st, fn, g, env);
    ListPlacedParts(p, live, env, ss);
    PlacedAnew(p, live, env, ss.head);
    StmtsParts(p, g, ss, env, fuel);
    var a := BuildStmt(Visible(p), g, ss.head).value;
    var g' := BuildStmts(Visible(p), g, ss).value;
    StmtKeepsShape(Visible(p), g, ss.head);
    StmtNames(p, env.Keys, g, ss.head);
    StmtsKeepShape(Visible(p), a, ss.tail);
    FitsEarlier(m, fn, a, g');
    var o1;
    n, o1 := StmtSim(m, p, d, st, fn, g, ss.head, live, env, fuel);
    AlikeKeeps(p, live, env, ss.head, fuel, o1);
    var o := ExecStmt(p, env, ss.head, fuel);
    var t := Run(m, st, n);
    if !o1.Normal? {
      o' := o1;
      AbruptAlike(live, Kept(live, ClobbersIn(ss)), ss.head, o, o1);
      return;
    }
    AfterAlike(live, ss.head, o, o1);
    if HitLimit(t) {
      o' := ExecStmts(p, env, ss, fuel);
      AlikeSelf(Kept(live, ClobbersIn(ss)), o');
      LimitStmtPost(m, d, st, t, fn, g, g', env.Keys, o');
      return;
    }
    NextReady(m, p, d, st, t, fn, g, a, env, o1.env);
    var n2;
    var after := LiveAfter(live, ss.head);
    n2, o' := StmtsSim(m, p, d, t, fn, a, ss.tail, after, o1.env, fuel);
    RunSplit(m, st, n, n2);
    n := n + n2;
    SameLoops(g, a);
    StmtTrans(m, d, st, t, Run(m, t, n2), fn, g, a, g', env.Keys, o1.env.Keys, o');
    SpentTrans(st, t, Run(m, t, n2), o'.Timeout?, n - n2, n2, fuel);
    TailAlike(p, after, Kept(live, ClobbersIn(ss)), o.env, o1.env, ss.tail, fuel, o');
  }

  lemma PlacedAnew(p: Program, live: set<Name>, env: Env, s: Stmt)
    requires Placed(p, live, env, s)
    ensures DeclaresAnew(p, env.Keys, s)
  {
    hide DeclaresAnew, ScopedStmt;
  }

  lemma AbruptAlike(live: set<Name>, kept: set<Name>, s: Stmt, o: Outcome, o': Outcome)
    requires AlikeAfter(live, s, o, o') && !o'.Normal? && kept <= Kept(live, Clobbers(s))
    ensures AlikeOn(kept, o, o') && !o.Normal?
  {
    hide Kept, LiveAfter;
    AlikeLess(Kept(live, Clobbers(s)), kept, o, o');
  }

  lemma AfterAlike(live: set<Name>, s: Stmt, o: Outcome, o': Outcome)
    requires AlikeAfter(live, s, o, o') && o'.Normal?
    ensures o.Normal? && Alike(LiveAfter(live, s), o.env, o'.env)
  {
    hide Kept, LiveAfter;
  }

  lemma TailAlike(p: Program, live: set<Name>, kept: set<Name>, env: Env, env': Env, ss: Stmts, fuel: Fuel, o': Outcome)
    requires Alike(live, env, env') && ListPlaced(p, live, env, ss) && NoFunctions(p, env.Keys)
    requires AlikeOn(Kept(live, ClobbersIn(ss)), ExecStmts(p, env', ss, fuel), o') && kept <= Kept(live, ClobbersIn(ss))
    ensures AlikeOn(kept, ExecStmts(p, env, ss, fuel), o')
  {
    hide ExecStmts, ScopedStmts, DeclareAnew, Kept;
    ListAlike(p, live, env, env', ss, fuel);
    AlikeTrans(Kept(live, ClobbersIn(ss)), ExecStmts(p, env, ss, fuel), ExecStmts(p, env', ss, fuel), o');
    AlikeLess(Kept(live, ClobbersIn(ss)), kept, ExecStmts(p, env, ss, fuel), o');
  }

  lemma SameLoops(g: Ctx, g': Ctx)
    requires Extends(g, g')
    ensures g'.loops == g.loops
  {
  }

  lemma NoStmtsSim(m: Module, p: Program, d: FuncDecl, st: IrState, fn: nat, g: Ctx, ss: Stmts, env: Env, fuel: Fuel)
    returns (n: nat)
    requires ss.Done? && StmtReady(m, p, d, st, fn, g, env)
    ensures BuildStmts(Visible(p), g, ss) == Some(g) && ExecStmts(p, env, ss, fuel) == Normal(env)
    ensures NormalPost(m, st, Run(m, st, n), fn, g, env) && Run(m, st, n).Running?
  {
    hide Inv, NamesFor;
    n := 0;
  }

  lemma LimitStmtPost(m: Module, d: FuncDecl, st: IrState, t: IrState, fn: nat, g: Ctx, g': Ctx, dom: set<Name>,
                      o: Outcome)
    requires st.Running? && HitLimit(t)
    ensures StmtPost(m, d, st, t, fn, g, g', dom, o)
  {
    hide InBlock, ReturnedTo, SameFrame, At, EnvIn;
  }

  lemma NextReady(m: Module, p: Program, d: FuncDecl, st: IrState, t: IrState, fn: nat, g: Ctx, a: Ctx, env: Env,
                  env': Env)
    requires StmtReady(m, p, d, st, fn, g, env) && Inv(a) && NormalPost(m, st, t, fn, a, env') && !HitLimit(t)
    requires env.Keys <= env'.Keys && NamesFor(p, env'.Keys, a.names) && Agree(env.Keys, g.names, a.names)
    ensures StmtReady(m, p, d, t, fn, a, env') && t.Running? && SameFrame(st, t, 0)
  {
    hide Inv;
  }

  lemma BlockSim(m: Module, p: Program, d: FuncDecl, st: IrState, fn: nat, g: Ctx, s: Stmt,
                 live: set<Name>, env: Env, fuel: Fuel)
    returns (n: nat, o': Outcome)
    requires s.Block? && Compiled(m, p) && StmtReady(m, p, d, st, fn, g, env) && Placed(p, live, env, s)
    requires BuildStmt(Visible(p), g, s).Some? && Fits(m, fn, BuildStmt(Visible(p), g, s).value)
    ensures StmtSimulated(m, p, d, st, fn, g, s, live, env, fuel, n, o')
    decreases fuel.depth, fuel.turns, 2, s, 0
  {
    hide Inv, Compiled, Within, NamesFor, Run, Step, Extends, Fits, AbruptPost, BuildStmts, ExecStmts, SameFrame,
         Agree, AlikeOn, DeclareAnew, ScopedStmts, ClobbersIn, Kept;
    var g' := BuildStmts(Visible(p), g, s.body).value;
    var o;
    n, o := StmtsSim(m, p, d, st, fn, g, s.body, live, env, fuel);
    o' := Leave(o, env.Keys);
    AlikeLeave(Kept(live, ClobbersIn(s.body)), env.Keys, ExecStmts(p, env, s.body, fuel), o);
    AlikeKeys(Kept(live, ClobbersIn(s.body)), ExecStmts(p, env, s.body, fuel), o);
    var t := Run(m, st, n);
    ExecStmtsKeepNames(p, env, s.body, fuel);
    if o.Normal? {
      if !HitLimit(t) { EnvRestrict(o.env, env.Keys, g'.names, t.stack, t.top.base); }
    } else {
      AbruptLeave(m, d, st, t, fn, g.names, g.loops, env.Keys, o);
    }
  }

  lemma EnvRestrict(env: Env, dom: set<Name>, names: map<Name, Reg>, stack: seq<Value>, base: nat)
    requires EnvIn(env, names, stack, base)
    ensures EnvIn(Restrict(env, dom), names, stack, base)
  {
  }

  lemma ReturnNothingSim(m: Module, p: Program, d: FuncDecl, st: IrState, fn: nat, g: Ctx, s: Stmt,
                         live: set<Name>, env: Env, fuel: Fuel)
    returns (n: nat, o': Outcome)
    requires s.Return? && s.result.None? && StmtReady(m, p, d, st, fn, g, env)
    requires BuildStmt(Visible(p), g, s).Some? && Fits(m, fn, BuildStmt(Visible(p), g, s).value)
    ensures StmtSimulated(m, p, d, st, fn, g, s, live, env, fuel, n, o')
  {
    hide Inv, Within, NamesFor, Run, Step, Fits, EnvIn, ReturnedTo, ExitValue;
    ExitSim(m, p, d, st, fn, g, env);
    o' := Exited(env);
    SameAfter(live, s, o');
    n := 1;
  }

  lemma {:induction false} StmtSim(m: Module, p: Program, d: FuncDecl, st: IrState, fn: nat, g: Ctx, s: Stmt,
                                   live: set<Name>, env: Env, fuel: Fuel)
    returns (n: nat, o': Outcome)
    requires Compiled(m, p) && StmtReady(m, p, d, st, fn, g, env) && Placed(p, live, env, s)
    requires BuildStmt(Visible(p), g, s).Some? && Fits(m, fn, BuildStmt(Visible(p), g, s).value)
    ensures StmtSimulated(m, p, d, st, fn, g, s, live, env, fuel, n, o')
    decreases fuel.depth, fuel.turns, 2, s, 1
  {
    hide Inv, Compiled, Within, NamesFor, Run, Step, Extends, Fits, BuildStmt, Placed, StmtReady, StmtSimulated;
    match s
    case ExprStmt(_) => n, o' := ExprStmtSim(m, p, d, st, fn, g, s, live, env, fuel);
    case VarDecl(_, _) => n, o' := VarDeclSim(m, p, d, st, fn, g, s, live, env, fuel);
    case Assign(_, _) => n, o' := AssignSim(m, p, d, st, fn, g, s, live, env, fuel);
    case CompoundAssign(_, _, _) => n, o' := CompoundSim(m, p, d, st, fn, g, s, live, env, fuel);
    case Block(_) => n, o' := BlockSim(m, p, d, st, fn, g, s, live, env, fuel);
    case If(_, _, _) => n, o' := IfSim(m, p, d, st, fn, g, s, live, env, fuel);
    case Loop(_, _) => n, o' := LoopStmtSim(m, p, d, st, fn, g, s, live, env, fuel);
    case Break => n, o' := LeaveLoopSim(m, p, d, st, fn, g, s, live, env, fuel);
    case Continue => n, o' := LeaveLoopSim(m, p, d, st, fn, g, s, live, env, fuel);
    case Return(e) =>
      if e.Some? { n, o' := ReturnSim(m, p, d, st, fn, g, s, live, env, fuel); }
      else { n, o' := ReturnNothingSim(m, p, d, st, fn, g, s, live, env, fuel); }
  }

  /** The arguments are the parameters' initial values. */
  lemma ParamsIn(params: seq<Name>, vs: seq<Value>, t: IrState)
    requires |params| == |vs| && Distinct(params) && t.Running? && InSlots(t, 0, vs)
    ensures EnvIn(BindParams(params, vs), BindRegs(params), t.stack, t.top.base)
    ensures forall k | 0 <= k < |params| :: params[k] in BindRegs(params) && BindRegs(params)[params[k]] == k
  {
    hide BindParams, BindRegs;
    forall x <- BindParams(params, vs)
      ensures var k := BindRegs(params)[x];
              t.top.base + k < |t.stack| && t.stack[t.top.base + k] == BindParams(params, vs)[x]
    {
      var k := BindRegs(params)[x];
      ParamValue(params, vs, k);
      assert t.top.base + 0 + k < |t.stack| && t.stack[t.top.base + 0 + k] == vs[k];
    }
  }

  /** Parameters have registers of their own, and no function has a parameter's name. */
  lemma StartNames(p: Program, d: FuncDecl)
    requires ScopedFunc(p, d)
    ensures NamesFor(p, Params(d), BindRegs(d.params))
  {
    hide ScopedStmt, DeclaresAnew, GlobalsOf, GivesValue, Clobbers;
  }

  lemma StartScoped(m: Module, p: Program, id: nat)
    requires Compiled(m, p) && id < |p.funcs|
    ensures ScopedFunc(p, p.funcs[id])
  {
    hide ScopedFunc, BuildFunc;
    assert p.funcs[id] in p.funcs;
  }

  lemma StartBody(p: Program, d: FuncDecl)
    requires ScopedFunc(p, d)
    ensures Distinct(d.params) && DeclaresAnew(p, Params(d), d.body) && ScopedStmt(p, Params(d), Params(d), d.body)
  {
    hide ScopedStmt, DeclaresAnew, Distinct, GivesValue, Clobbers;
  }

  lemma StartReady(m: Module, p: Program, st: IrState, id: nat, vs: seq<Value>)
    requires Compiled(m, p) && Entered(m, p, st, id, vs)
    ensures var d := p.funcs[id];
            var env := BindParams(d.params, vs);
            StmtReady(m, p, d, st, id, StartFunc(d), env) && Placed(p, env.Keys, env, d.body)
  {
    hide Inv, Compiled, ScopedFunc, ScopedStmt, DeclaresAnew, NamesFor, EnvIn, Distinct, BindParams, BindRegs;
    var d := p.funcs[id];
    StartScoped(m, p, id);
    StartBody(p, d);
    StartNames(p, d);
    StartShape(d);
    ParamsIn(d.params, vs, st);
    var env := BindParams(d.params, vs);
    assert env.Keys == Params(d);
    if d.params != [] { assert d.params[0] in d.params; }
  }

  lemma FuncParts(m: Module, p: Program, id: nat)
    requires Compiled(m, p) && id < |p.funcs|
    ensures var d := p.funcs[id];
            var r := BuildStmt(Visible(p), StartFunc(d), d.body);
            r.Some? && Fits(m, id, CloseWith(r.value, Ir.Return(None)))
  {
    hide ScopedProgram, BuildStmt;
    assert BuildFunc(Visible(p), p.funcs[id]) == Some(m.funcs[id]);
  }

  lemma CallIs(p: Program, id: nat, vs: seq<Value>, fuel: Fuel)
    requires id < |p.funcs| && |p.funcs[id].params| == |vs|
    ensures var d := p.funcs[id];
            CallFunction(p, id, vs, fuel) ==
            if fuel.depth == 0 then OutOfFuel
            else Finish(d, ExecStmt(p, BindParams(d.params, vs), d.body, InCall(fuel)))
  {
    hide ExecStmt, Finish;
  }

  /** The body of an activation has run: `n` steps, with outcome `o'`. */
  ghost predicate BodySimulated(m: Module, p: Program, st: IrState, id: nat, vs: seq<Value>, fuel: Fuel, n: nat,
                                o': Outcome)
    requires id < |p.funcs| && |p.funcs[id].params| == |vs| && st.Running? && fuel.depth > 0
  {
    var d := p.funcs[id];
    var r := BuildStmt(Visible(p), StartFunc(d), d.body);
    var t := Run(m, st, n);
    && r.Some? && Spent(st, t, o'.Timeout?, n, InCall(fuel))
    && (o'.Normal? ==> HitLimit(t) || BodyLeft(m, p, d, st, t, id, r.value, o'.env))
    && (!o'.Normal? ==> AbruptPost(m, d, st, t, id, StartFunc(d).names, [], Params(d), o'))
    && (!o'.Broke? && !o'.Continued? ==> Finish(d, o') == CallFunction(p, id, vs, fuel))
    && (GivesValue(d) ==> !o'.Normal? && !o'.Exited?)
  }

  ghost predicate BodyLeft(m: Module, p: Program, d: FuncDecl, st: IrState, t: IrState, id: nat, a: Ctx, env: Env) {
    && StmtReady(m, p, d, t, id, a, env) && st.Running? && SameFrame(st, t, 0) && Fits(m, id, Emit(a, Ir.Return(None)))
  }

  lemma BodySim(m: Module, p: Program, st: IrState, id: nat, vs: seq<Value>, fuel: Fuel)
    returns (n: nat, o': Outcome)
    requires Compiled(m, p) && Entered(m, p, st, id, vs) && fuel.depth > 0
    ensures BodySimulated(m, p, st, id, vs, fuel, n, o')
    decreases fuel.depth, fuel.turns, 0, 0, 0
  {
    hide Inv, Compiled, Within, NamesFor, Run, Step, Extends, Fits, BuildStmt, ScopedStmt, ExecStmt, CallFunction,
         EnvIn, BindParams, InBlock, ReturnedTo, SameFrame, BuildFunc, DeclaresAnew, AlikeAfter, GivesValue, Placed,
         Finish, AbruptPost, ScopedFunc;
    CallIs(p, id, vs, fuel);
    var d := p.funcs[id];
    var env := BindParams(d.params, vs);
    var g := StartFunc(d);
    StartReady(m, p, st, id, vs);
    PlacedAnew(p, env.Keys, env, d.body);
    FuncParts(m, p, id);
    var a := BuildStmt(Visible(p), g, d.body).value;
    BodyFits(m, p, id, env.Keys);
    n, o' := StmtSim(m, p, d, st, id, g, d.body, env.Keys, env, InCall(fuel));
    var t := Run(m, st, n);
    AlikeKeeps(p, env.Keys, env, d.body, InCall(fuel), o');
    StartScoped(m, p, id);
    FinishAlike(p, d, env, InCall(fuel), o');
    if o'.Normal? && !HitLimit(t) { NextReady(m, p, d, st, t, id, g, a, env, o'.env); }
  }

  /** The fuel has paid for the call itself. */
  ghost predicate FuncSpent(st: IrState, t: IrState, timeout: bool, n: nat, fuel: Fuel) {
    && (timeout ==> n + 1 >= Least(fuel) || HitLimit(t))
    && (HitLimit(t) ==> st.Running? && |st.callers| + fuel.depth >= 32)
  }

  /** A whole activation, from its entry to its return. */
  lemma {:induction false} FuncSim(m: Module, p: Program, st: IrState, id: nat, vs: seq<Value>, fuel: Fuel)
    returns (n: nat)
    requires Compiled(m, p) && Entered(m, p, st, id, vs)
    ensures var res := CallFunction(p, id, vs, fuel);
            FuncPost(st, Run(m, st, n), res) && FuncSpent(st, Run(m, st, n), res.OutOfFuel?, n, fuel) &&
            (res.UnspecifiedResult? ==> HitLimit(Run(m, st, n)) || !GivesValue(p.funcs[id]))
    decreases fuel.depth, fuel.turns, 0, 0
  {
    hide Inv, Compiled, Within, Run, Step, Extends, Fits, BuildStmt, ExecStmt, CallFunction, InBlock, ReturnedTo,
         SameFrame, BuildFunc, GivesValue, Ready, InSlots;
    if fuel.depth == 0 {
      CallIs(p, id, vs, fuel);
      RunOne(m, st);
      return 0;
    }
    var d := p.funcs[id];
    var o';
    n, o' := BodySim(m, p, st, id, vs, fuel);
    var t := Run(m, st, n);
    if HitLimit(t) { return; }
    if o'.Normal? {
      ExitSim(m, p, d, t, id, BuildStmt(Visible(p), StartFunc(d), d.body).value, o'.env);
      RunSplit(m, st, n, 1);
      n := n + 1;
      ExitPost(d, st, t, Run(m, st, n), o');
    } else if o'.Exited? {
      SelfFrame(st);
      ExitPost(d, st, st, t, o');
    }
  }

  /** Variables that are not mentioned any more do not decide what an activation hands back. */
  lemma FinishAlike(p: Program, d: FuncDecl, env: Env, fuel: Fuel, o': Outcome)
    requires ScopedFunc(p, d) && env.Keys == Params(d) && AlikeAfter(env.Keys, d.body, ExecStmt(p, env, d.body, fuel), o')
    ensures !o'.Broke? && !o'.Continued? ==> Finish(d, o') == Finish(d, ExecStmt(p, env, d.body, fuel))
    ensures GivesValue(d) ==> !o'.Normal? && !o'.Exited?
  {
    hide ExecStmt, ScopedStmt, DeclaresAnew, Returns, Exits, GlobalsOf, Clobbers;
    var o := ExecStmt(p, env, d.body, fuel);
    if GivesValue(d) {
      ReturnsSound(p, env, d.body, fuel);
      NoExit(p, env, d.body, fuel);
    } else if d.params != [] {
      assert d.params[0] in env.Keys;
    }
  }

  lemma SelfFrame(st: IrState)
    requires st.Running?
    ensures SameFrame(st, st, 0)
  {
  }

  lemma BodyFits(m: Module, p: Program, id: nat, dom: set<Name>)
    requires Compiled(m, p) && id < |p.funcs|
    requires var d := p.funcs[id];
             Inv(StartFunc(d)) && NamesFor(p, dom, StartFunc(d).names) && DeclaresAnew(p, dom, d.body) &&
             BuildStmt(Visible(p), StartFunc(d), d.body).Some?
    ensures var d := p.funcs[id];
            var a := BuildStmt(Visible(p), StartFunc(d), d.body).value;
            Inv(a) && Fits(m, id, a) && (!Terminated(a) ==> Fits(m, id, Emit(a, Ir.Return(None)))) &&
            NamesFor(p, ScopeAfter(dom, d.body), a.names) && Agree(dom, StartFunc(d).names, a.names)
  {
    hide CodeOk, Constants, BuildStmt, Compiled, DeclaresAnew, NamesFor, Within;
    FuncParts(m, p, id);
    var d := p.funcs[id];
    var g := StartFunc(d);
    StmtKeepsShape(Visible(p), g, d.body);
    StmtNames(p, dom, g, d.body);
    var a := BuildStmt(Visible(p), g, d.body).value;
    if !Terminated(a) {
      ReturnShape(a, None);
      FitsEarlier(m, id, a, Emit(a, Ir.Return(None)));
    }
  }

  lemma ExitPost(d: FuncDecl, st: IrState, st1: IrState, t: IrState, o: Outcome)
    requires st.Running? && st1.Running? && SameFrame(st, st1, 0) && (o.Normal? || o.Exited?)
    requires exists v :: ReturnedTo(st1, t, v) && ExitValue(d, o.env, v)
    ensures FuncPost(st, t, Finish(d, o))
  {
    var v :| ReturnedTo(st1, t, v) && ExitValue(d, o.env, v);
    ReturnTrans(st, st1, t, v);
  }
}
