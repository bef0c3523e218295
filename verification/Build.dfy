/**
 What the IR builder computes, as functions on a build context that keeps the contents
 of every basic block.  The builder class in IrBuilder works on flat tables with spans,
 lazily placed span starts and back-patched `break` jumps, and is proved to compute these
 functions.
 */
module Build {
  import opened Values
  import opened Source
  import opened Ir

  /** `loops` holds the condition block of every open loop, innermost last; its body and
      exit blocks are the next two ids. */
  datatype Ctx = Ctx(blocks: Code, cur: BlockId, nv: nat, names: map<Name, Reg>, loops: seq<BlockId>)

  ghost predicate HasBlock(g: Ctx) {
    g.cur < |g.blocks|
  }

  function Emit(g: Ctx, i: Inst): (r: Ctx)
    requires HasBlock(g)
  {
    g.(blocks := g.blocks[g.cur := g.blocks[g.cur] + [i]])
  }

  function Fresh(g: Ctx): Ctx {
    g.(nv := g.nv + 1)
  }

  predicate EndsInTerminator(b: seq<Inst>) {
    b != [] && IsTerminator(b[|b| - 1])
  }

  predicate Terminated(g: Ctx)
    requires HasBlock(g)
  {
    EndsInTerminator(g.blocks[g.cur])
  }

  datatype BuiltExpr = NoExpr | BuiltExpr(g: Ctx, r: Reg)

  datatype BuiltArgs = NoArgs | BuiltArgs(g: Ctx, rs: seq<Reg>)

  /** Fresh destination, one instruction. */
  function Define(g: Ctx, i: Inst): BuiltExpr
    requires HasBlock(g)
  {
    BuiltExpr(Emit(Fresh(g), i), g.nv)
  }

  ghost predicate SameShape(g: Ctx, g': Ctx) {
    && |g'.blocks| == |g.blocks| && g'.cur == g.cur
    && g'.names == g.names && g'.loops == g.loops
  }

  /** `visible` is the set of names the unit can load as globals. */
  function BuildExpr(visible: set<Name>, g: Ctx, e: Expr): (r: BuiltExpr)
    requires HasBlock(g)
    ensures r.BuiltExpr? ==> SameShape(g, r.g)
    decreases e
  {
    match e
    case IntLit(i) => Define(g, Constant(g.nv, Int(i)))
    case BoolLit(b) => Define(g, Constant(g.nv, Bool(b)))
    case Ident(x) =>
      if x in g.names then BuiltExpr(g, g.names[x])
      else if x in visible then Define(g, LoadGlobal(g.nv, x))
      else NoExpr
    case Binary(op, left, right) =>
      var l := BuildExpr(visible, g, left);
      if l.NoExpr? then NoExpr else
      var r := BuildExpr(visible, l.g, right);
      if r.NoExpr? then NoExpr else
      Define(r.g, Bin(op, r.g.nv, l.r, r.r))
    case Unary(op, operand) =>
      var a := BuildExpr(visible, g, operand);
      if a.NoExpr? then NoExpr else
      Define(a.g, UnaryInst(op, a.g.nv, a.r))
    case Call(callee, args) =>
      var c := BuildExpr(visible, g, callee);
      if c.NoExpr? then NoExpr else
      var a := BuildArgs(visible, c.g, args);
      if a.NoArgs? then NoExpr else
      BuildCall(a.g, c.r, a.rs)
  }

  function UnaryInst(op: UnOp, dst: Reg, src: Reg): Inst {
    match op
    case Plus => Move(dst, src)
    case Minus => Neg(dst, src)
    case Bang => LogicNot(dst, src)
  }

  function BuildArgs(visible: set<Name>, g: Ctx, args: Args): (r: BuiltArgs)
    requires HasBlock(g)
    ensures r.BuiltArgs? ==> SameShape(g, r.g) && |r.rs| == ArgCount(args)
    decreases args
  {
    match args
    case NoArgs => BuiltArgs(g, [])
    case Arg(first, rest) =>
      var f := BuildExpr(visible, g, first);
      if f.NoExpr? then BuiltArgs.NoArgs else
      var r := BuildArgs(visible, f.g, rest);
      if r.NoArgs? then BuiltArgs.NoArgs else
      BuiltArgs(r.g, [f.r] + r.rs)
  }

  /** Copies the argument values to consecutive fresh slots and calls with that window. */
  function BuildCall(g: Ctx, callee: Reg, args: seq<Reg>): (r: BuiltExpr)
    requires HasBlock(g)
    ensures r.BuiltExpr? && SameShape(g, r.g)
  {
    var start := g.nv;
    var g1 := EmitMoves(g.(nv := g.nv + |args|), start, args);
    Define(g1, Ir.Call(g1.nv, callee, if args == [] then None else Some(start), |args|))
  }

  function EmitMoves(g: Ctx, start: Reg, args: seq<Reg>): (r: Ctx)
    requires HasBlock(g)
    ensures SameShape(g, r) && r.nv == g.nv
  {
    if args == [] then g
    else
      var n := |args| - 1;
      Emit(EmitMoves(g, start, args[..n]), Move(start + n, args[n]))
  }

  // ----- statements -----

  /** Appends `n` empty blocks; the first one has id `|g.blocks|`. */
  function AddBlocks(g: Ctx, n: nat): (r: Ctx)
    ensures |r.blocks| == |g.blocks| + n
    ensures r.blocks[..|g.blocks|] == g.blocks && forall b | |g.blocks| <= b < |r.blocks| :: r.blocks[b] == []
  {
    g.(blocks := g.blocks + seq(n, _ => []))
  }

  function CloseWith(g: Ctx, i: Inst): Ctx
    requires HasBlock(g)
  {
    if Terminated(g) then g else Emit(g, i)
  }

  predicate Compound(op: BinOp) {
    op in {Add, Sub, Mul, Div, Mod}
  }

  function BuildStmt(visible: set<Name>, g: Ctx, s: Stmt): (r: Option<Ctx>)
    requires HasBlock(g)
    ensures r.Some? ==> HasBlock(r.value) && |g.blocks| <= |r.value.blocks|
    decreases s, 1
  {
    match s
    case ExprStmt(e) =>
      var r := BuildExpr(visible, g, e);
      if r.NoExpr? then None else Some(r.g)
    case VarDecl(x, e) =>
      var dst := g.nv;
      var r := BuildExpr(visible, Fresh(g).(names := g.names[x := dst]), e);
      if r.NoExpr? then None else Some(Emit(r.g, Move(dst, r.r)))
    case Assign(x, e) =>
      if x !in g.names then None else
      var r := BuildExpr(visible, g, e);
      if r.NoExpr? then None else Some(Emit(r.g, Move(g.names[x], r.r)))
    case CompoundAssign(x, op, e) =>
      if x !in g.names then None else
      var r := BuildExpr(visible, g, e);
      if r.NoExpr? || !Compound(op) then None else
      var t := Define(r.g, Bin(op, r.g.nv, g.names[x], r.r));
      Some(Emit(t.g, Move(g.names[x], t.r)))
    case Block(body) => BuildStmts(visible, g, body)
    case If(c, _, _) =>
      var r := BuildExpr(visible, g, c);
      if r.NoExpr? then None else
      BuildBranches(visible, r.g, r.r, s)
    case Loop(guard, body) =>
      var c := |g.blocks|;
      var g1 := Emit(AddBlocks(g, 3), Jump(c)).(cur := c, loops := g.loops + [c]);
      var r := BuildGuard(visible, g1, guard, c);
      if r.None? then None else
      var b := BuildStmt(visible, r.value.(cur := c + 1), body);
      if b.None? then None else
      Some(CloseWith(b.value, Jump(c)).(cur := c + 2, loops := g.loops))
    case Break =>
      if g.loops == [] then None else Some(Emit(g, Jump(g.loops[|g.loops| - 1] + 2)))
    case Continue =>
      if g.loops == [] then None else Some(Emit(g, Jump(g.loops[|g.loops| - 1])))
    case Return(e) =>
      if e.None? then Some(Emit(g, Ir.Return(None))) else
      var r := BuildExpr(visible, g, e.value);
      if r.NoExpr? then None else Some(Emit(r.g, Ir.Return(Some(r.r))))
  }

  /** The end of a loop's condition block: without a guard it goes straight to the body. */
  function BuildGuard(visible: set<Name>, g: Ctx, guard: Option<Expr>, c: BlockId): (r: Option<Ctx>)
    requires HasBlock(g)
    ensures r.Some? ==> SameShape(g, r.value)
  {
    if guard.None? then Some(Emit(g, Jump(c + 1))) else
    var r := BuildExpr(visible, g, guard.value);
    if r.NoExpr? then None else Some(Emit(r.g, Branch(r.r, c + 1, c + 2)))
  }

  /** Block ids: `then` is the first new block, `join` the second, `else` the third. */
  function BuildBranches(visible: set<Name>, g: Ctx, cond: Reg, s: Stmt): (r: Option<Ctx>)
    requires HasBlock(g) && s.If?
    ensures r.Some? ==> HasBlock(r.value) && |g.blocks| <= |r.value.blocks|
    decreases s, 0
  {
    var els := s.els;
    var t := |g.blocks|;
    var join := t + 1;
    var g1 := Emit(AddBlocks(g, if els.Some? then 3 else 2), Branch(cond, t, if els.Some? then t + 2 else join));
    var a := BuildStmt(visible, g1.(cur := t), s.thn);
    if a.None? then None else
    var g2 := CloseWith(a.value, Jump(join));
    if els.None? then Some(g2.(cur := join)) else
    var b := BuildStmt(visible, g2.(cur := t + 2), els.value);
    if b.None? then None else
    Some(CloseWith(b.value, Jump(join)).(cur := join))
  }

  /** A statement list stops as soon as the current block is closed. */
  function BuildStmts(visible: set<Name>, g: Ctx, ss: Stmts): (r: Option<Ctx>)
    requires HasBlock(g)
    ensures r.Some? ==> HasBlock(r.value) && |g.blocks| <= |r.value.blocks|
    decreases ss
  {
    match ss
    case Done => Some(g)
    case Seq(s, rest) =>
      if Terminated(g) then Some(g) else
      var r := BuildStmt(visible, g, s);
      if r.None? then None else BuildStmts(visible, r.value, rest)
  }

  // ----- functions -----

  function BindRegs(params: seq<Name>): (m: map<Name, Reg>)
    ensures forall x :: x in m <==> x in params
    ensures forall x <- m :: m[x] < |params| && params[m[x]] == x
  {
    if params == [] then map[]
    else
      var n := |params| - 1;
      assert params == params[..n] + [params[n]];
      BindRegs(params[..n])[params[n] := n]
  }

  function StartFunc(d: FuncDecl): Ctx {
    Ctx([[]], 0, |d.params|, BindRegs(d.params), [])
  }

  function BuildFunc(visible: set<Name>, d: FuncDecl): Option<Func> {
    var r := BuildStmt(visible, StartFunc(d), d.body);
    if r.None? then None else
    var g := CloseWith(r.value, Ir.Return(None));
    Some(Func(|d.params|, g.nv, g.blocks))
  }

  /** All functions of a unit, in order; None when one of them cannot be built. */
  function BuildFuncs(visible: set<Name>, ds: seq<FuncDecl>): (r: Option<seq<Func>>)
    ensures r.Some? ==> |r.value| == |ds|
    ensures r.Some? ==> forall i | 0 <= i < |ds| :: BuildFunc(visible, ds[i]) == Some(r.value[i])
    ensures r.None? ==> exists d <- ds :: BuildFunc(visible, d).None?
  {
    if ds == [] then Some([])
    else
      var n := |ds| - 1;
      assert ds == ds[..n] + [ds[n]];
      var f := BuildFunc(visible, ds[n]);
      var r := BuildFuncs(visible, ds[..n]);
      if f.None? || r.None? then None else Some(r.value + [f.value])
  }
}
