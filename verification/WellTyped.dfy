/**
 The typing rules of the language, written out, and the checker's completeness: it accepts a
 function exactly if the function is well typed.
 */
module WellTyped {
  import opened Values
  import opened Source
  import T = TypeCheck

  type Type = T.Type

  /** The names of each open scope, innermost last. */
  type Context = seq<map<Name, T.Symbol>>

  /** The innermost declaration of a name. */
  ghost predicate Sees(G: Context, x: Name, s: T.Symbol) {
    exists i :: 0 <= i < |G| && DeclaredIn(G, i, x) && G[i][x] == s
  }

  ghost predicate DeclaredIn(G: Context, i: nat, x: Name)
    requires i < |G|
  {
    x in G[i] && forall j | i < j < |G| :: x !in G[j]
  }

  ghost predicate IsLocal(G: Context, x: Name) {
    exists i :: 0 <= i < |G| && x in G[i]
  }

  /** Values on the heap have one owner. */
  predicate OnHeap(t: Type) {
    match t
    case String => true
    case Array => true
    case Map => true
    case Object(_) => true
    case _ => false
  }

  /** A value of this type may go where that type is wanted.  Anything goes where nothing is known
      to be wanted; a value of unknown type goes everywhere, but for the strict checker. */
  predicate Fits(mode: T.Mode, t: Type, want: Type) {
    want == T.Unknown || t == want || (t == T.Unknown && mode != T.Strict)
  }

  // ----- expressions -----

  predicate Numeric(t: Type) {
    t == T.Integer || t == T.Float
  }

  /** Operands of types `a` and `b` give type `t`. */
  predicate BinaryRule(mode: T.Mode, op: BinOp, a: Type, b: Type, t: Type) {
    match op
    case And => Fits(T.Lax, a, T.Boolean) && Fits(T.Lax, b, T.Boolean) && t == T.Boolean
    case Or => Fits(T.Lax, a, T.Boolean) && Fits(T.Lax, b, T.Boolean) && t == T.Boolean
    case _ =>
      if a == T.Unknown || b == T.Unknown then
        mode != T.Strict && t == if op == Eq || op == Ge then T.Boolean else T.Unknown
      else
        match op
        case Add => a == b == t && Numeric(t)
        case Sub => a == b == t && Numeric(t)
        case Mul => a == b == t && Numeric(t)
        case Div => a == b == t && Numeric(t)
        case Mod => a == b == t == T.Integer
        case Eq => a == b && (mode == T.Lax || a == T.Integer) && t == T.Boolean
        case Ne => a == b && (mode == T.Lax || a == T.Integer) && t == T.Boolean
        case _ => a == b && Numeric(a) && t == T.Boolean
  }

  predicate UnaryRule(mode: T.Mode, op: UnOp, a: Type, t: Type) {
    match op
    case Plus => t == T.Unknown
    case Minus => t == a && (Numeric(a) || (a == T.Unknown && mode != T.Strict))
    case Bang => t == T.Boolean && (a == T.Boolean || a == T.Integer || a == T.Unknown)
  }

  /** The expression has type `t`. */
  ghost predicate HasType(mode: T.Mode, g: T.Globals, G: Context, e: Expr, t: Type)
    decreases e
  {
    match e
    case IntLit(_) => t == T.Integer
    case BoolLit(_) => t == T.Boolean
    case Ident(x) =>
      if IsLocal(G, x) then exists s :: Sees(G, x, s) && !s.moved && s.t == t
      else x in g.names && g.names[x] == t
    case Binary(op, l, r) =>
      exists a, b :: HasType(mode, g, G, l, a) && HasType(mode, g, G, r, b) && BinaryRule(mode, op, a, b, t)
    case Unary(op, d) => exists a :: HasType(mode, g, G, d, a) && UnaryRule(mode, op, a, t)
    case Call(f, args) => exists k :: HasType(mode, g, G, f, k) && CallRule(mode, g, G, k, args, t)
  }

  /** At the arguments of a callee of unknown type nobody looks. */
  ghost predicate CallRule(mode: T.Mode, g: T.Globals, G: Context, k: Type, args: Args, t: Type)
    decreases args, 1
  {
    match k
    case Unknown => mode != T.Strict && t == T.Unknown
    case Function(sig) =>
      sig in g.sigs && ArgCount(args) == |g.sigs[sig].params| && HaveTypes(mode, g, G, args, g.sigs[sig].params) &&
      t == g.sigs[sig].result
    case _ => false
  }

  ghost predicate HaveTypes(mode: T.Mode, g: T.Globals, G: Context, args: Args, ts: seq<Type>)
    decreases args, 0
  {
    match args
    case NoArgs => true
    case Arg(e, rest) =>
      ts != [] && (exists a :: HasType(mode, g, G, e, a) && Fits(mode, a, ts[0])) && HaveTypes(mode, g, G, rest, ts[1..])
  }

  // ----- statements -----

  /** A condition is a truth value, as far as is known. */
  ghost predicate IsCondition(mode: T.Mode, g: T.Globals, G: Context, e: Expr) {
    exists b :: HasType(mode, g, G, e, b) && Fits(T.Lax, b, T.Boolean)
  }

  /** A value of type `a` may be combined with a name of type `t` in place. */
  predicate Adds(mode: T.Mode, t: Type, a: Type) {
    && (t == T.Unknown || a == T.Unknown || t == a)
    && (mode != T.Lax ==> t == T.Unknown || t == T.Integer)
    && (mode == T.Strict ==> t != T.Unknown && a != T.Unknown)
  }

  /** Once its value has been given away, a name of the innermost scope is no longer usable. */
  function Given(G: Context, e: Expr): (H: Context)
    requires G != []
    ensures |H| == |G|
  {
    var n := |G| - 1;
    if e.Ident? && e.x in G[n] && G[n][e.x].owned && OnHeap(G[n][e.x].t) then
      G[n := G[n][e.x := T.Symbol(G[n][e.x].t, true, true)]]
    else G
  }

  /** The statement is well typed where `G` is declared; `H` is declared after it. */
  ghost predicate Typed(mode: T.Mode, g: T.Globals, result: Type, inLoop: bool, G: Context, s: Stmt, H: Context)
    requires G != []
    decreases s
  {
    match s
    case ExprStmt(e) => H == G && exists t :: HasType(mode, g, G, e, t)
    case VarDecl(x, e) =>
      exists t :: HasType(mode, g, G, e, t) && t != T.Unknown && x !in G[|G| - 1] && H == Bound(Given(G, e), x, t)
    case Assign(x, e) =>
      H == Given(G, e) && exists t, a :: HasType(mode, g, G, Ident(x), t) && HasType(mode, g, G, e, a) && Fits(mode, a, t)
    case CompoundAssign(x, _, e) =>
      H == G && exists t, a :: HasType(mode, g, G, Ident(x), t) && HasType(mode, g, G, e, a) && Adds(mode, t, a)
    case Block(body) => exists I :: ListTyped(mode, g, result, inLoop, G + [map[]], body, I) && H == I[..|G|]
    case If(c, t, els) =>
      IsCondition(mode, g, G, c) &&
      if els.None? then Typed(mode, g, result, inLoop, G, t, H)
      else exists I :: I != [] && Typed(mode, g, result, inLoop, G, t, I) && Typed(mode, g, result, inLoop, I, els.value, H)
    case Loop(guard, body) =>
      (guard.Some? ==> IsCondition(mode, g, G, guard.value)) && Typed(mode, g, result, true, G, body, H)
    case Break => inLoop && H == G
    case Continue => inLoop && H == G
    case Return(e) =>
      H == G &&
      if e.None? then Fits(mode, T.Void, result)
      else exists t :: HasType(mode, g, G, e.value, t) && Fits(mode, t, result)
  }

  ghost predicate ListTyped(mode: T.Mode, g: T.Globals, result: Type, inLoop: bool, G: Context, ss: Stmts, H: Context)
    requires G != []
    ensures ListTyped(mode, g, result, inLoop, G, ss, H) ==> |H| == |G|
    decreases ss
  {
    match ss
    case Done => H == G
    case Seq(s, rest) =>
      exists I :: |I| == |G| && Typed(mode, g, result, inLoop, G, s, I) && ListTyped(mode, g, result, inLoop, I, rest, H)
  }

  function Bound(G: Context, x: Name, t: Type): (H: Context)
    requires G != []
    ensures |H| == |G|
  {
    var n := |G| - 1;
    G[..n] + [G[n][x := T.Symbol(t, OnHeap(t), false)]]
  }

  /** The parameters in a scope of their own, without ownership. */
  ghost predicate IsParamScope(params: seq<Name>, ts: seq<Type>, m: map<Name, T.Symbol>)
    requires |params| == |ts|
  {
    && (forall x :: x in m <==> x in params)
    && forall i | 0 <= i < |params| :: m[params[i]] == T.Symbol(ts[i], false, false)
  }

  ghost predicate WellTypedFunc(mode: T.Mode, g: T.Globals, d: FuncDecl, ts: seq<Type>, result: Type)
    requires |ts| == |d.params|
  {
    Distinct(d.params) && exists m, H :: IsParamScope(d.params, ts, m) && Typed(mode, g, result, false, [m], d.body, H)
  }

  // ----- the checker follows the rules -----

  lemma {:induction false} LookupSees(G: Context, x: Name)
    ensures T.Lookup(G, x).Some? <==> IsLocal(G, x)
    ensures forall s :: T.Lookup(G, x) == Some(s) <==> Sees(G, x, s)
    decreases |G|
  {
    if G != [] {
      var n := |G| - 1;
      if x in G[n] {
        assert DeclaredIn(G, n, x);
        forall s | Sees(G, x, s)
          ensures s == G[n][x]
        {
        }
      } else {
        LookupSees(G[..n], x);
        SeesOuter(G, x);
      }
    }
  }

  lemma SeesOuter(G: Context, x: Name)
    requires G != [] && x !in G[|G| - 1]
    ensures IsLocal(G[..|G| - 1], x) <==> IsLocal(G, x)
    ensures forall s :: Sees(G[..|G| - 1], x, s) <==> Sees(G, x, s)
  {
    var F := G[..|G| - 1];
    forall i | 0 <= i < |F|
      ensures DeclaredIn(F, i, x) <==> DeclaredIn(G, i, x)
    {
      if DeclaredIn(F, i, x) {
        forall j | i < j < |G|
          ensures x !in G[j]
        {
          if j < |F| { assert x !in F[j]; }
        }
      }
      if DeclaredIn(G, i, x) {
        forall j | i < j < |F|
          ensures x !in F[j]
        {
          assert x !in G[j];
        }
      }
    }
  }

  lemma IdentRule(mode: T.Mode, g: T.Globals, G: Context, x: Name)
    ensures var c := T.Resolve(g, G, x); forall t :: HasType(mode, g, G, Ident(x), t) <==> c.errors == 0 && c.t == t
  {
    hide T.Lookup, Sees, IsLocal;
    LookupSees(G, x);
    if T.Lookup(G, x).Some? { assert Sees(G, x, T.Lookup(G, x).value); }
  }

  lemma BinaryIff(mode: T.Mode, op: BinOp, a: Type, b: Type)
    ensures var c := if op == And || op == Or then T.CheckLogical(a, b) else T.CheckBinary(mode, op, a, b);
            forall t :: BinaryRule(mode, op, a, b, t) <==> c.errors == 0 && c.t == t
  {
  }

  lemma UnaryIff(mode: T.Mode, op: UnOp, a: Type)
    ensures var c := T.CheckUnary(mode, op, a); forall t :: UnaryRule(mode, op, a, t) <==> c.errors == 0 && c.t == t
  {
  }

  /** An expression has a type exactly if the checker reports nothing, and then that one. */
  lemma {:induction false} ExprIff(mode: T.Mode, g: T.Globals, G: Context, e: Expr)
    ensures var c := T.CheckExpr(mode, g, G, e); forall t :: HasType(mode, g, G, e, t) <==> c.errors == 0 && c.t == t
    decreases e, 1
  {
    hide BinaryRule, UnaryRule, T.CheckBinary, T.CheckLogical, T.CheckUnary, T.Lookup, T.CheckArgs, CallRule, Sees,
         IsLocal;
    var c := T.CheckExpr(mode, g, G, e);
    match e
    case IntLit(_) =>
    case BoolLit(_) =>
    case Ident(x) => IdentRule(mode, g, G, x);
    case Binary(op, l, r) =>
      ExprIff(mode, g, G, l);
      ExprIff(mode, g, G, r);
      var a, b := T.CheckExpr(mode, g, G, l), T.CheckExpr(mode, g, G, r);
      BinaryIff(mode, op, a.t, b.t);
      forall t
        ensures HasType(mode, g, G, e, t) <==> c.errors == 0 && c.t == t
      {
        if HasType(mode, g, G, e, t) { var _, _ := BinaryParts(mode, g, G, e, t); }
        if a.errors == 0 && b.errors == 0 { assert HasType(mode, g, G, l, a.t) && HasType(mode, g, G, r, b.t); }
      }
    case Unary(op, d) =>
      ExprIff(mode, g, G, d);
      var a := T.CheckExpr(mode, g, G, d);
      UnaryIff(mode, op, a.t);
      forall t
        ensures HasType(mode, g, G, e, t) <==> c.errors == 0 && c.t == t
      {
        if HasType(mode, g, G, e, t) { var _ := UnaryParts(mode, g, G, e, t); }
        if a.errors == 0 { assert HasType(mode, g, G, d, a.t); }
      }
    case Call(f, args) =>
      ExprIff(mode, g, G, f);
      CallIff(mode, g, G, e);
      var a := T.CheckExpr(mode, g, G, f);
      forall t
        ensures HasType(mode, g, G, e, t) <==> c.errors == 0 && c.t == t
      {
        if HasType(mode, g, G, e, t) { var _ := CallParts(mode, g, G, e, t); }
        if a.errors == 0 { assert HasType(mode, g, G, f, a.t); }
      }
  }

  lemma BinaryParts(mode: T.Mode, g: T.Globals, G: Context, e: Expr, t: Type) returns (a: Type, b: Type)
    requires e.Binary? && HasType(mode, g, G, e, t)
    ensures HasType(mode, g, G, e.left, a) && HasType(mode, g, G, e.right, b) && BinaryRule(mode, e.op, a, b, t)
  {
    hide BinaryRule;
    a, b :| HasType(mode, g, G, e.left, a) && HasType(mode, g, G, e.right, b) && BinaryRule(mode, e.op, a, b, t);
  }

  lemma UnaryParts(mode: T.Mode, g: T.Globals, G: Context, e: Expr, t: Type) returns (a: Type)
    requires e.Unary? && HasType(mode, g, G, e, t)
    ensures HasType(mode, g, G, e.operand, a) && UnaryRule(mode, e.uop, a, t)
  {
    hide UnaryRule;
    a :| HasType(mode, g, G, e.operand, a) && UnaryRule(mode, e.uop, a, t);
  }

  lemma CallParts(mode: T.Mode, g: T.Globals, G: Context, e: Expr, t: Type) returns (k: Type)
    requires e.Call? && HasType(mode, g, G, e, t)
    ensures HasType(mode, g, G, e.callee, k) && CallRule(mode, g, G, k, e.args, t)
  {
    hide CallRule;
    k :| HasType(mode, g, G, e.callee, k) && CallRule(mode, g, G, k, e.args, t);
  }

  lemma {:induction false} CallIff(mode: T.Mode, g: T.Globals, G: Context, e: Expr)
    requires e.Call?
    ensures var f, c := T.CheckExpr(mode, g, G, e.callee), T.CheckExpr(mode, g, G, e);
            f.errors == 0 ==> forall t :: CallRule(mode, g, G, f.t, e.args, t) <==> c.errors == 0 && c.t == t
    ensures T.CheckExpr(mode, g, G, e.callee).errors > 0 ==> T.CheckExpr(mode, g, G, e).errors > 0
    decreases e, 0
  {
    hide HaveTypes, T.CheckArgs, T.Lookup;
    var f := T.CheckExpr(mode, g, G, e.callee);
    if f.t.Function? && f.t.sig in g.sigs && ArgCount(e.args) == |g.sigs[f.t.sig].params| {
      ArgsIff(mode, g, G, e.args, g.sigs[f.t.sig].params);
    }
  }

  lemma {:induction false} ArgsIff(mode: T.Mode, g: T.Globals, G: Context, args: Args, ts: seq<Type>)
    requires ArgCount(args) == |ts|
    ensures HaveTypes(mode, g, G, args, ts) <==> T.CheckArgs(mode, g, G, args, ts) == 0
    decreases args
  {
    hide HasType, T.CheckExpr, T.Lookup;
    if args.Arg? {
      ExprIff(mode, g, G, args.first);
      ArgsIff(mode, g, G, args.rest, ts[1..]);
      var a := T.CheckExpr(mode, g, G, args.first);
      assert HasType(mode, g, G, args.first, a.t) <==> a.errors == 0;
    }
  }

  lemma GivenIs(G: Context, e: Expr)
    requires G != []
    ensures Given(G, e) == T.MoveFrom(G, e)
  {
    var n := |G| - 1;
    if e.Ident? && e.x in G[n] && G[n][e.x].owned && OnHeap(G[n][e.x].t) {
      assert G[n := G[n][e.x := T.Symbol(G[n][e.x].t, true, true)]] == G[..n] + [G[n][e.x := G[n][e.x].(moved := true)]];
    }
  }

  lemma BoundIs(G: Context, x: Name, t: Type)
    requires G != [] && x !in G[|G| - 1]
    ensures T.Declare(G, x, t, T.IsHeap(t)) == T.Declared(Bound(G, x, t), 0)
  {
  }

  lemma GivenNames(G: Context, e: Expr)
    requires G != []
    ensures Given(G, e)[|G| - 1].Keys == G[|G| - 1].Keys
  {
  }

  /** What `Typed` says of a statement is what the checker decides. */
  ghost predicate Decided(mode: T.Mode, g: T.Globals, result: Type, inLoop: bool, G: Context, s: Stmt, r: T.Declared)
    requires G != []
  {
    forall H :: Typed(mode, g, result, inLoop, G, s, H) <==> r.errors == 0 && r.sc == H
  }

  ghost predicate ListDecided(mode: T.Mode, g: T.Globals, result: Type, inLoop: bool, G: Context, ss: Stmts, r: T.Declared)
    requires G != []
  {
    forall H :: ListTyped(mode, g, result, inLoop, G, ss, H) <==> r.errors == 0 && r.sc == H
  }

  lemma {:induction false} StmtIff(mode: T.Mode, g: T.Globals, result: Type, loops: nat, inLoop: bool, G: Context, s: Stmt)
    requires G != [] && inLoop == (loops > 0)
    ensures Decided(mode, g, result, inLoop, G, s, T.CheckStmt(mode, g, result, loops, G, s))
    decreases s, 1
  {
    hide Typed, T.CheckStmt, Decided;
    match s
    case VarDecl(_, _) => DeclIff(mode, g, result, loops, inLoop, G, s);
    case Assign(_, _) => AssignIff(mode, g, result, loops, inLoop, G, s);
    case Block(_) => BlockIff(mode, g, result, loops, inLoop, G, s);
    case If(_, _, els) =>
      if els.Some? { ArmsIff(mode, g, result, loops, inLoop, G, s); } else { ThenIff(mode, g, result, loops, inLoop, G, s); }
    case Loop(_, _) => LoopIff(mode, g, result, loops, inLoop, G, s);
    case Return(_) => ReturnStmtIff(mode, g, result, loops, inLoop, G, s);
    case _ => SimpleIff(mode, g, result, loops, inLoop, G, s);
  }

  lemma SimpleIff(mode: T.Mode, g: T.Globals, result: Type, loops: nat, inLoop: bool, G: Context, s: Stmt)
    requires G != [] && inLoop == (loops > 0) && (s.ExprStmt? || s.CompoundAssign? || s.Break? || s.Continue?)
    ensures Decided(mode, g, result, inLoop, G, s, T.CheckStmt(mode, g, result, loops, G, s))
  {
    hide HasType, T.CheckExpr, T.Resolve, ListTyped, T.CheckStmts, Fits, Given, Bound, T.MoveFrom, T.Declare;
    match s
    case ExprStmt(e) =>
      ExprIff(mode, g, G, e);
      assert HasType(mode, g, G, e, T.CheckExpr(mode, g, G, e).t) <==> T.CheckExpr(mode, g, G, e).errors == 0;
    case CompoundAssign(x, _, e) => AssignTypes(mode, g, G, x, e);
    case _ =>
  }

  lemma AssignIff(mode: T.Mode, g: T.Globals, result: Type, loops: nat, inLoop: bool, G: Context, s: Stmt)
    requires G != [] && s.Assign? && inLoop == (loops > 0)
    ensures Decided(mode, g, result, inLoop, G, s, T.CheckStmt(mode, g, result, loops, G, s))
  {
    hide HasType, T.CheckExpr, T.Resolve, T.MoveFrom, Given, Fits;
    GivenIs(G, s.value);
    AssignTypes(mode, g, G, s.target, s.value);
  }

  lemma AssignTypes(mode: T.Mode, g: T.Globals, G: Context, x: Name, e: Expr)
    ensures var r, c := T.Resolve(g, G, x), T.CheckExpr(mode, g, G, e);
            (exists t, a :: HasType(mode, g, G, Ident(x), t) && HasType(mode, g, G, e, a) && Fits(mode, a, t)) <==>
            r.errors == 0 && c.errors == 0 && !T.Mismatch(mode, r.t, c.t)
    ensures var r, c := T.Resolve(g, G, x), T.CheckExpr(mode, g, G, e);
            (exists t, a :: HasType(mode, g, G, Ident(x), t) && HasType(mode, g, G, e, a) && Adds(mode, t, a)) <==>
            r.errors == 0 && c.errors == 0 && Adds(mode, r.t, c.t)
  {
    hide HasType, T.CheckExpr, T.Resolve;
    IdentRule(mode, g, G, x);
    ExprIff(mode, g, G, e);
    var r, c := T.Resolve(g, G, x), T.CheckExpr(mode, g, G, e);
    if r.errors == 0 && c.errors == 0 { assert HasType(mode, g, G, Ident(x), r.t) && HasType(mode, g, G, e, c.t); }
  }

  function ConditionErrors(mode: T.Mode, g: T.Globals, G: Context, e: Expr): nat {
    T.CheckExpr(mode, g, G, e).errors + T.CondError(T.CheckExpr(mode, g, G, e).t)
  }

  lemma ConditionIff(mode: T.Mode, g: T.Globals, G: Context, e: Expr)
    ensures IsCondition(mode, g, G, e) <==> ConditionErrors(mode, g, G, e) == 0
  {
    hide HasType, T.CheckExpr;
    ExprIff(mode, g, G, e);
    var c := T.CheckExpr(mode, g, G, e);
    if c.errors == 0 { assert HasType(mode, g, G, e, c.t); }
  }

  lemma ReturnStmtIff(mode: T.Mode, g: T.Globals, result: Type, loops: nat, inLoop: bool, G: Context, s: Stmt)
    requires G != [] && s.Return? && inLoop == (loops > 0)
    ensures Decided(mode, g, result, inLoop, G, s, T.CheckStmt(mode, g, result, loops, G, s))
  {
    hide HasType, T.CheckExpr;
    if s.result.Some? { ReturnIff(mode, g, G, s.result.value, result); }
  }

  lemma ReturnIff(mode: T.Mode, g: T.Globals, G: Context, e: Expr, result: Type)
    ensures (exists t :: HasType(mode, g, G, e, t) && Fits(mode, t, result)) <==>
            T.CheckExpr(mode, g, G, e).errors == 0 && !T.Mismatch(mode, result, T.CheckExpr(mode, g, G, e).t)
  {
    hide HasType, T.CheckExpr;
    ExprIff(mode, g, G, e);
    var c := T.CheckExpr(mode, g, G, e);
    if c.errors == 0 { assert HasType(mode, g, G, e, c.t); }
  }

  lemma DeclIff(mode: T.Mode, g: T.Globals, result: Type, loops: nat, inLoop: bool, G: Context, s: Stmt)
    requires G != [] && s.VarDecl? && inLoop == (loops > 0)
    ensures Decided(mode, g, result, inLoop, G, s, T.CheckStmt(mode, g, result, loops, G, s))
  {
    hide HasType, T.CheckExpr, T.MoveFrom, Given, Bound, ListTyped, T.CheckStmts, IsCondition, T.Resolve, Fits, Adds,
         OnHeap, T.IsHeap;
    var c := T.CheckExpr(mode, g, G, s.init);
    ExprIff(mode, g, G, s.init);
    GivenIs(G, s.init);
    GivenNames(G, s.init);
    if s.x !in G[|G| - 1] { BoundIs(Given(G, s.init), s.x, c.t); }
    if c.errors == 0 { assert HasType(mode, g, G, s.init, c.t); }
  }

  lemma {:induction false} BlockIff(mode: T.Mode, g: T.Globals, result: Type, loops: nat, inLoop: bool, G: Context, s: Stmt)
    requires G != [] && s.Block? && inLoop == (loops > 0)
    ensures Decided(mode, g, result, inLoop, G, s, T.CheckStmt(mode, g, result, loops, G, s))
    decreases s, 0
  {
    hide ListTyped, T.CheckStmts;
    ListIff(mode, g, result, loops, inLoop, G + [map[]], s.body);
    var r := T.CheckStmts(mode, g, result, loops, G + [map[]], s.body);
    forall H
      ensures Typed(mode, g, result, inLoop, G, s, H) <==> r.errors == 0 && r.sc[..|G|] == H
    {
      if Typed(mode, g, result, inLoop, G, s, H) { var _ := BlockParts(mode, g, result, inLoop, G, s, H); }
      if r.errors == 0 { assert ListTyped(mode, g, result, inLoop, G + [map[]], s.body, r.sc); }
    }
  }

  lemma BlockParts(mode: T.Mode, g: T.Globals, result: Type, inLoop: bool, G: Context, s: Stmt, H: Context) returns (I: Context)
    requires G != [] && s.Block? && Typed(mode, g, result, inLoop, G, s, H)
    ensures ListTyped(mode, g, result, inLoop, G + [map[]], s.body, I) && |I| == |G| + 1 && H == I[..|G|]
  {
    I :| ListTyped(mode, g, result, inLoop, G + [map[]], s.body, I) && H == I[..|G|];
  }

  lemma {:induction false} LoopIff(mode: T.Mode, g: T.Globals, result: Type, loops: nat, inLoop: bool, G: Context, s: Stmt)
    requires G != [] && s.Loop? && inLoop == (loops > 0)
    ensures Decided(mode, g, result, inLoop, G, s, T.CheckStmt(mode, g, result, loops, G, s))
    decreases s, 0
  {
    hide HasType, T.CheckExpr, T.CondError, Fits, Typed, T.CheckStmt;
    StmtIff(mode, g, result, loops + 1, true, G, s.loopBody);
    if s.guard.Some? { ConditionIff(mode, g, G, s.guard.value); }
    CheckedLoop(mode, g, result, loops, G, s);
    forall H
      ensures Typed(mode, g, result, inLoop, G, s, H) <==>
              (s.guard.Some? ==> IsCondition(mode, g, G, s.guard.value)) && Typed(mode, g, result, true, G, s.loopBody, H)
    {
      LoopRule(mode, g, result, inLoop, G, s, H);
    }
  }

  lemma CheckedLoop(mode: T.Mode, g: T.Globals, result: Type, loops: nat, G: Context, s: Stmt)
    requires G != [] && s.Loop?
    ensures var e := if s.guard.Some? then ConditionErrors(mode, g, G, s.guard.value) else 0;
            var b := T.CheckStmt(mode, g, result, loops + 1, G, s.loopBody);
            T.CheckStmt(mode, g, result, loops, G, s) == T.Declared(b.sc, e + b.errors)
  {
    hide T.CheckExpr;
  }

  lemma LoopRule(mode: T.Mode, g: T.Globals, result: Type, inLoop: bool, G: Context, s: Stmt, H: Context)
    requires G != [] && s.Loop?
    ensures Typed(mode, g, result, inLoop, G, s, H) <==>
            (s.guard.Some? ==> IsCondition(mode, g, G, s.guard.value)) && Typed(mode, g, result, true, G, s.loopBody, H)
  {
    hide HasType, Fits;
  }

  lemma CheckedIf(mode: T.Mode, g: T.Globals, result: Type, loops: nat, G: Context, s: Stmt)
    requires G != [] && s.If?
    ensures var a := T.CheckStmt(mode, g, result, loops, G, s.thn);
            var b := if s.els.Some? then T.CheckStmt(mode, g, result, loops, a.sc, s.els.value) else T.Declared(a.sc, 0);
            T.CheckStmt(mode, g, result, loops, G, s) ==
            T.Declared(b.sc, ConditionErrors(mode, g, G, s.cond) + a.errors + b.errors)
  {
    hide T.CheckExpr, T.CondError;
  }

  lemma {:induction false} ThenIff(mode: T.Mode, g: T.Globals, result: Type, loops: nat, inLoop: bool, G: Context, s: Stmt)
    requires G != [] && s.If? && s.els.None? && inLoop == (loops > 0)
    ensures Decided(mode, g, result, inLoop, G, s, T.CheckStmt(mode, g, result, loops, G, s))
    decreases s, 0
  {
    hide HasType, T.CheckExpr, T.CondError, Fits, Typed, T.CheckStmt;
    ConditionIff(mode, g, G, s.cond);
    StmtIff(mode, g, result, loops, inLoop, G, s.thn);
    CheckedIf(mode, g, result, loops, G, s);
    forall H
      ensures Typed(mode, g, result, inLoop, G, s, H) <==>
              IsCondition(mode, g, G, s.cond) && Typed(mode, g, result, inLoop, G, s.thn, H)
    {
      ThenRule(mode, g, result, inLoop, G, s, H);
    }
  }

  lemma ThenRule(mode: T.Mode, g: T.Globals, result: Type, inLoop: bool, G: Context, s: Stmt, H: Context)
    requires G != [] && s.If? && s.els.None?
    ensures Typed(mode, g, result, inLoop, G, s, H) <==>
            IsCondition(mode, g, G, s.cond) && Typed(mode, g, result, inLoop, G, s.thn, H)
  {
    hide HasType, Fits;
  }

  lemma {:induction false} ArmsIff(mode: T.Mode, g: T.Globals, result: Type, loops: nat, inLoop: bool, G: Context, s: Stmt)
    requires G != [] && s.If? && s.els.Some? && inLoop == (loops > 0)
    ensures Decided(mode, g, result, inLoop, G, s, T.CheckStmt(mode, g, result, loops, G, s))
    decreases s, 0
  {
    hide HasType, T.CheckExpr, T.CondError, Fits, Typed, T.CheckStmt;
    ConditionIff(mode, g, G, s.cond);
    StmtIff(mode, g, result, loops, inLoop, G, s.thn);
    var a := T.CheckStmt(mode, g, result, loops, G, s.thn);
    StmtIff(mode, g, result, loops, inLoop, a.sc, s.els.value);
    CheckedIf(mode, g, result, loops, G, s);
    var r := T.CheckStmt(mode, g, result, loops, G, s);
    forall H
      ensures Typed(mode, g, result, inLoop, G, s, H) <==> r.errors == 0 && r.sc == H
    {
      if Typed(mode, g, result, inLoop, G, s, H) { var _ := ArmsParts(mode, g, result, inLoop, G, s, H); }
      if r.errors == 0 && r.sc == H { ArmsRule(mode, g, result, inLoop, G, s, a.sc, H); }
    }
  }

  lemma ArmsRule(mode: T.Mode, g: T.Globals, result: Type, inLoop: bool, G: Context, s: Stmt, I: Context, H: Context)
    requires G != [] && s.If? && s.els.Some? && IsCondition(mode, g, G, s.cond) && I != []
    requires Typed(mode, g, result, inLoop, G, s.thn, I) && Typed(mode, g, result, inLoop, I, s.els.value, H)
    ensures Typed(mode, g, result, inLoop, G, s, H)
  {
    hide HasType, Fits;
  }

  lemma ArmsParts(mode: T.Mode, g: T.Globals, result: Type, inLoop: bool, G: Context, s: Stmt, H: Context) returns (I: Context)
    requires G != [] && s.If? && s.els.Some? && Typed(mode, g, result, inLoop, G, s, H)
    ensures I != [] && Typed(mode, g, result, inLoop, G, s.thn, I) && Typed(mode, g, result, inLoop, I, s.els.value, H)
    ensures IsCondition(mode, g, G, s.cond)
  {
    hide HasType, Fits;
    I :| I != [] && Typed(mode, g, result, inLoop, G, s.thn, I) && Typed(mode, g, result, inLoop, I, s.els.value, H);
  }

  lemma {:induction false} ListIff(mode: T.Mode, g: T.Globals, result: Type, loops: nat, inLoop: bool, G: Context, ss: Stmts)
    requires G != [] && inLoop == (loops > 0)
    ensures ListDecided(mode, g, result, inLoop, G, ss, T.CheckStmts(mode, g, result, loops, G, ss))
    decreases ss
  {
    hide Typed, T.CheckStmt, ListTyped, T.CheckStmts;
    var r := T.CheckStmts(mode, g, result, loops, G, ss);
    if ss.Done? {
      forall H
        ensures ListTyped(mode, g, result, inLoop, G, ss, H) <==> r.errors == 0 && r.sc == H
      {
        DoneRule(mode, g, result, loops, inLoop, G, ss, H);
      }
      return;
    }
    var a := T.CheckStmt(mode, g, result, loops, G, ss.head);
    StmtIff(mode, g, result, loops, inLoop, G, ss.head);
    ListIff(mode, g, result, loops, inLoop, a.sc, ss.tail);
    CheckedSeq(mode, g, result, loops, G, ss);
    forall H
      ensures ListTyped(mode, g, result, inLoop, G, ss, H) <==> r.errors == 0 && r.sc == H
    {
      if ListTyped(mode, g, result, inLoop, G, ss, H) { var _ := SeqParts(mode, g, result, inLoop, G, ss, H); }
      if r.errors == 0 && r.sc == H { SeqRule(mode, g, result, inLoop, G, ss, a.sc, H); }
    }
  }

  lemma DoneRule(mode: T.Mode, g: T.Globals, result: Type, loops: nat, inLoop: bool, G: Context, ss: Stmts, H: Context)
    requires G != [] && ss.Done?
    ensures ListTyped(mode, g, result, inLoop, G, ss, H) <==> H == G
    ensures T.CheckStmts(mode, g, result, loops, G, ss) == T.Declared(G, 0)
  {
  }

  lemma CheckedSeq(mode: T.Mode, g: T.Globals, result: Type, loops: nat, G: Context, ss: Stmts)
    requires G != [] && ss.Seq?
    ensures var a := T.CheckStmt(mode, g, result, loops, G, ss.head);
            var b := T.CheckStmts(mode, g, result, loops, a.sc, ss.tail);
            T.CheckStmts(mode, g, result, loops, G, ss) == T.Declared(b.sc, a.errors + b.errors)
  {
    hide T.CheckStmt;
  }

  lemma SeqRule(mode: T.Mode, g: T.Globals, result: Type, inLoop: bool, G: Context, ss: Stmts, I: Context, H: Context)
    requires G != [] && ss.Seq? && |I| == |G| && Typed(mode, g, result, inLoop, G, ss.head, I)
    requires ListTyped(mode, g, result, inLoop, I, ss.tail, H)
    ensures ListTyped(mode, g, result, inLoop, G, ss, H)
  {
    hide Typed;
  }

  lemma SeqParts(mode: T.Mode, g: T.Globals, result: Type, inLoop: bool, G: Context, ss: Stmts, H: Context) returns (I: Context)
    requires G != [] && ss.Seq? && ListTyped(mode, g, result, inLoop, G, ss, H)
    ensures |I| == |G| && Typed(mode, g, result, inLoop, G, ss.head, I) && ListTyped(mode, g, result, inLoop, I, ss.tail, H)
  {
    hide Typed;
    I :| |I| == |G| && Typed(mode, g, result, inLoop, G, ss.head, I) && ListTyped(mode, g, result, inLoop, I, ss.tail, H);
  }

  // ----- functions -----

  lemma {:induction false} ParamsIff(params: seq<Name>, ts: seq<Type>)
    requires |params| == |ts|
    ensures var r := T.DeclareParams(params, ts);
            (r.errors == 0 <==> Distinct(params)) && (forall x :: x in r.sc[0] <==> x in params) &&
            (r.errors == 0 ==> IsParamScope(params, ts, r.sc[0]))
    decreases |params|
  {
    if params != [] {
      var n := |params| - 1;
      assert params == params[..n] + [params[n]];
      ParamsIff(params[..n], ts[..n]);
      var b := T.DeclareParams(params[..n], ts[..n]);
      var r := T.DeclareParams(params, ts);
      DistinctLast(params);
      if r.errors == 0 {
        assert r.sc[0] == b.sc[0][params[n] := T.Symbol(ts[n], false, false)];
        forall i | 0 <= i < |params|
          ensures r.sc[0][params[i]] == T.Symbol(ts[i], false, false)
        {
          if i < n { assert params[..n][i] == params[i] && ts[..n][i] == ts[i] && params[i] in params[..n]; }
        }
      }
    }
  }

  lemma DistinctLast(params: seq<Name>)
    requires params != []
    ensures var n := |params| - 1; Distinct(params) <==> Distinct(params[..n]) && params[n] !in params[..n]
  {
    var n := |params| - 1;
    if Distinct(params) {
      forall i | 0 <= i < n
        ensures params[..n][i] != params[n]
      {
        assert params[i] != params[n];
      }
    }
    if Distinct(params[..n]) && params[n] !in params[..n] {
      forall i, j | 0 <= i < j < |params|
        ensures params[i] != params[j]
      {
        if j < n { assert params[..n][i] != params[..n][j]; } else { assert params[i] in params[..n]; }
      }
    }
  }

  lemma OneScope(params: seq<Name>, ts: seq<Type>, m: map<Name, T.Symbol>, m': map<Name, T.Symbol>)
    requires |params| == |ts| && IsParamScope(params, ts, m) && IsParamScope(params, ts, m')
    ensures m == m'
  {
    forall x <- m
      ensures m[x] == m'[x]
    {
      var i :| 0 <= i < |params| && params[i] == x;
    }
  }

  /** The checker accepts a function exactly if it is well typed. */
  lemma AcceptedIff(mode: T.Mode, g: T.Globals, d: FuncDecl, ts: seq<Type>, result: Type)
    requires |ts| == |d.params|
    ensures T.CheckFunc(mode, g, d, ts, result) == 0 <==> WellTypedFunc(mode, g, d, ts, result)
  {
    hide Typed, T.CheckStmt, T.DeclareParams, IsParamScope, Distinct;
    ParamsIff(d.params, ts);
    var ps := T.DeclareParams(d.params, ts);
    assert ps.sc == [ps.sc[0]];
    StmtIff(mode, g, result, 0, false, ps.sc, d.body);
    var r := T.CheckStmt(mode, g, result, 0, ps.sc, d.body);
    if ps.errors == 0 && r.errors == 0 { assert Typed(mode, g, result, false, [ps.sc[0]], d.body, r.sc); }
    if WellTypedFunc(mode, g, d, ts, result) {
      var m, H :| IsParamScope(d.params, ts, m) && Typed(mode, g, result, false, [m], d.body, H);
      OneScope(d.params, ts, m, ps.sc[0]);
    }
  }

  // ----- values that have been given away -----

  /** The name of this scope has lost its value. */
  ghost predicate Lost(G: Context, i: nat, x: Name) {
    i < |G| && x in G[i] && G[i][x].moved
  }

  /** Declaring one name from another, or assigning it, takes an owned heap value away. */
  lemma GivingLoses(mode: T.Mode, g: T.Globals, result: Type, inLoop: bool, G: Context, s: Stmt, H: Context, x: Name)
    requires G != [] && var n := |G| - 1; x in G[n] && G[n][x].owned && OnHeap(G[n][x].t)
    requires (s.VarDecl? && s.init == Ident(x)) || (s.Assign? && s.value == Ident(x))
    requires Typed(mode, g, result, inLoop, G, s, H)
    ensures Lost(H, |G| - 1, x)
  {
    hide HasType;
  }

  /** What is lost stays lost. */
  lemma {:induction false} LostForGood(mode: T.Mode, g: T.Globals, result: Type, inLoop: bool, G: Context, s: Stmt,
                                       H: Context, i: nat, x: Name)
    requires G != [] && Typed(mode, g, result, inLoop, G, s, H) && Lost(G, i, x)
    ensures Lost(H, i, x)
    decreases s
  {
    hide Typed;
    match s
    case Block(body) =>
      var I := BlockParts(mode, g, result, inLoop, G, s, H);
      ListLostForGood(mode, g, result, inLoop, G + [map[]], body, I, i, x);
    case If(_, t, els) =>
      if els.None? {
        ThenRule(mode, g, result, inLoop, G, s, H);
        LostForGood(mode, g, result, inLoop, G, t, H, i, x);
      } else {
        var I := ArmsParts(mode, g, result, inLoop, G, s, H);
        LostForGood(mode, g, result, inLoop, G, t, I, i, x);
        LostForGood(mode, g, result, inLoop, I, els.value, H, i, x);
      }
    case Loop(_, body) =>
      LoopRule(mode, g, result, inLoop, G, s, H);
      LostForGood(mode, g, result, true, G, body, H, i, x);
    case _ => LostInLeaf(mode, g, result, inLoop, G, s, H, i, x);
  }

  lemma LostInLeaf(mode: T.Mode, g: T.Globals, result: Type, inLoop: bool, G: Context, s: Stmt, H: Context, i: nat, x: Name)
    requires !s.Block? && !s.If? && !s.Loop?
    requires G != [] && Typed(mode, g, result, inLoop, G, s, H) && Lost(G, i, x)
    ensures Lost(H, i, x)
  {
    hide HasType, ListTyped, Fits, Adds, IsCondition;
  }

  lemma {:induction false} ListLostForGood(mode: T.Mode, g: T.Globals, result: Type, inLoop: bool, G: Context, ss: Stmts,
                                           H: Context, i: nat, x: Name)
    requires G != [] && ListTyped(mode, g, result, inLoop, G, ss, H) && Lost(G, i, x)
    ensures Lost(H, i, x)
    decreases ss
  {
    hide Typed;
    if ss.Seq? {
      var I :| |I| == |G| && Typed(mode, g, result, inLoop, G, ss.head, I) && ListTyped(mode, g, result, inLoop, I, ss.tail, H);
      LostForGood(mode, g, result, inLoop, G, ss.head, I, i, x);
      ListLostForGood(mode, g, result, inLoop, I, ss.tail, H, i, x);
    }
  }

  lemma OneDeclaration(G: Context, i: nat, j: nat, x: Name)
    requires i < |G| && j < |G| && DeclaredIn(G, i, x) && DeclaredIn(G, j, x)
    ensures i == j
  {
  }

  /** No mention of a lost name is well typed, unless another declaration hides it. */
  lemma LostIsUnusable(mode: T.Mode, g: T.Globals, G: Context, i: nat, x: Name, t: Type)
    requires Lost(G, i, x) && DeclaredIn(G, i, x)
    ensures !HasType(mode, g, G, Ident(x), t)
  {
    assert IsLocal(G, x);
    forall s | Sees(G, x, s)
      ensures s.moved
    {
      var j :| 0 <= j < |G| && DeclaredIn(G, j, x) && G[j][x] == s;
      OneDeclaration(G, i, j, x);
    }
  }
}
