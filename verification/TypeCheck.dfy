/**
 What the type checker decides, over a stack of scopes that are finite maps.  The checker
 class in Checker works on one flat vector of depth-tagged symbols and is proved to decide
 the same.  Errors are counted; checking goes on after an error with a guessed type.
 */
module TypeCheck {
  import opened Values
  import opened Source

  datatype Type = Unknown | Integer | Float | Boolean | String | Array | Map | Object(id: nat) | Function(sig: nat) | Void

  datatype FuncSignature = FuncSignature(params: seq<Type>, result: Type)

  /** A declared name: whether it owns its value and whether that value has been given away. */
  datatype Symbol = Symbol(t: Type, owned: bool, moved: bool)

  type Scope = map<Name, Symbol>

  /** Innermost scope last. */
  type Scopes = seq<Scope>

  /** What is visible beyond the locals: the types of the module's names and the signatures. */
  datatype Globals = Globals(names: map<Name, Type>, sigs: map<nat, FuncSignature>)

  predicate IsHeap(t: Type) {
    t.Array? || t.Map? || t.Object? || t.String?
  }

  function Lookup(sc: Scopes, x: Name): Option<Symbol> {
    if sc == [] then None
    else if x in sc[|sc| - 1] then Some(sc[|sc| - 1][x])
    else Lookup(sc[..|sc| - 1], x)
  }

  datatype Checked = Checked(t: Type, errors: nat)

  function Resolve(g: Globals, sc: Scopes, x: Name): Checked {
    match Lookup(sc, x)
    case Some(s) => if s.moved then Checked(Unknown, 1) else Checked(s.t, 0)
    case None => if x in g.names then Checked(g.names[x], 0) else Checked(Unknown, 1)
  }

  /** How much is asked of a text.  The checker is `Lax`.  `Integers` also rejects equality and
      compound assignment of anything but integers, for which the VM has no instructions.
      `Strict` also rejects a value of unknown type wherever something relies on its type: as an
      operand of an arithmetic instruction, as a callee, and where a parameter, a name or a
      result has a declared type. */
  datatype Mode = Lax | Integers | Strict

  /** A value of type `t` where `want` is declared. */
  predicate Mismatch(mode: Mode, want: Type, t: Type) {
    Clash(t, want) || (mode == Strict && want != Unknown && t == Unknown)
  }

  function CheckExpr(mode: Mode, g: Globals, sc: Scopes, e: Expr): Checked {
    match e
    case IntLit(_) => Checked(Integer, 0)
    case BoolLit(_) => Checked(Boolean, 0)
    case Ident(x) => Resolve(g, sc, x)
    case Binary(op, left, right) =>
      var l := CheckExpr(mode, g, sc, left);
      var r := CheckExpr(mode, g, sc, right);
      var b := if op == And || op == Or then CheckLogical(l.t, r.t) else CheckBinary(mode, op, l.t, r.t);
      Checked(b.t, l.errors + r.errors + b.errors)
    case Unary(op, operand) =>
      var a := CheckExpr(mode, g, sc, operand);
      var u := CheckUnary(mode, op, a.t);
      Checked(u.t, a.errors + u.errors)
    case Call(callee, args) =>
      var c := CheckExpr(mode, g, sc, callee);
      if c.t == Unknown then Checked(Unknown, c.errors + if mode == Strict then 1 else 0)
      else if !c.t.Function? && !c.t.Object? then Checked(Unknown, c.errors + 1)
      else if !c.t.Function? || c.t.sig !in g.sigs then Checked(Unknown, c.errors + 1)
      else
        var sig := g.sigs[c.t.sig];
        var n := if ArgCount(args) != |sig.params| then 1 else 0;
        Checked(sig.result, c.errors + n + CheckArgs(mode, g, sc, args, sig.params))
  }

  /** Arguments beyond the declared parameters are checked for themselves only. */
  function CheckArgs(mode: Mode, g: Globals, sc: Scopes, args: Args, params: seq<Type>): nat {
    match args
    case NoArgs => 0
    case Arg(e, rest) =>
      var a := CheckExpr(mode, g, sc, e);
      var clash := if params != [] && Mismatch(mode, params[0], a.t) then 1 else 0;
      a.errors + clash + CheckArgs(mode, g, sc, rest, if params == [] then [] else params[1..])
  }

  /** Two types that are both known and differ. */
  predicate Clash(a: Type, b: Type) {
    a != Unknown && b != Unknown && a != b
  }

  function CheckLogical(l: Type, r: Type): Checked {
    Checked(Boolean, (if Clash(l, Boolean) then 1 else 0) + (if Clash(r, Boolean) then 1 else 0))
  }

  function CheckBinary(mode: Mode, op: BinOp, l: Type, r: Type): Checked
    requires op != And && op != Or
  {
    if l == Unknown || r == Unknown then
      // only `==` and `>=` are recognised as comparisons here
      Checked(if op == Eq || op == Ge then Boolean else Unknown, if mode == Strict then 1 else 0)
    else if op == Mod then Checked(Integer, if l == Integer && r == Integer then 0 else 1)
    else if op == Eq || op == Ne then Checked(Boolean, CheckEquality(mode, l, r))
    else if op == Lt || op == Le || op == Gt || op == Ge then Checked(Boolean, CheckOrder(l, r))
    else if l == Integer && r == Integer then Checked(Integer, 0)
    else if l == Float && r == Float then Checked(Float, 0)
    else Checked(if l == Float || r == Float then Float else Integer, 1)
  }

  function CheckEquality(mode: Mode, l: Type, r: Type): nat {
    if l != r || (mode != Lax && l != Integer) then 1 else 0
  }

  function CheckOrder(l: Type, r: Type): nat {
    if l == r && (l == Integer || l == Float) then 0 else 1
  }

  function CheckUnary(mode: Mode, op: UnOp, t: Type): Checked {
    match op
    case Plus => Checked(Unknown, 0)
    case Minus => Checked(t, if t == Integer || t == Float || (t == Unknown && mode != Strict) then 0 else 1)
    case Bang => Checked(Boolean, if t in {Unknown, Boolean, Integer} then 0 else 1)
  }

  // ----- scopes -----

  predicate HasScope(sc: Scopes) {
    sc != []
  }

  function Innermost(sc: Scopes): Scope
    requires HasScope(sc)
  {
    sc[|sc| - 1]
  }

  function WithInnermost(sc: Scopes, s: Scope): Scopes
    requires HasScope(sc)
  {
    sc[..|sc| - 1] + [s]
  }

  /** Assigning from a name of the innermost scope that owns a heap value gives it away. */
  function MarkMoved(sc: Scopes, x: Name): (r: Scopes)
    requires HasScope(sc)
    ensures |r| == |sc|
  {
    var s := Innermost(sc);
    if x in s && s[x].owned && IsHeap(s[x].t) then WithInnermost(sc, s[x := s[x].(moved := true)]) else sc
  }

  datatype Declared = Declared(sc: Scopes, errors: nat)

  /** Outer names may be hidden, names of the same scope not. */
  function Declare(sc: Scopes, x: Name, t: Type, owned: bool): (r: Declared)
    requires HasScope(sc)
    ensures |r.sc| == |sc|
  {
    var s := Innermost(sc);
    if x in s then Declared(sc, 1) else Declared(WithInnermost(sc, s[x := Symbol(t, owned, false)]), 0)
  }

  /** The names a scope has to free when it ends. */
  function ExitNames(s: Scope): set<Name> {
    set x | x in s && s[x].owned && !s[x].moved
  }

  // ----- statements -----

  function MoveFrom(sc: Scopes, e: Expr): (r: Scopes)
    requires HasScope(sc)
    ensures |r| == |sc|
  {
    if e.Ident? then MarkMoved(sc, e.x) else sc
  }

  /** `result` is the declared result type, `loops` the number of loops around the statement. */
  function CheckStmt(mode: Mode, g: Globals, result: Type, loops: nat, sc: Scopes, s: Stmt): (r: Declared)
    requires HasScope(sc)
    ensures |r.sc| == |sc|
    decreases s
  {
    match s
    case ExprStmt(e) => Declared(sc, CheckExpr(mode, g, sc, e).errors)
    case VarDecl(x, e) =>
      var c := CheckExpr(mode, g, sc, e);
      var d := Declare(MoveFrom(sc, e), x, c.t, IsHeap(c.t));
      Declared(d.sc, c.errors + (if c.t == Unknown then 1 else 0) + d.errors)
    case Assign(x, e) =>
      var t := Resolve(g, sc, x);
      var c := CheckExpr(mode, g, sc, e);
      if Clash(t.t, c.t) then Declared(sc, t.errors + c.errors + 1)
      else Declared(MoveFrom(sc, e), t.errors + c.errors + if Mismatch(mode, t.t, c.t) then 1 else 0)
    case CompoundAssign(x, _, e) =>
      var t := Resolve(g, sc, x);
      var c := CheckExpr(mode, g, sc, e);
      var bad := Clash(t.t, c.t) || (mode != Lax && t.t != Unknown && t.t != Integer) ||
                 (mode == Strict && (t.t == Unknown || c.t == Unknown));
      Declared(sc, t.errors + c.errors + if bad then 1 else 0)
    case Block(body) =>
      var inner := CheckStmts(mode, g, result, loops, sc + [map[]], body);
      Declared(inner.sc[..|sc|], inner.errors)
    case If(c, t, els) =>
      var cond := CheckExpr(mode, g, sc, c);
      var a := CheckStmt(mode, g, result, loops, sc, t);
      var b := if els.Some? then CheckStmt(mode, g, result, loops, a.sc, els.value) else Declared(a.sc, 0);
      Declared(b.sc, cond.errors + CondError(cond.t) + a.errors + b.errors)
    case Loop(guard, body) =>
      var cond := if guard.Some? then CheckExpr(mode, g, sc, guard.value) else Checked(Boolean, 0);
      var b := CheckStmt(mode, g, result, loops + 1, sc, body);
      Declared(b.sc, cond.errors + CondError(cond.t) + b.errors)
    case Break => Declared(sc, if loops == 0 then 1 else 0)
    case Continue => Declared(sc, if loops == 0 then 1 else 0)
    case Return(e) =>
      var c := if e.Some? then CheckExpr(mode, g, sc, e.value) else Checked(Void, 0);
      Declared(sc, c.errors + if Mismatch(mode, result, c.t) then 1 else 0)
  }

  function CondError(t: Type): nat {
    if Clash(t, Boolean) then 1 else 0
  }

  function CheckStmts(mode: Mode, g: Globals, result: Type, loops: nat, sc: Scopes, ss: Stmts): (r: Declared)
    requires HasScope(sc)
    ensures |r.sc| == |sc|
    decreases ss
  {
    match ss
    case Done => Declared(sc, 0)
    case Seq(s, rest) =>
      var a := CheckStmt(mode, g, result, loops, sc, s);
      var b := CheckStmts(mode, g, result, loops, a.sc, rest);
      Declared(b.sc, a.errors + b.errors)
  }

  /** A function's parameters have a scope of their own; its body opens another one. */
  function DeclareParams(params: seq<Name>, ts: seq<Type>): (r: Declared)
    requires |params| == |ts|
    ensures |r.sc| == 1
  {
    if params == [] then Declared([map[]], 0)
    else
      var n := |params| - 1;
      var before := DeclareParams(params[..n], ts[..n]);
      var d := Declare(before.sc, params[n], ts[n], false);
      Declared(d.sc, before.errors + d.errors)
  }

  function CheckFunc(mode: Mode, g: Globals, d: FuncDecl, ts: seq<Type>, result: Type): nat
    requires |ts| == |d.params|
  {
    var ps := DeclareParams(d.params, ts);
    ps.errors + CheckStmt(mode, g, result, 0, ps.sc, d.body).errors
  }
}
