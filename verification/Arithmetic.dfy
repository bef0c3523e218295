/**
 What the operators compute, in numbers: sums, differences and products of integers, the
 quotient that truncates toward zero, comparisons, truth values, and when there is no
 result.  Opcodes says the same of the machine's instructions.
 */
module Arithmetic {
  import opened Values
  import opened Source

  // ----- truncating division -----

  function Size(i: int): nat {
    if i < 0 then -i else i
  }

  /** `x` divided by `y`: the remainder is smaller than the divisor and has the sign of `x`. */
  ghost predicate IsQuotient(x: int, y: int, q: int, r: int) {
    x == q * y + r && Size(r) < Size(y) && (r > 0 ==> x > 0) && (r < 0 ==> x < 0)
  }

  lemma QuotientExists(x: int, y: int) returns (q: int, r: int)
    requires y != 0
    ensures IsQuotient(x, y, q, r)
  {
    q, r := TruncDiv(x, y), TruncMod(x, y);
    TruncDivLaw(x, y);
  }

  /** There is only one quotient. */
  lemma QuotientUnique(x: int, y: int, q: int, r: int, q': int, r': int)
    requires IsQuotient(x, y, q, r) && IsQuotient(x, y, q', r')
    ensures q == q' && r == r'
  {
    assert (q - q') * y == r' - r;
    assert Size(r' - r) < Size(y);
    if q != q' { TooLarge(q - q', y); }
  }

  lemma TooLarge(n: int, y: int)
    requires n != 0
    ensures Size(n * y) >= Size(y)
  {
    assert n >= 1 || n <= -1;
    if n >= 1 && y >= 0 { assert n * y >= y; }
    else if n >= 1 { assert n * y <= y; }
    else if y >= 0 { assert n * y <= -y; }
    else { assert n * y >= -y; }
  }

  lemma QuotientIs(x: int, y: int, q: int, r: int)
    requires IsQuotient(x, y, q, r)
    ensures y != 0 && TruncDiv(x, y) == q && TruncMod(x, y) == r
  {
    var q', r' := QuotientExists(x, y);
    TruncDivLaw(x, y);
    QuotientUnique(x, y, TruncDiv(x, y), TruncMod(x, y), q, r);
  }

  // ----- results of the interpreter -----

  /** A result in 64 bits, or none. */
  ghost predicate Is64(r: ExprResult, z: int) {
    r == if -0x8000_0000_0000_0000 <= z <= 0x7FFF_FFFF_FFFF_FFFF then Val(Int(z)) else ExprFault(IntegerOverflow)
  }

  ghost predicate IsTruth(r: ExprResult, b: bool) {
    r == Val(Bool(b))
  }

  /** Truth values are true or false, integers by being zero or not; all else is false. */
  predicate CountsTrue(v: Value) {
    v == Bool(true) || (v.Int? && v.i != 0)
  }

  /** Functions are objects, which a condition takes for true. */
  predicate Taken(v: Value) {
    CountsTrue(v) || v.Function?
  }

  /** Operators on two integers. */
  lemma IntegersGive(p: Program, env: Env, e: Expr, fuel: Fuel, x: int, y: int, q: int, r: int)
    requires e.Binary? && EvalExpr(p, env, e.left, fuel) == Val(Int(x)) && EvalExpr(p, env, e.right, fuel) == Val(Int(y))
    requires y != 0 ==> IsQuotient(x, y, q, r)
    ensures var v := EvalExpr(p, env, e, fuel);
            match e.op
            case Add => Is64(v, x + y)
            case Sub => Is64(v, x - y)
            case Mul => Is64(v, x * y)
            case Div => if y == 0 then v == ExprFault(DivisionByZero) else Is64(v, q)
            case Mod =>
              if y == 0 then v == ExprFault(ModuloByZero)
              else v == if -0x8000_0000_0000_0000 <= q <= 0x7FFF_FFFF_FFFF_FFFF then Val(Int(r)) else ExprFault(IntegerOverflow)
            case Eq => IsTruth(v, x == y)
            case Ne => IsTruth(v, x != y)
            case Lt => IsTruth(v, x < y)
            case Le => IsTruth(v, x <= y)
            case Gt => IsTruth(v, x > y)
            case Ge => IsTruth(v, x >= y)
            case And => IsTruth(v, x != 0 && y != 0)
            case Or => IsTruth(v, x != 0 || y != 0)
  {
    hide TruncDiv, TruncMod;
    if y != 0 { QuotientIs(x, y, q, r); }
  }

  /** Operators on any two values: the logical ones take all, the others integers only. */
  lemma OperandsGive(p: Program, env: Env, e: Expr, fuel: Fuel, x: Value, y: Value)
    requires e.Binary? && EvalExpr(p, env, e.left, fuel) == Val(x) && EvalExpr(p, env, e.right, fuel) == Val(y)
    ensures var v := EvalExpr(p, env, e, fuel);
            match e.op
            case And => IsTruth(v, CountsTrue(x) && CountsTrue(y))
            case Or => IsTruth(v, CountsTrue(x) || CountsTrue(y))
            case _ => !x.Int? || !y.Int? ==> v == ExprFault(OperandType)
  {
    hide TruncDiv, TruncMod;
  }

  lemma OperandGives(p: Program, env: Env, e: Expr, fuel: Fuel, x: Value)
    requires e.Unary? && EvalExpr(p, env, e.operand, fuel) == Val(x)
    ensures var v := EvalExpr(p, env, e, fuel);
            match e.uop
            case Plus => v == Val(x)
            case Minus => if x.Int? then Is64(v, -x.i) else v == ExprFault(OperandType)
            case Bang => IsTruth(v, x == Nil || x == Bool(false) || x == Int(0))
  {
  }

  /** A compound assignment computes what the operator does, on the name's value. */
  lemma CompoundGives(p: Program, env: Env, s: Stmt, fuel: Fuel)
    requires s.CompoundAssign? && s.target in env
    ensures var v := EvalExpr(p, env, s.value, fuel);
            var r := EvalExpr(p, env, Binary(s.op, Ident(s.target), s.value), fuel);
            ExecStmt(p, env, s, fuel) ==
            if !v.Val? then Stopped(v) else if r.Val? then Normal(env[s.target := r.v]) else Stopped(r)
  {
    hide ApplyBin;
    assert EvalExpr(p, env, Ident(s.target), fuel) == Val(env[s.target]);
  }

  /** Conditions of `if` and loops. */
  lemma ConditionTakes(p: Program, env: Env, s: Stmt, fuel: Fuel, v: Value)
    requires s.If? && EvalExpr(p, env, s.cond, fuel) == Val(v)
    ensures ExecStmt(p, env, s, fuel) ==
            if Taken(v) then Leave(ExecStmt(p, env, s.thn, fuel), env.Keys)
            else if s.els.Some? then Leave(ExecStmt(p, env, s.els.value, fuel), env.Keys)
            else Normal(env)
  {
  }

  lemma GuardTakes(p: Program, env: Env, s: Stmt, fuel: Fuel, v: Value)
    requires s.Loop? && s.guard.Some? && EvalExpr(p, env, s.guard.value, fuel) == Val(v) && !Taken(v)
    ensures ExecStmt(p, env, s, fuel) == Normal(env)
  {
  }
}
