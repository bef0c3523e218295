/**
 Runtime values of the register machine and the operations every execution model
 shares: the source interpreter, the IR machine and the byte code VM all use the
 same arithmetic, comparison and truth rules.
 */
module Values {

  /** A string-pool id. */
  type NameId = n: nat | n < 0x1_0000_0000

  /** A register slot: the VM's tagged union without floats and heap objects.
      `Function(id)` stands for the object pointer of function number `id`. */
  datatype Value = Nil | Bool(b: bool) | Int(i: int) | Function(id: nat)

  datatype BinOp = Add | Sub | Mul | Div | Mod | Eq | Ne | Lt | Le | Gt | Ge | And | Or

  datatype UnOp = Plus | Minus | Bang

  /** Why a run stops without a result.  The first group can be caused by a source
      program, the second by the machine's limits, the third only by bad byte code. */
  datatype Fault =
    | OperandType | DivisionByZero | ModuloByZero | IntegerOverflow
    | UndefinedGlobal | NotCallable | ArityMismatch
    | StackOverflow | WindowOverflow
    | BytecodeTruncated | JumpOutOfRange | UnknownOpcode | ConstantOutOfRange
    | RegisterOutOfRange | InvalidDefinition | MissingInstruction

  /** Limits of the machine, not of the program: call depth and register file size. */
  predicate IsMachineLimit(f: Fault) {
    f == StackOverflow || f == WindowOverflow
  }

  /** Faults that only malformed byte code can cause. */
  predicate IsControlFault(f: Fault) {
    f in {BytecodeTruncated, JumpOutOfRange, UnknownOpcode, ConstantOutOfRange,
          RegisterOutOfRange, InvalidDefinition, MissingInstruction}
  }

  datatype Result<+T> = Ok(value: T) | Err(fault: Fault)

  datatype Option<+T> = None | Some(value: T)

  const INT64_MIN: int := -0x8000_0000_0000_0000
  const INT64_MAX: int := 0x7fff_ffff_ffff_ffff

  /** Signed 64-bit overflow is undefined behaviour in the program; here it is a fault. */
  function Checked(i: int): (r: Result<Value>) {
    if INT64_MIN <= i <= INT64_MAX then Ok(Int(i)) else Err(IntegerOverflow)
  }

  function Abs(i: int): nat {
    if i < 0 then -i else i
  }

  /** Division that truncates toward zero. */
  function TruncDiv(a: int, b: int): (q: int)
    requires b != 0
  {
    if (a < 0) == (b < 0) then Abs(a) / Abs(b) else -(Abs(a) / Abs(b))
  }

  /** Remainder with the sign of the dividend. */
  function TruncMod(a: int, b: int): (r: int)
    requires b != 0
  {
    a - TruncDiv(a, b) * b
  }

  /** Truncating division is the one whose remainder is smaller than the divisor and
      never has the sign opposite to the dividend. */
  lemma TruncDivLaw(a: int, b: int)
    requires b != 0
    ensures Abs(TruncMod(a, b)) < Abs(b)
    ensures a >= 0 ==> TruncMod(a, b) >= 0
    ensures a <= 0 ==> TruncMod(a, b) <= 0
  {
  }

  /** The truth rule of `&&`, `||`: Bool as is, Int by non-zero, everything else false. */
  function LogicTruth(v: Value): bool {
    match v
    case Bool(b) => b
    case Int(i) => i != 0
    case Nil => false
    case Function(_) => false
  }

  /** The truth rule of a conditional jump: objects count as true here. */
  function BranchTruth(v: Value): bool {
    match v
    case Bool(b) => b
    case Int(i) => i != 0
    case Nil => false
    case Function(_) => true
  }

  function ApplyBin(op: BinOp, l: Value, r: Value): Result<Value> {
    match op
    case And => Ok(Bool(LogicTruth(l) && LogicTruth(r)))
    case Or => Ok(Bool(LogicTruth(l) || LogicTruth(r)))
    case _ =>
      if !l.Int? || !r.Int? then Err(OperandType)
      else IntOp(op, l.i, r.i)
  }

  function IntOp(op: BinOp, a: int, b: int): Result<Value>
    requires op != And && op != Or
  {
    match op
    case Add => Checked(a + b)
    case Sub => Checked(a - b)
    case Mul => Checked(a * b)
    case Div => if b == 0 then Err(DivisionByZero) else Checked(TruncDiv(a, b))
    case Mod =>
      if b == 0 then Err(ModuloByZero)
      // INT64_MIN % -1 overflows in the program as its quotient does
      else if Checked(TruncDiv(a, b)).Err? then Err(IntegerOverflow)
      else Ok(Int(TruncMod(a, b)))
    case Eq => Ok(Bool(a == b))
    case Ne => Ok(Bool(a != b))
    case Lt => Ok(Bool(a < b))
    case Le => Ok(Bool(a <= b))
    case Gt => Ok(Bool(a > b))
    case Ge => Ok(Bool(a >= b))
  }

  function ApplyUn(op: UnOp, v: Value): Result<Value> {
    match op
    case Plus => Ok(v)
    case Minus => if v.Int? then Checked(-v.i) else Err(OperandType)
    case Bang =>
      Ok(Bool(match v
              case Nil => true
              case Bool(b) => !b
              case Int(i) => i == 0
              case Function(_) => false))
  }
}
