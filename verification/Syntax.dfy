/**
 Tokens, precedences and expression trees as the parser sees them, and concrete syntax
 trees: the strings of a stratified, left-associative expression grammar.
 */
module Syntax {
  import V = Values

  type NameId = V.NameId

  datatype Literal = IntLit(n: nat) | FloatLit(n: nat) | StringLit(s: NameId) | CharLit | TrueLit | FalseLit | NilLit

  datatype BaseType = IntType | FloatType | StringType | BoolType

  datatype Token =
    | Lit(l: Literal) | TypeName(t: BaseType) | Identifier(x: NameId)
    | Plus | Minus | Star | Slash | Mod | ConcatOp | Dice
    | EqualEqual | BangEqual | Greater | GreaterEqual | Less | LessEqual
    | BitAnd | BitOr | BitXor | Shl | Shr | AndAnd | OrOr
    | Bang | BitNot
    | ParenL | ParenR | BracketL | BracketR | BraceL | BraceR | Comma | Colon | Dot
    | OtherToken(id: nat)

  const NONE: nat := 0
  const UNARY: nat := 13
  const CALL: nat := 14

  /** The binding power of a token that follows a complete expression. */
  function Precedence(t: Token): (p: nat)
    ensures p <= CALL
  {
    match t
    case OrOr => 1
    case AndAnd => 2
    case BitOr => 3
    case BitXor => 4
    case BitAnd => 5
    case EqualEqual => 6
    case BangEqual => 6
    case Greater => 7
    case GreaterEqual => 7
    case Less => 7
    case LessEqual => 7
    case Shl => 8
    case Shr => 8
    case ConcatOp => 9
    case Plus => 10
    case Minus => 10
    case Star => 11
    case Slash => 11
    case Mod => 11
    case Dice => 12
    case Dot => CALL
    case ParenL => CALL
    case BracketL => CALL
    case _ => NONE
  }

  predicate IsPrefixOp(t: Token) {
    t == Minus || t == Bang || t == BitNot
  }

  /** Operators between two operands, the logical ones included. */
  predicate IsInfixOp(t: Token) {
    0 < Precedence(t) < UNARY
  }

  predicate IsLogical(t: Token) {
    t == AndAnd || t == OrOr
  }

  predicate IsAtom(t: Token) {
    t.Lit? || t.TypeName? || t.Identifier?
  }

  datatype Expr =
    | Atom(t: Token)
    | Unary(op: Token, operand: Expr)
    | Binary(op: Token, left: Expr, right: Expr)
    | Logical(op: Token, left: Expr, right: Expr)
    | Call(callee: Expr, args: Exprs)
    | Index(target: Expr, index: Expr)
    | Member(obj: Expr, name: NameId)
    | Array(elements: Exprs)
    | Map(entries: Exprs)
    | Error

  datatype Exprs = Nil | Cons(head: Expr, tail: Exprs)

  function Append(xs: Exprs, ys: Exprs): Exprs {
    match xs
    case Nil => ys
    case Cons(x, rest) => Cons(x, Append(rest, ys))
  }

  function InfixNode(op: Token, l: Expr, r: Expr): Expr {
    if IsLogical(op) then Logical(op, l, r) else Binary(op, l, r)
  }

  // ----- concrete syntax -----

  /** An expression as written: with its parentheses and optional trailing commas. */
  datatype Cst =
    | CAtom(t: Token)
    | CParen(inner: Cst)
    | CUnary(op: Token, operand: Cst)
    | CInfix(op: Token, left: Cst, right: Cst)
    | CCall(callee: Cst, args: CList)
    | CIndex(target: Cst, index: Cst)
    | CMember(obj: Cst, name: NameId)
    | CArray(elements: CList)
    | CMap(entries: CEntries)

  datatype CList = CNil | CCons(head: Cst, tail: CList, trailing: bool)

  datatype CEntries = ENil | ECons(key: Cst, value: Cst, tail: CEntries, trailing: bool)

  /** The text. */
  function Text(c: Cst): (ts: seq<Token>)
    ensures ts != []
  {
    match c
    case CAtom(t) => [t]
    case CParen(d) => [ParenL] + Text(d) + [ParenR]
    case CUnary(op, d) => [op] + Text(d)
    case CInfix(op, l, r) => Text(l) + [op] + Text(r)
    case CCall(f, args) => Text(f) + [ParenL] + ListText(args) + [ParenR]
    case CIndex(a, i) => Text(a) + [BracketL] + Text(i) + [BracketR]
    case CMember(o, x) => Text(o) + [Dot, Identifier(x)]
    case CArray(es) => [BracketL] + ListText(es) + [BracketR]
    case CMap(es) => [BraceL] + EntriesText(es) + [BraceR]
  }

  function ListText(cs: CList): seq<Token> {
    match cs
    case CNil => []
    case CCons(c, rest, trailing) => Text(c) + (if rest != CNil || trailing then [Comma] else []) + ListText(rest)
  }

  function EntriesText(es: CEntries): seq<Token> {
    match es
    case ENil => []
    case ECons(k, v, rest, trailing) =>
      Text(k) + [Colon] + Text(v) + (if rest != ENil || trailing then [Comma] else []) + EntriesText(rest)
  }

  /** The tree a text stands for. */
  function Tree(c: Cst): Expr {
    match c
    case CAtom(t) => Atom(t)
    case CParen(d) => Tree(d)
    case CUnary(op, d) => Unary(op, Tree(d))
    case CInfix(op, l, r) => InfixNode(op, Tree(l), Tree(r))
    case CCall(f, args) => Call(Tree(f), ListTree(args))
    case CIndex(a, i) => Index(Tree(a), Tree(i))
    case CMember(o, x) => Member(Tree(o), x)
    case CArray(es) => Array(ListTree(es))
    case CMap(es) => Map(EntriesTree(es))
  }

  function ListTree(cs: CList): Exprs {
    match cs
    case CNil => Nil
    case CCons(c, rest, _) => Cons(Tree(c), ListTree(rest))
  }

  function EntriesTree(es: CEntries): Exprs {
    match es
    case ENil => Nil
    case ECons(k, v, rest, _) => Cons(Tree(k), Cons(Tree(v), EntriesTree(rest)))
  }

  /** How tightly the outermost construct of a text binds. */
  function Level(c: Cst): nat {
    match c
    case CInfix(op, _, _) => Precedence(op)
    case CUnary(_, _) => UNARY
    case _ => CALL
  }

  /** The text may stand where only operators above `p` are read. */
  predicate Above(p: nat, c: Cst) {
    c.CInfix? ==> Precedence(c.op) > p
  }

  /** The grammar: the left operand of an operator binds at least as tightly as the operator,
      the right operand more tightly, and a prefix operator applies to postfix expressions. */
  predicate Grammatical(c: Cst) {
    match c
    case CAtom(t) => IsAtom(t)
    case CParen(d) => Grammatical(d)
    case CUnary(op, d) => IsPrefixOp(op) && Grammatical(d) && Above(UNARY, d)
    case CInfix(op, l, r) =>
      IsInfixOp(op) && Grammatical(l) && Level(l) >= Precedence(op) && Grammatical(r) && Above(Precedence(op), r)
    case CCall(f, args) => Grammatical(f) && Level(f) == CALL && GrammaticalList(args)
    case CIndex(a, i) => Grammatical(a) && Level(a) == CALL && Grammatical(i)
    case CMember(o, _) => Grammatical(o) && Level(o) == CALL
    case CArray(es) => GrammaticalList(es)
    case CMap(es) => GrammaticalEntries(es)
  }

  predicate GrammaticalList(cs: CList) {
    match cs
    case CNil => true
    case CCons(c, rest, _) => Grammatical(c) && GrammaticalList(rest)
  }

  predicate GrammaticalEntries(es: CEntries) {
    match es
    case ENil => true
    case ECons(k, v, rest, _) => Grammatical(k) && Grammatical(v) && GrammaticalEntries(rest)
  }
}
