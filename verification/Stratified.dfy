/**
 The expression grammar with one nonterminal for each level, its operators written out, and
 the tree of each text.  The parser reads exactly this language and gives these trees.
 */
module Stratified {
  import opened Syntax
  import opened Pratt
  import opened PrattGrammar
  import opened PrattSound

  /** From the loosest to the tightest. */
  datatype Nonterminal =
    | OrElse | AndAlso | BitwiseOr | BitwiseXor | BitwiseAnd | Equality | Comparison | Shift
    | Concatenation | Sum | Product | Roll | Prefix | Postfix

  function Operators(n: Nonterminal): set<Token> {
    match n
    case OrElse => {OrOr}
    case AndAlso => {AndAnd}
    case BitwiseOr => {BitOr}
    case BitwiseXor => {BitXor}
    case BitwiseAnd => {BitAnd}
    case Equality => {EqualEqual, BangEqual}
    case Comparison => {Less, LessEqual, Greater, GreaterEqual}
    case Shift => {Shl, Shr}
    case Concatenation => {ConcatOp}
    case Sum => {Plus, Minus}
    case Product => {Star, Slash, Mod}
    case Roll => {Dice}
    case _ => {}
  }

  function Rank(n: Nonterminal): nat {
    match n
    case OrElse => 13
    case AndAlso => 12
    case BitwiseOr => 11
    case BitwiseXor => 10
    case BitwiseAnd => 9
    case Equality => 8
    case Comparison => 7
    case Shift => 6
    case Concatenation => 5
    case Sum => 4
    case Product => 3
    case Roll => 2
    case Prefix => 1
    case Postfix => 0
  }

  /** The next tighter level. */
  function Tighter(n: Nonterminal): (t: Nonterminal)
    requires !n.Postfix?
    ensures Rank(t) < Rank(n)
  {
    match n
    case OrElse => AndAlso
    case AndAlso => BitwiseOr
    case BitwiseOr => BitwiseXor
    case BitwiseXor => BitwiseAnd
    case BitwiseAnd => Equality
    case Equality => Comparison
    case Comparison => Shift
    case Shift => Concatenation
    case Concatenation => Sum
    case Sum => Product
    case Product => Roll
    case Roll => Prefix
    case Prefix => Postfix
  }

  /** Operators associate to the left. */
  predicate Derives(n: Nonterminal, c: Cst)
    decreases c, Rank(n)
  {
    match n
    case Postfix => IsPostfix(c)
    case Prefix =>
      Derives(Postfix, c) || (c.CUnary? && c.op in {Minus, Bang, BitNot} && Derives(Prefix, c.operand))
    case _ =>
      Derives(Tighter(n), c) ||
      (c.CInfix? && c.op in Operators(n) && Derives(n, c.left) && Derives(Tighter(n), c.right))
  }

  predicate IsPostfix(c: Cst)
    decreases c, 0, 0
  {
    match c
    case CAtom(t) => t.Lit? || t.TypeName? || t.Identifier?
    case CParen(d) => Derives(OrElse, d)
    case CCall(f, args) => Derives(Postfix, f) && DerivesItems(args)
    case CIndex(a, i) => Derives(Postfix, a) && Derives(OrElse, i)
    case CMember(o, _) => Derives(Postfix, o)
    case CArray(es) => DerivesItems(es)
    case CMap(es) => DerivesEntries(es)
    case _ => false
  }

  predicate DerivesItems(cs: CList) {
    match cs
    case CNil => true
    case CCons(c, rest, _) => Derives(OrElse, c) && DerivesItems(rest)
  }

  predicate DerivesEntries(es: CEntries) {
    match es
    case ENil => true
    case ECons(k, v, rest, _) => Derives(OrElse, k) && Derives(OrElse, v) && DerivesEntries(rest)
  }

  /** The tree of a text. */
  function Meaning(c: Cst): Expr {
    match c
    case CAtom(t) => Atom(t)
    case CParen(d) => Meaning(d)
    case CUnary(op, d) => Unary(op, Meaning(d))
    case CInfix(op, l, r) =>
      if op in {AndAnd, OrOr} then Logical(op, Meaning(l), Meaning(r)) else Binary(op, Meaning(l), Meaning(r))
    case CCall(f, args) => Call(Meaning(f), ItemsMeaning(args))
    case CIndex(a, i) => Index(Meaning(a), Meaning(i))
    case CMember(o, x) => Member(Meaning(o), x)
    case CArray(es) => Array(ItemsMeaning(es))
    case CMap(es) => Map(EntriesMeaning(es))
  }

  function ItemsMeaning(cs: CList): Exprs {
    match cs
    case CNil => Nil
    case CCons(c, rest, _) => Cons(Meaning(c), ItemsMeaning(rest))
  }

  /** Keys and values alternate. */
  function EntriesMeaning(es: CEntries): Exprs {
    match es
    case ENil => Nil
    case ECons(k, v, rest, _) => Cons(Meaning(k), Cons(Meaning(v), EntriesMeaning(rest)))
  }

  /** Tokens that go on with an expression. */
  predicate Continues(t: Token) {
    t in {OrOr, AndAnd, BitOr, BitXor, BitAnd, EqualEqual, BangEqual, Less, LessEqual, Greater, GreaterEqual,
          Shl, Shr, ConcatOp, Plus, Minus, Star, Slash, Mod, Dice, ParenL, BracketL, Dot}
  }

  // ----- the same trees -----

  lemma {:induction false} MeaningIsTree(c: Cst)
    ensures Meaning(c) == Tree(c)
    decreases c
  {
    hide Precedence;
    match c
    case CAtom(_) =>
    case CParen(d) => MeaningIsTree(d);
    case CUnary(_, d) => MeaningIsTree(d);
    case CInfix(_, l, r) =>
      MeaningIsTree(l);
      MeaningIsTree(r);
    case CCall(f, args) =>
      MeaningIsTree(f);
      ItemsMeaningIsTree(args);
    case CIndex(a, i) =>
      MeaningIsTree(a);
      MeaningIsTree(i);
    case CMember(o, _) => MeaningIsTree(o);
    case CArray(es) => ItemsMeaningIsTree(es);
    case CMap(es) => EntriesMeaningIsTree(es);
  }

  lemma {:induction false} ItemsMeaningIsTree(cs: CList)
    ensures ItemsMeaning(cs) == ListTree(cs)
    decreases cs
  {
    hide Meaning, Tree;
    if cs.CCons? {
      MeaningIsTree(cs.head);
      ItemsMeaningIsTree(cs.tail);
    }
  }

  lemma {:induction false} EntriesMeaningIsTree(es: CEntries)
    ensures EntriesMeaning(es) == EntriesTree(es)
    decreases es
  {
    hide Meaning, Tree;
    if es.ECons? {
      MeaningIsTree(es.key);
      MeaningIsTree(es.value);
      EntriesMeaningIsTree(es.tail);
    }
  }

  // ----- the same language -----

  /** The level as the parser numbers it. */
  function Strength(n: Nonterminal): nat {
    14 - Rank(n)
  }

  lemma OperatorsAt(n: Nonterminal, t: Token)
    requires !n.Prefix? && !n.Postfix?
    ensures t in Operators(n) <==> IsInfixOp(t) && Precedence(t) == Strength(n)
  {
    hide Precedence, Operators;
    if n in {OrElse, AndAlso, BitwiseOr, BitwiseXor} { LooseOperators(n, t); }
    else if n in {BitwiseAnd, Equality, Comparison, Shift} { MiddleOperators(n, t); }
    else { TightOperators(n, t); }
  }

  lemma LooseOperators(n: Nonterminal, t: Token)
    requires n in {OrElse, AndAlso, BitwiseOr, BitwiseXor}
    ensures t in Operators(n) <==> IsInfixOp(t) && Precedence(t) == Strength(n)
  {
  }

  lemma MiddleOperators(n: Nonterminal, t: Token)
    requires n in {BitwiseAnd, Equality, Comparison, Shift}
    ensures t in Operators(n) <==> IsInfixOp(t) && Precedence(t) == Strength(n)
  {
  }

  lemma TightOperators(n: Nonterminal, t: Token)
    requires n in {Concatenation, Sum, Product, Roll}
    ensures t in Operators(n) <==> IsInfixOp(t) && Precedence(t) == Strength(n)
  {
  }

  lemma NextLevel(n: Nonterminal)
    requires !n.Postfix?
    ensures Strength(Tighter(n)) == Strength(n) + 1
  {
  }

  /** A nonterminal's texts are the grammatical ones that bind at least as tightly. */
  lemma {:induction false} SameTexts(n: Nonterminal, c: Cst)
    ensures Derives(n, c) <==> Grammatical(c) && Level(c) >= Strength(n)
    decreases c, Rank(n), 1
  {
    hide Precedence, Operators, Tighter, Meaning, Text, IsPostfix, Grammatical, Level;
    match n
    case Postfix => SamePostfix(c);
    case Prefix => SamePrefix(c);
    case _ => SameInfix(n, c);
  }

  lemma SameInfix(n: Nonterminal, c: Cst)
    requires !n.Prefix? && !n.Postfix?
    ensures Derives(n, c) <==> Grammatical(c) && Level(c) >= Strength(n)
    decreases c, Rank(n), 0
  {
    hide Precedence, Operators, Tighter, Rank, Text, IsPostfix;
    NextLevel(n);
    LowLevel(n);
    SameTexts(Tighter(n), c);
    if c.CInfix? {
      OperatorsAt(n, c.op);
      SameTexts(n, c.left);
      SameTexts(Tighter(n), c.right);
      LevelAbove(n, c.right);
    }
  }

  lemma LowLevel(n: Nonterminal)
    requires !n.Prefix? && !n.Postfix?
    ensures 1 <= Strength(n) <= 12
  {
  }

  lemma LevelAbove(n: Nonterminal, c: Cst)
    requires !n.Prefix? && !n.Postfix?
    ensures Above(Strength(n), c) <==> Level(c) >= Strength(Tighter(n))
  {
    hide Precedence;
    NextLevel(n);
  }

  lemma SamePrefix(c: Cst)
    ensures Derives(Prefix, c) <==> Grammatical(c) && Level(c) >= Strength(Prefix)
    decreases c, Rank(Prefix), 0
  {
    hide Precedence, Text, IsPostfix;
    SameTexts(Postfix, c);
    if c.CUnary? {
      SameTexts(Prefix, c.operand);
      if Grammatical(c.operand) { NotInfix(c.operand); }
    } else if c.CInfix? {
      if Grammatical(c) { InfixLevel(c); }
    }
  }

  lemma NotInfix(c: Cst)
    requires Grammatical(c)
    ensures Above(UNARY, c) <==> Level(c) >= UNARY
  {
    hide Text;
  }

  lemma InfixLevel(c: Cst)
    requires c.CInfix? && Grammatical(c)
    ensures Level(c) < UNARY
  {
    hide Text;
  }

  lemma SamePostfix(c: Cst)
    ensures Derives(Postfix, c) <==> Grammatical(c) && Level(c) >= Strength(Postfix)
    decreases c, 0, 0, 0
  {
    hide Precedence, Text;
    match c
    case CAtom(_) =>
    case CParen(d) => SameExpression(d);
    case CUnary(_, _) =>
    case CInfix(_, _, _) => if Grammatical(c) { InfixLevel(c); }
    case CCall(f, args) =>
      SamePostfixes(f);
      SameItems(args);
    case CIndex(a, i) =>
      SamePostfixes(a);
      SameExpression(i);
    case CMember(o, _) => SamePostfixes(o);
    case CArray(es) => SameItems(es);
    case CMap(es) => SameEntries(es);
  }

  lemma SamePostfixes(c: Cst)
    ensures Derives(Postfix, c) <==> Grammatical(c) && Level(c) == CALL
    decreases c, 14
  {
    hide Precedence, Text, Grammatical, Derives;
    SameTexts(Postfix, c);
    AtMostCall(c);
  }

  lemma AtMostCall(c: Cst)
    ensures Level(c) <= CALL
  {
  }

  /** The start symbol derives exactly the grammatical texts. */
  lemma SameExpression(c: Cst)
    ensures Derives(OrElse, c) <==> Grammatical(c)
    decreases c, 14
  {
    hide Text, Derives, Precedence;
    SameTexts(OrElse, c);
    if Grammatical(c) && c.CInfix? { SomeLevel(c.op); }
  }

  lemma SomeLevel(t: Token)
    requires IsInfixOp(t)
    ensures Precedence(t) >= 1
  {
  }

  lemma {:induction false} SameItems(cs: CList)
    ensures DerivesItems(cs) <==> GrammaticalList(cs)
    decreases cs
  {
    hide Derives, Grammatical;
    if cs.CCons? {
      SameExpression(cs.head);
      SameItems(cs.tail);
    }
  }

  lemma {:induction false} SameEntries(es: CEntries)
    ensures DerivesEntries(es) <==> GrammaticalEntries(es)
    decreases es
  {
    hide Derives, Grammatical;
    if es.ECons? {
      SameExpression(es.key);
      SameExpression(es.value);
      SameEntries(es.tail);
    }
  }

  // ----- the parser -----

  lemma NextContinues(s: seq<Token>)
    ensures Next(s) == NONE <==> s == [] || !Continues(s[0])
  {
  }

  /** Every text of the grammar is read to its end, as its tree. */
  lemma ParserReads(c: Cst, s: seq<Token>)
    requires Derives(OrElse, c) && (s == [] || !Continues(s[0]))
    ensures ParseExpr(0, Text(c) + s) == Parsed(Meaning(c), s, true)
  {
    hide ParseExpr, Text, Tree, Meaning, Grammatical, Derives, Precedence, Continues;
    SameExpression(c);
    MeaningIsTree(c);
    NextContinues(s);
    AboveNone(c);
    ReadsAll(NONE, c, s);
  }

  /** Whatever is read without an error is a text of the grammar, as long as it goes on. */
  lemma ParserReadsOnly(ts: seq<Token>) returns (c: Cst)
    requires ParseExpr(0, ts).ok
    ensures var r := ParseExpr(0, ts);
            Derives(OrElse, c) && Text(c) + r.rest == ts && Meaning(c) == r.e && (r.rest == [] || !Continues(r.rest[0]))
  {
    hide ParseExpr, Text, Tree, Meaning, Grammatical, Derives, Precedence, Continues;
    c := SoundExpr(NONE, ts);
    SameExpression(c);
    MeaningIsTree(c);
    NextContinues(ParseExpr(0, ts).rest);
  }
}
