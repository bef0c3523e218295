/**
 Printing trees with the fewest parentheses the precedences allow.  Parsing the text of a
 printed tree gives the tree back, and no other text of the tree has fewer parentheses.
 */
module PrattPrint {
  import opened Syntax
  import opened Pratt
  import opened PrattGrammar

  /** Trees the parser can return without an error. */
  predicate Printable(e: Expr) {
    match e
    case Atom(t) => IsAtom(t)
    case Unary(op, d) => IsPrefixOp(op) && Printable(d)
    case Binary(op, l, r) => IsInfixOp(op) && !IsLogical(op) && Printable(l) && Printable(r)
    case Logical(op, l, r) => IsLogical(op) && Printable(l) && Printable(r)
    case Call(f, args) => Printable(f) && PrintableList(args)
    case Index(a, i) => Printable(a) && Printable(i)
    case Member(o, _) => Printable(o)
    case Array(es) => PrintableList(es)
    case Map(es) => PrintableEntries(es)
    case Error => false
  }

  predicate PrintableList(es: Exprs) {
    match es
    case Nil => true
    case Cons(e, rest) => Printable(e) && PrintableList(rest)
  }

  /** Keys and values alternate. */
  predicate PrintableEntries(es: Exprs) {
    match es
    case Nil => true
    case Cons(k, Nil) => false
    case Cons(k, Cons(v, rest)) => Printable(k) && Printable(v) && PrintableEntries(rest)
  }

  function TreeLevel(e: Expr): nat {
    match e
    case Binary(op, _, _) => Precedence(op)
    case Logical(op, _, _) => Precedence(op)
    case Unary(_, _) => UNARY
    case _ => CALL
  }

  predicate IsOperator(e: Expr) {
    e.Binary? || e.Logical?
  }

  function Show(e: Expr): Cst
    decreases e, 0
  {
    match e
    case Atom(t) => CAtom(t)
    case Unary(op, d) => CUnary(op, ShowRight(UNARY, d))
    case Binary(op, l, r) => CInfix(op, ShowLeft(Precedence(op), l), ShowRight(Precedence(op), r))
    case Logical(op, l, r) => CInfix(op, ShowLeft(Precedence(op), l), ShowRight(Precedence(op), r))
    case Call(f, args) => CCall(ShowLeft(CALL, f), ShowList(args))
    case Index(a, i) => CIndex(ShowLeft(CALL, a), Show(i))
    case Member(o, x) => CMember(ShowLeft(CALL, o), x)
    case Array(es) => CArray(ShowList(es))
    case Map(es) => CMap(ShowEntries(es))
    case Error => CAtom(Comma)
  }

  /** As the operand to the right of something that binds at `p`. */
  function ShowRight(p: nat, e: Expr): Cst
    decreases e, 1
  {
    if IsOperator(e) && TreeLevel(e) <= p then CParen(Show(e)) else Show(e)
  }

  /** As the operand to the left of something that binds at `q`. */
  function ShowLeft(q: nat, e: Expr): Cst
    decreases e, 1
  {
    if TreeLevel(e) < q then CParen(Show(e)) else Show(e)
  }

  function ShowList(es: Exprs): CList {
    match es
    case Nil => CNil
    case Cons(e, rest) => CCons(Show(e), ShowList(rest), false)
  }

  function ShowEntries(es: Exprs): CEntries {
    match es
    case Nil => ENil
    case Cons(k, Nil) => ENil
    case Cons(k, Cons(v, rest)) => ECons(Show(k), Show(v), ShowEntries(rest), false)
  }

  ghost predicate Shows(e: Expr, c: Cst) {
    Grammatical(c) && Tree(c) == e
  }

  lemma {:induction false} ShowIs(e: Expr)
    requires Printable(e)
    ensures Shows(e, Show(e)) && Level(Show(e)) == TreeLevel(e) && (Show(e).CInfix? <==> IsOperator(e))
    decreases e, 0
  {
    hide Precedence, Text;
    match e
    case Atom(_) =>
    case Unary(_, d) => RightIs(UNARY, d);
    case Binary(_, _, _) => OperatorIs(e);
    case Logical(_, _, _) => OperatorIs(e);
    case Call(_, _) => PostfixIs(e);
    case Index(_, _) => PostfixIs(e);
    case Member(_, _) => PostfixIs(e);
    case Array(es) => ListIs(es);
    case Map(es) => EntriesAre(es);
  }

  lemma OperatorIs(e: Expr)
    requires Printable(e) && (e.Binary? || e.Logical?)
    ensures Shows(e, Show(e)) && Level(Show(e)) == TreeLevel(e) && Show(e).CInfix?
    decreases e, 0, 0
  {
    hide Precedence, Text;
    if e.Logical? { LogicalPower(e.op); }
    LeftIs(Precedence(e.op), e.left);
    RightIs(Precedence(e.op), e.right);
  }

  lemma PostfixIs(e: Expr)
    requires Printable(e) && (e.Call? || e.Index? || e.Member?)
    ensures Shows(e, Show(e)) && Level(Show(e)) == TreeLevel(e) && !Show(e).CInfix?
    decreases e, 0, 0
  {
    hide Precedence, Text;
    match e
    case Call(f, args) =>
      LeftIs(CALL, f);
      ListIs(args);
    case Index(a, i) =>
      LeftIs(CALL, a);
      ShowIs(i);
    case Member(o, _) => LeftIs(CALL, o);
  }

  lemma LogicalPower(op: Token)
    requires IsLogical(op)
    ensures IsInfixOp(op)
  {
  }

  lemma RightIs(p: nat, e: Expr)
    requires Printable(e)
    ensures Shows(e, ShowRight(p, e)) && Above(p, ShowRight(p, e))
    decreases e, 1
  {
    hide Text, Precedence, Printable, Grammatical, Show;
    ShowIs(e);
    ParenIs(e);
    OperatorLevel(e);
  }

  lemma OperatorLevel(e: Expr)
    requires Printable(e) && Level(Show(e)) == TreeLevel(e) && (Show(e).CInfix? <==> IsOperator(e))
    ensures IsOperator(e) ==> Precedence(Show(e).op) == TreeLevel(e)
  {
    hide Text, Precedence, Printable, Grammatical, Show;
  }

  lemma ParenIs(e: Expr)
    requires Shows(e, Show(e))
    ensures Shows(e, CParen(Show(e)))
  {
    hide Text, Precedence, Show;
  }

  lemma LeftIs(q: nat, e: Expr)
    requires Printable(e) && q <= CALL
    ensures Shows(e, ShowLeft(q, e)) && Level(ShowLeft(q, e)) >= q
    decreases e, 1
  {
    hide Text, Precedence, Printable, Grammatical, Show;
    ShowIs(e);
    ParenIs(e);
  }

  lemma {:induction false} ListIs(es: Exprs)
    requires PrintableList(es)
    ensures GrammaticalList(ShowList(es)) && ListTree(ShowList(es)) == es
    decreases es
  {
    hide Text, Precedence, Printable, Grammatical, Show, Tree;
    if es.Cons? {
      ShowIs(es.head);
      ListIs(es.tail);
    }
  }

  lemma {:induction false} EntriesAre(es: Exprs)
    requires PrintableEntries(es)
    ensures GrammaticalEntries(ShowEntries(es)) && EntriesTree(ShowEntries(es)) == es
    decreases es
  {
    hide Text, Precedence, Printable, Grammatical, Show, Tree;
    if es.Cons? {
      ShowIs(es.head);
      ShowIs(es.tail.head);
      EntriesAre(es.tail.tail);
    }
  }

  /** Printing and parsing are inverse: the tree comes back, and exactly what follows the
      text is left over. */
  lemma RoundTrip(e: Expr, s: seq<Token>)
    requires Printable(e) && Next(s) == NONE
    ensures ParseExpr(NONE, Text(Show(e)) + s) == Parsed(e, s, true)
  {
    hide ParseExpr, Text, Tree, Grammatical, Printable, Show;
    ShowIs(e);
    AboveNone(Show(e));
    ReadsAll(NONE, Show(e), s);
  }

  // ----- no text has fewer parentheses -----

  function Parens(c: Cst): nat {
    match c
    case CAtom(_) => 0
    case CParen(d) => 1 + Parens(d)
    case CUnary(_, d) => Parens(d)
    case CInfix(_, l, r) => Parens(l) + Parens(r)
    case CCall(f, args) => Parens(f) + ListParens(args)
    case CIndex(a, i) => Parens(a) + Parens(i)
    case CMember(o, _) => Parens(o)
    case CArray(es) => ListParens(es)
    case CMap(es) => EntriesParens(es)
  }

  function ListParens(cs: CList): nat {
    match cs
    case CNil => 0
    case CCons(c, rest, _) => Parens(c) + ListParens(rest)
  }

  function EntriesParens(es: CEntries): nat {
    match es
    case ENil => 0
    case ECons(k, v, rest, _) => Parens(k) + Parens(v) + EntriesParens(rest)
  }

  /** The printed tree has at most as many parentheses as any grammatical text of the tree. */
  lemma {:induction false} FewestParens(c: Cst)
    requires Grammatical(c)
    ensures Parens(Show(Tree(c))) <= Parens(c)
    ensures !c.CParen? ==> TreeLevel(Tree(c)) == Level(c) && (IsOperator(Tree(c)) <==> c.CInfix?)
    decreases c, 0
  {
    hide Precedence, Text;
    match c
    case CAtom(_) =>
    case CParen(d) => FewestParens(d);
    case CUnary(_, d) => FewestRight(UNARY, d);
    case CInfix(op, l, r) =>
      FewestLeft(Precedence(op), l);
      FewestRight(Precedence(op), r);
    case CCall(f, args) =>
      FewestLeft(CALL, f);
      FewestList(args);
    case CIndex(a, i) =>
      FewestLeft(CALL, a);
      FewestParens(i);
    case CMember(o, _) => FewestLeft(CALL, o);
    case CArray(es) => FewestList(es);
    case CMap(es) => FewestEntries(es);
  }

  lemma FewestRight(p: nat, c: Cst)
    requires Grammatical(c) && Above(p, c)
    ensures Parens(ShowRight(p, Tree(c))) <= Parens(c)
    decreases c, 1
  {
    hide Precedence, Text, Grammatical, Show;
    FewestParens(c);
    if c.CParen? { Inside(c); }
  }

  lemma FewestLeft(q: nat, c: Cst)
    requires Grammatical(c) && Level(c) >= q
    ensures Parens(ShowLeft(q, Tree(c))) <= Parens(c)
    decreases c, 1
  {
    hide Precedence, Text, Grammatical, Show;
    FewestParens(c);
    if c.CParen? { Inside(c); }
  }

  /** Below its own parentheses a text has one pair less. */
  lemma Inside(c: Cst)
    requires Grammatical(c) && c.CParen?
    ensures Parens(Show(Tree(c))) < Parens(c)
    decreases c, 0
  {
    hide Precedence, Text, Show;
    FewestParens(c.inner);
  }

  lemma {:induction false} FewestList(cs: CList)
    requires GrammaticalList(cs)
    ensures ListParens(ShowList(ListTree(cs))) <= ListParens(cs)
    decreases cs
  {
    hide Precedence, Text, Grammatical, Show, Parens, Tree;
    if cs.CCons? {
      FewestParens(cs.head);
      FewestList(cs.tail);
    }
  }

  lemma {:induction false} FewestEntries(es: CEntries)
    requires GrammaticalEntries(es)
    ensures EntriesParens(ShowEntries(EntriesTree(es))) <= EntriesParens(es)
    decreases es
  {
    hide Precedence, Text, Grammatical, Show, Parens, Tree;
    if es.ECons? {
      FewestParens(es.key);
      FewestParens(es.value);
      FewestEntries(es.tail);
    }
  }
}
