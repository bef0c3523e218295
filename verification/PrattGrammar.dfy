/**
 The parser reads the grammar's language: every grammatical text is read completely and
 gives its tree.
 */
module PrattGrammar {
  import opened Syntax
  import opened Pratt

  /** Tokens that can begin an expression; none of them closes a list. */
  predicate Starts(t: Token) {
    IsAtom(t) || IsPrefixOp(t) || t == ParenL || t == BracketL || t == BraceL
  }

  lemma {:induction false} FirstToken(c: Cst)
    requires Grammatical(c)
    ensures Starts(Text(c)[0])
    decreases c
  {
    match c
    case CInfix(_, l, _) => FirstToken(l);
    case CCall(f, _) => FirstToken(f);
    case CIndex(a, _) => FirstToken(a);
    case CMember(o, _) => FirstToken(o);
    case _ =>
  }

  // ----- unfoldings -----

  lemma ExprIs(p: nat, t: Token, ts: seq<Token>)
    ensures ParseExpr(p, [t] + ts) == Climb(p, ParsePrefix(t, ts))
  {
    hide Climb, ParsePrefix;
    assert ([t] + ts)[1..] == ts;
  }

  lemma ClimbStops(p: nat, left: Parsed)
    requires Next(left.rest) <= p
    ensures Climb(p, left) == left
  {
    hide ParseInfix;
  }

  lemma ClimbOn(p: nat, e: Expr, t: Token, ts: seq<Token>)
    requires p < Precedence(t)
    ensures Climb(p, Parsed(e, [t] + ts, true)) == Climb(p, ParseInfix(t, e, ts))
  {
    hide ParseInfix, Precedence;
    assert ([t] + ts)[1..] == ts;
  }

  lemma ExpectTakes(e: Expr, t: Token, ts: seq<Token>)
    ensures Expect(Parsed(e, [t] + ts, true), t) == Parsed(e, ts, true)
  {
  }

  // ----- every grammatical text is read -----

  ghost predicate IsRead(p: nat, c: Cst, s: seq<Token>) {
    ParseExpr(p, Text(c) + s) == Climb(p, Parsed(Tree(c), s, true))
  }

  /** Read at level `p`, a text that may stand there becomes the left operand of whatever
      follows it, provided that does not bind more tightly than the text itself. */
  lemma {:induction false} Reads(p: nat, c: Cst, s: seq<Token>)
    requires p <= UNARY && Grammatical(c) && Above(p, c) && Next(s) <= Level(c)
    ensures IsRead(p, c, s)
    decreases c, 1
  {
    hide ParseExpr, Climb, ParsePrefix, ParseInfix, Precedence, IsRead;
    match c
    case CAtom(_) => ReadsAtom(p, c, s);
    case CParen(_) => ReadsParen(p, c, s);
    case CUnary(_, _) => ReadsUnary(p, c, s);
    case CInfix(_, _, _) => ReadsInfix(p, c, s);
    case CCall(_, _) => ReadsCall(p, c, s);
    case CIndex(_, _) => ReadsIndex(p, c, s);
    case CMember(_, _) => ReadsMember(p, c, s);
    case CArray(_) => ReadsArray(p, c, s);
    case CMap(_) => ReadsMap(p, c, s);
  }

  lemma ReadsAtom(p: nat, c: Cst, s: seq<Token>)
    requires c.CAtom? && Grammatical(c)
    ensures IsRead(p, c, s)
  {
    hide Climb;
    AtomReads(c.t, s);
    ExprIs(p, c.t, s);
  }

  lemma ReadsParen(p: nat, c: Cst, s: seq<Token>)
    requires c.CParen? && Grammatical(c)
    ensures IsRead(p, c, s)
    decreases c, 0
  {
    hide ParseExpr, Climb, ParsePrefix, Precedence;
    var d := c.inner;
    AboveNone(d);
    PostfixPower();
    ReadsAll(NONE, d, [ParenR] + s);
    ParenReads(d, s);
    ExprIs(p, ParenL, Text(d) + [ParenR] + s);
    assert Text(c) + s == [ParenL] + (Text(d) + [ParenR] + s);
  }

  lemma ReadsUnary(p: nat, c: Cst, s: seq<Token>)
    requires c.CUnary? && Grammatical(c) && Next(s) <= UNARY
    ensures IsRead(p, c, s)
    decreases c, 0
  {
    hide ParseExpr, Climb, ParsePrefix, Precedence;
    OperandLevel(c.operand);
    ReadsAll(UNARY, c.operand, s);
    UnaryReads(c.op, c.operand, s);
    ExprIs(p, c.op, Text(c.operand) + s);
    assert Text(c) + s == [c.op] + (Text(c.operand) + s);
  }

  lemma ReadsInfix(p: nat, c: Cst, s: seq<Token>)
    requires c.CInfix? && Grammatical(c) && p < Precedence(c.op) && Next(s) <= Precedence(c.op)
    ensures IsRead(p, c, s)
    decreases c, 0
  {
    hide ParseExpr, Climb, ParseInfix, Precedence;
    var op, l, r := c.op, c.left, c.right;
    var q := Precedence(op);
    assert Text(c) + s == Text(l) + ([op] + (Text(r) + s));
    Reads(p, l, [op] + (Text(r) + s));
    ClimbOn(p, Tree(l), op, Text(r) + s);
    RightLevel(q, r);
    ReadsAll(q, r, s);
    InfixReads(op, Tree(l), r, s);
  }

  lemma ReadsCall(p: nat, c: Cst, s: seq<Token>)
    requires p <= UNARY && c.CCall? && Grammatical(c)
    ensures IsRead(p, c, s)
    decreases c, 0
  {
    hide ParseExpr, Climb, ParseInfix, Precedence;
    var f := c.callee;
    var t := ListText(c.args) + [ParenR] + s;
    assert Text(c) + s == Text(f) + ([ParenL] + t);
    LeftAbove(p, f);
    PostfixPower();
    Reads(p, f, [ParenL] + t);
    ClimbOn(p, Tree(f), ParenL, t);
    ReadsItems(ParenR, c.args, s);
    CallReads(Tree(f), c.args, s);
  }

  lemma ReadsIndex(p: nat, c: Cst, s: seq<Token>)
    requires p <= UNARY && c.CIndex? && Grammatical(c)
    ensures IsRead(p, c, s)
    decreases c, 0
  {
    hide ParseExpr, Climb, ParseInfix, Precedence;
    var a, i := c.target, c.index;
    var t := Text(i) + [BracketR] + s;
    assert Text(c) + s == Text(a) + ([BracketL] + t);
    LeftAbove(p, a);
    PostfixPower();
    Reads(p, a, [BracketL] + t);
    ClimbOn(p, Tree(a), BracketL, t);
    AboveNone(i);
    ReadsAll(NONE, i, [BracketR] + s);
    IndexReads(Tree(a), i, s);
  }

  lemma ReadsMember(p: nat, c: Cst, s: seq<Token>)
    requires p <= UNARY && c.CMember? && Grammatical(c)
    ensures IsRead(p, c, s)
    decreases c, 0
  {
    hide ParseExpr, Climb, ParseInfix, Precedence;
    var o, x := c.obj, c.name;
    var t := [Identifier(x)] + s;
    assert Text(c) + s == Text(o) + ([Dot] + t);
    LeftAbove(p, o);
    PostfixPower();
    Reads(p, o, [Dot] + t);
    ClimbOn(p, Tree(o), Dot, t);
    MemberReads(Tree(o), x, s);
  }

  lemma ReadsArray(p: nat, c: Cst, s: seq<Token>)
    requires c.CArray? && Grammatical(c)
    ensures IsRead(p, c, s)
    decreases c, 0
  {
    hide ParseExpr, Climb, ParsePrefix, Precedence, Text, Tree, ListText, ListTree;
    BracketText(c, s);
    ReadsItems(BracketR, c.elements, s);
    ArrayReads(c.elements, s);
    ExprIs(p, BracketL, ListText(c.elements) + [BracketR] + s);
  }

  lemma BracketText(c: Cst, s: seq<Token>)
    ensures c.CArray? ==> Tree(c) == Array(ListTree(c.elements)) &&
                          Text(c) + s == [BracketL] + (ListText(c.elements) + [BracketR] + s)
    ensures c.CMap? ==> Tree(c) == Map(EntriesTree(c.entries)) &&
                        Text(c) + s == [BraceL] + (EntriesText(c.entries) + [BraceR] + s)
  {
    hide ListText, ListTree, EntriesText, EntriesTree;
  }

  lemma ReadsMap(p: nat, c: Cst, s: seq<Token>)
    requires c.CMap? && Grammatical(c)
    ensures IsRead(p, c, s)
    decreases c, 0
  {
    hide ParseExpr, Climb, ParsePrefix, Precedence, Text, Tree, EntriesText, EntriesTree;
    BracketText(c, s);
    ReadsEntries(c.entries, s);
    MapReads(c.entries, s);
    ExprIs(p, BraceL, EntriesText(c.entries) + [BraceR] + s);
  }

  /** Read where nothing that follows binds more tightly than `p`, exactly the text is taken. */
  lemma {:induction false} ReadsAll(p: nat, c: Cst, s: seq<Token>)
    requires p <= UNARY && Grammatical(c) && Above(p, c) && Next(s) <= p && p <= Level(c)
    ensures ParseExpr(p, Text(c) + s) == Parsed(Tree(c), s, true)
    decreases c, 2
  {
    hide ParseExpr, Climb, Text, Tree, Grammatical;
    Reads(p, c, s);
    ClimbStops(p, Parsed(Tree(c), s, true));
  }

  lemma AboveNone(c: Cst)
    requires Grammatical(c)
    ensures Above(NONE, c)
  {
    hide Text, Tree;
  }

  lemma OperandLevel(d: Cst)
    requires Grammatical(d) && Above(UNARY, d)
    ensures Level(d) >= UNARY
  {
    hide Text, Tree;
  }

  lemma RightLevel(q: nat, r: Cst)
    requires q < UNARY && Above(q, r)
    ensures q <= Level(r)
  {
    hide Text, Tree;
  }

  lemma LeftAbove(p: nat, f: Cst)
    requires Grammatical(f) && Level(f) == CALL
    ensures Above(p, f)
  {
    hide Text, Tree;
  }

  lemma PostfixPower()
    ensures Precedence(ParenL) == Precedence(BracketL) == Precedence(Dot) == CALL
    ensures Precedence(ParenR) == Precedence(BracketR) == Precedence(BraceR) == Precedence(Comma) == Precedence(Colon) == NONE
  {
  }

  lemma AtomReads(t: Token, s: seq<Token>)
    requires IsAtom(t)
    ensures ParsePrefix(t, s) == Parsed(Atom(t), s, true)
  {
  }

  lemma ParenReads(d: Cst, s: seq<Token>)
    requires ParseExpr(NONE, Text(d) + ([ParenR] + s)) == Parsed(Tree(d), [ParenR] + s, true)
    ensures ParsePrefix(ParenL, Text(d) + [ParenR] + s) == Parsed(Tree(d), s, true)
  {
    hide ParseExpr, Text, Tree;
    assert Text(d) + [ParenR] + s == Text(d) + ([ParenR] + s);
    ExpectTakes(Tree(d), ParenR, s);
  }

  lemma UnaryReads(op: Token, d: Cst, s: seq<Token>)
    requires IsPrefixOp(op) && ParseExpr(UNARY, Text(d) + s) == Parsed(Tree(d), s, true)
    ensures ParsePrefix(op, Text(d) + s) == Parsed(Unary(op, Tree(d)), s, true)
  {
    hide ParseExpr, Text, Tree;
  }

  lemma InfixReads(op: Token, l: Expr, r: Cst, s: seq<Token>)
    requires IsInfixOp(op) && ParseExpr(Precedence(op), Text(r) + s) == Parsed(Tree(r), s, true)
    ensures ParseInfix(op, l, Text(r) + s) == Parsed(InfixNode(op, l, Tree(r)), s, true)
  {
    hide ParseExpr, Text, Tree, Precedence;
  }

  lemma CallReads(f: Expr, args: CList, s: seq<Token>)
    requires ParseItems(ParenR, ListText(args) + [ParenR] + s) == ParsedList(ListTree(args), [ParenR] + s, true)
    ensures ParseInfix(ParenL, f, ListText(args) + [ParenR] + s) == Parsed(Call(f, ListTree(args)), s, true)
  {
    hide ParseExpr, ListText, ListTree;
    if NextIs(ListText(args) + [ParenR] + s, ParenR) { NoItems(ParenR, ListText(args) + [ParenR] + s); }
    ExpectTakes(Call(f, ListTree(args)), ParenR, s);
  }

  lemma NoItems(close: Token, ts: seq<Token>)
    requires NextIs(ts, close)
    ensures ParseItems(close, ts) == ParsedList(Nil, ts, true)
  {
    hide ParseExpr;
  }

  lemma IndexReads(a: Expr, i: Cst, s: seq<Token>)
    requires ParseExpr(NONE, Text(i) + ([BracketR] + s)) == Parsed(Tree(i), [BracketR] + s, true)
    ensures ParseInfix(BracketL, a, Text(i) + [BracketR] + s) == Parsed(Index(a, Tree(i)), s, true)
  {
    hide ParseExpr, Text, Tree;
    assert Text(i) + [BracketR] + s == Text(i) + ([BracketR] + s);
    ExpectTakes(Index(a, Tree(i)), BracketR, s);
  }

  lemma MemberReads(o: Expr, x: NameId, s: seq<Token>)
    ensures ParseInfix(Dot, o, [Identifier(x)] + s) == Parsed(Member(o, x), s, true)
  {
  }

  lemma ArrayReads(es: CList, s: seq<Token>)
    requires ParseItems(BracketR, ListText(es) + [BracketR] + s) == ParsedList(ListTree(es), [BracketR] + s, true)
    ensures ParsePrefix(BracketL, ListText(es) + [BracketR] + s) == Parsed(Array(ListTree(es)), s, true)
  {
    hide ParseExpr, ListText, ListTree;
    if NextIs(ListText(es) + [BracketR] + s, BracketR) { NoItems(BracketR, ListText(es) + [BracketR] + s); }
    ExpectTakes(Array(ListTree(es)), BracketR, s);
  }

  lemma MapReads(es: CEntries, s: seq<Token>)
    requires ParseEntries(EntriesText(es) + [BraceR] + s) == ParsedList(EntriesTree(es), [BraceR] + s, true)
    requires (EntriesText(es) + [BraceR] + s)[0] != BracketR
    ensures ParsePrefix(BraceL, EntriesText(es) + [BraceR] + s) == Parsed(Map(EntriesTree(es)), s, true)
  {
    hide ParseExpr, EntriesText, EntriesTree;
    ExpectTakes(Map(EntriesTree(es)), BraceR, s);
  }

  lemma {:induction false} ReadsItems(close: Token, cs: CList, s: seq<Token>)
    requires GrammaticalList(cs) && (close == ParenR || close == BracketR)
    ensures ParseItems(close, ListText(cs) + [close] + s) == ParsedList(ListTree(cs), [close] + s, true)
    decreases cs
  {
    hide ParseExpr, Text, Tree, Grammatical, Precedence;
    PostfixPower();
    var ts := ListText(cs) + [close] + s;
    if cs == CNil {
      assert ts == [close] + s;
      NoItems(close, ts);
    } else {
      FirstToken(cs.head);
      var comma := cs.tail != CNil || cs.trailing;
      var after := if comma then [Comma] + (ListText(cs.tail) + [close] + s) else [close] + s;
      if comma {
        assert ts == Text(cs.head) + after;
      } else {
        NoItemsText();
        assert ts == Text(cs.head) + after;
      }
      AboveNone(cs.head);
      ReadsAll(NONE, cs.head, after);
      ReadsItems(close, cs.tail, s);
      ItemReads(close, ts, Tree(cs.head), after);
      if comma { assert after[1..] == ListText(cs.tail) + [close] + s; }
    }
  }

  lemma NoItemsText()
    ensures ListText(CNil) == [] && EntriesText(ENil) == []
  {
  }

  lemma ItemReads(close: Token, ts: seq<Token>, e: Expr, after: seq<Token>)
    requires ts != [] && ts[0] != close && ParseExpr(NONE, ts) == Parsed(e, after, true)
    ensures ParseItems(close, ts) ==
            if NextIs(after, Comma) then
              var more := ParseItems(close, after[1..]);
              ParsedList(Cons(e, more.es), more.rest, more.ok)
            else ParsedList(Cons(e, Nil), after, true)
  {
    hide ParseExpr;
  }

  lemma {:induction false} ReadsEntries(es: CEntries, s: seq<Token>)
    requires GrammaticalEntries(es)
    ensures ParseEntries(EntriesText(es) + [BraceR] + s) == ParsedList(EntriesTree(es), [BraceR] + s, true)
    ensures (EntriesText(es) + [BraceR] + s)[0] != BracketR
    decreases es
  {
    hide ParseExpr, Text, Tree, Grammatical, Precedence;
    PostfixPower();
    var ts := EntriesText(es) + [BraceR] + s;
    if es == ENil {
      assert ts == [BraceR] + s;
      NoEntries(ts);
    } else {
      FirstToken(es.key);
      var comma := es.tail != ENil || es.trailing;
      var after := if comma then [Comma] + (EntriesText(es.tail) + [BraceR] + s) else [BraceR] + s;
      if comma {
        assert ts == Text(es.key) + ([Colon] + (Text(es.value) + after));
      } else {
        NoItemsText();
        assert ts == Text(es.key) + ([Colon] + (Text(es.value) + after));
      }
      AboveNone(es.key);
      AboveNone(es.value);
      ReadsAll(NONE, es.key, [Colon] + (Text(es.value) + after));
      ReadsAll(NONE, es.value, after);
      ReadsEntries(es.tail, s);
      EntryReads(ts, Tree(es.key), Text(es.value) + after, Tree(es.value), after);
      if comma { assert after[1..] == EntriesText(es.tail) + [BraceR] + s; }
    }
  }

  lemma NoEntries(ts: seq<Token>)
    requires NextIs(ts, BraceR)
    ensures ParseEntries(ts) == ParsedList(Nil, ts, true)
  {
    hide ParseExpr;
  }

  lemma EntryReads(ts: seq<Token>, k: Expr, ts1: seq<Token>, v: Expr, after: seq<Token>)
    requires ts != [] && ts[0] != BraceR && ParseExpr(NONE, ts) == Parsed(k, [Colon] + ts1, true)
    requires ParseExpr(NONE, ts1) == Parsed(v, after, true)
    ensures ParseEntries(ts) ==
            if NextIs(after, Comma) then
              var more := ParseEntries(after[1..]);
              ParsedList(Cons(k, Cons(v, more.es)), more.rest, more.ok)
            else ParsedList(Cons(k, Cons(v, Nil)), after, true)
  {
    hide ParseExpr;
    ExpectTakes(k, Colon, ts1);
  }
}
