/**
 Whatever the parser reads without reporting an error is a text of the grammar, and the
 tree it returns is the tree of that text.
 */
module PrattSound {
  import opened Syntax
  import opened Pratt
  import opened PrattGrammar

  /** `c` is what was read from `ts` up to `r.rest`. */
  ghost predicate ReadAs(ts: seq<Token>, r: Parsed, c: Cst) {
    Grammatical(c) && Text(c) + r.rest == ts && Tree(c) == r.e && Next(r.rest) <= Level(c)
  }

  lemma {:induction false} ClimbOk(p: nat, left: Parsed)
    requires Climb(p, left).ok
    ensures left.ok
    decreases |left.rest|
  {
    hide ParseInfix;
    if p < Next(left.rest) {
      var next := ParseInfix(left.rest[0], left.e, left.rest[1..]);
      ClimbOk(p, next.(ok := left.ok && next.ok));
    }
  }

  /** The parser stops only where nothing more may be taken at this level. */
  lemma {:induction false} SoundExpr(p: nat, ts: seq<Token>) returns (c: Cst)
    requires ParseExpr(p, ts).ok
    ensures var r := ParseExpr(p, ts); ReadAs(ts, r, c) && Above(p, c) && Next(r.rest) <= p
    decreases |ts|, 3
  {
    hide ParsePrefix, Climb, Text, Tree, Grammatical;
    var left := ParsePrefix(ts[0], ts[1..]);
    ClimbOk(p, left);
    var d := SoundPrefix(ts[0], ts[1..]);
    assert [ts[0]] + ts[1..] == ts;
    c := SoundClimb(p, left, d, ts);
  }

  lemma {:induction false} SoundClimb(p: nat, left: Parsed, d: Cst, ts: seq<Token>) returns (c: Cst)
    requires Climb(p, left).ok && ReadAs(ts, left, d) && Above(p, d)
    ensures var r := Climb(p, left); ReadAs(ts, r, c) && Above(p, c) && Next(r.rest) <= p
    decreases |left.rest|, 1
  {
    hide ParseInfix, Text, Tree, Grammatical, Precedence;
    if p < Next(left.rest) {
      var t, s := left.rest[0], left.rest[1..];
      var next := ParseInfix(t, left.e, s);
      ClimbOk(p, left);
      ClimbOk(p, next.(ok := left.ok && next.ok));
      var e := SoundInfix(t, d, s, p);
      assert Text(d) + ([t] + s) == ts by { assert [t] + s == left.rest; }
      c := SoundClimb(p, next, e, ts);
    } else {
      c := d;
    }
  }

  lemma SoundPrefix(t: Token, ts: seq<Token>) returns (c: Cst)
    requires ParsePrefix(t, ts).ok
    ensures ReadAs([t] + ts, ParsePrefix(t, ts), c) && !c.CInfix?
    decreases |ts|, 6
  {
    hide ParseExpr, ParseItems, ParseEntries, ListText, ListTree, EntriesText, EntriesTree, Precedence;
    PostfixPower();
    if IsAtom(t) {
      c := CAtom(t);
      NextAtMost(ts);
    } else if IsPrefixOp(t) {
      c := SoundUnary(t, ts);
    } else if t == ParenL {
      c := SoundParen(ts);
    } else if t == BracketL {
      c := SoundArray(ts);
    } else {
      c := SoundMap(ts);
    }
  }

  lemma NextAtMost(ts: seq<Token>)
    ensures Next(ts) <= CALL
  {
    hide Precedence;
  }

  lemma SoundUnary(t: Token, ts: seq<Token>) returns (c: Cst)
    requires IsPrefixOp(t) && ParsePrefix(t, ts).ok
    ensures ReadAs([t] + ts, ParsePrefix(t, ts), c) && c.CUnary?
    decreases |ts|, 4
  {
    hide ParseExpr, Precedence;
    var d := SoundExpr(UNARY, ts);
    c := CUnary(t, d);
    var r := ParseExpr(UNARY, ts);
    assert Text(c) + r.rest == [t] + (Text(d) + r.rest);
  }

  lemma SoundParen(ts: seq<Token>) returns (c: Cst)
    requires ParsePrefix(ParenL, ts).ok
    ensures ReadAs([ParenL] + ts, ParsePrefix(ParenL, ts), c) && c.CParen?
    decreases |ts|, 4
  {
    hide ParseExpr, Precedence;
    var d := SoundExpr(NONE, ts);
    c := CParen(d);
    var r := ParseExpr(NONE, ts);
    ClosedText([ParenL], Text(d), ParenR, r.rest, ts);
    NextAtMost(r.rest[1..]);
  }

  /** A closing token taken by `Expect` completes the text. */
  lemma ClosedText(open: seq<Token>, inner: seq<Token>, close: Token, rest: seq<Token>, ts: seq<Token>)
    requires NextIs(rest, close) && inner + rest == ts
    ensures open + inner + [close] + rest[1..] == open + ts
  {
    assert [close] + rest[1..] == rest;
    assert open + inner + [close] + rest[1..] == open + (inner + ([close] + rest[1..]));
  }

  lemma SoundArray(ts: seq<Token>) returns (c: Cst)
    requires ParsePrefix(BracketL, ts).ok
    ensures ReadAs([BracketL] + ts, ParsePrefix(BracketL, ts), c) && c.CArray?
    decreases |ts|, 5
  {
    hide ParseItems, ParsePrefix, Precedence, ListText, ListTree;
    ArrayItems(ts);
    var es := SoundItems(BracketR, ts);
    c := CArray(es);
    var r := ParseItems(BracketR, ts);
    ClosedText([BracketL], ListText(es), BracketR, r.rest, ts);
    NextAtMost(r.rest[1..]);
  }

  /** Whether the list is empty is first decided by a look at the next token. */
  lemma ArrayItems(ts: seq<Token>)
    requires ParsePrefix(BracketL, ts).ok
    ensures var r := ParseItems(BracketR, ts);
            r.ok && NextIs(r.rest, BracketR) && ParsePrefix(BracketL, ts) == Parsed(Array(r.es), r.rest[1..], true)
  {
    hide ParseExpr, ParseItems;
    if NextIs(ts, BracketR) { NoItems(BracketR, ts); }
  }

  lemma CallItems(f: Expr, ts: seq<Token>)
    requires ParseInfix(ParenL, f, ts).ok
    ensures var r := ParseItems(ParenR, ts);
            r.ok && NextIs(r.rest, ParenR) && ParseInfix(ParenL, f, ts) == Parsed(Call(f, r.es), r.rest[1..], true)
  {
    hide ParseExpr, ParseItems;
    if NextIs(ts, ParenR) { NoItems(ParenR, ts); }
  }

  lemma MapEntries(ts: seq<Token>)
    requires ParsePrefix(BraceL, ts).ok
    ensures var r := ParseEntries(ts);
            r.ok && NextIs(r.rest, BraceR) && ParsePrefix(BraceL, ts) == Parsed(Map(r.es), r.rest[1..], true)
  {
    hide ParseExpr, ParseEntries;
  }

  lemma {:induction false} SoundItems(close: Token, ts: seq<Token>) returns (cs: CList)
    requires ParseItems(close, ts).ok
    ensures var r := ParseItems(close, ts); GrammaticalList(cs) && ListText(cs) + r.rest == ts && ListTree(cs) == r.es
    decreases |ts|, 4
  {
    hide ParseExpr, Text, Tree, Grammatical, Precedence;
    if NextIs(ts, close) {
      cs := CNil;
    } else {
      var item := ParseExpr(NONE, ts);
      var c := SoundExpr(NONE, ts);
      if NextIs(item.rest, Comma) {
        var rest := SoundItems(close, item.rest[1..]);
        cs := CCons(c, rest, true);
        assert [Comma] + item.rest[1..] == item.rest;
        JoinText(Text(c), [Comma], ListText(rest), ParseItems(close, item.rest[1..]).rest, item.rest[1..]);
      } else {
        cs := CCons(c, CNil, false);
        NoItemsText();
      }
    }
  }

  lemma JoinText(a: seq<Token>, b: seq<Token>, c: seq<Token>, rest: seq<Token>, ts: seq<Token>)
    requires c + rest == ts
    ensures a + b + c + rest == a + (b + ts)
  {
    assert a + b + c + rest == a + (b + (c + rest));
  }

  lemma SoundMap(ts: seq<Token>) returns (c: Cst)
    requires ParsePrefix(BraceL, ts).ok
    ensures ReadAs([BraceL] + ts, ParsePrefix(BraceL, ts), c) && c.CMap?
    decreases |ts|, 5
  {
    hide ParseEntries, ParsePrefix, Precedence, EntriesText, EntriesTree;
    MapEntries(ts);
    var es := SoundEntries(ts);
    c := CMap(es);
    var r := ParseEntries(ts);
    ClosedText([BraceL], EntriesText(es), BraceR, r.rest, ts);
    NextAtMost(r.rest[1..]);
  }

  lemma {:induction false} SoundEntries(ts: seq<Token>) returns (es: CEntries)
    requires ParseEntries(ts).ok
    ensures var r := ParseEntries(ts);
            GrammaticalEntries(es) && EntriesText(es) + r.rest == ts && EntriesTree(es) == r.es
    decreases |ts|, 4
  {
    hide ParseExpr, Text, Tree, Grammatical, Precedence;
    if NextIs(ts, BraceR) {
      es := ENil;
    } else {
      var key := ParseExpr(NONE, ts);
      var k := SoundExpr(NONE, ts);
      var ts1 := key.rest[1..];
      assert [Colon] + ts1 == key.rest;
      var value := ParseExpr(NONE, ts1);
      var v := SoundExpr(NONE, ts1);
      if NextIs(value.rest, Comma) {
        var rest := SoundEntries(value.rest[1..]);
        es := ECons(k, v, rest, true);
        assert [Comma] + value.rest[1..] == value.rest;
        JoinText(Text(k) + [Colon] + Text(v), [Comma], EntriesText(rest), ParseEntries(value.rest[1..]).rest,
                 value.rest[1..]);
        JoinText(Text(k), [Colon], Text(v), value.rest, ts1);
      } else {
        es := ECons(k, v, ENil, false);
        NoItemsText();
        JoinText(Text(k), [Colon], Text(v), value.rest, ts1);
      }
    }
  }

  /** One more construct on top of the text `l`. */
  lemma SoundInfix(t: Token, l: Cst, ts: seq<Token>, p: nat) returns (c: Cst)
    requires ParseInfix(t, Tree(l), ts).ok && Grammatical(l) && p < Precedence(t) <= Level(l)
    ensures ReadAs(Text(l) + ([t] + ts), ParseInfix(t, Tree(l), ts), c) && Above(p, c)
    decreases |ts|, 6
  {
    hide ParseExpr, ParseItems, ListText, ListTree;
    if IsInfixOp(t) {
      c := SoundOperator(t, l, ts);
    } else if t == ParenL {
      c := SoundCall(l, ts);
    } else if t == BracketL {
      c := SoundIndex(l, ts);
    } else {
      c := CMember(l, ts[0].x);
      assert Text(c) + ts[1..] == Text(l) + ([t] + ts);
      NextAtMost(ts[1..]);
    }
  }

  lemma SoundOperator(t: Token, l: Cst, ts: seq<Token>) returns (c: Cst)
    requires IsInfixOp(t) && ParseInfix(t, Tree(l), ts).ok && Grammatical(l) && Precedence(t) <= Level(l)
    ensures ReadAs(Text(l) + ([t] + ts), ParseInfix(t, Tree(l), ts), c) && c.CInfix? && c.op == t
    decreases |ts|, 4
  {
    hide ParseExpr, Precedence;
    var d := SoundExpr(Precedence(t), ts);
    c := CInfix(t, l, d);
    JoinText(Text(l), [t], Text(d), ParseExpr(Precedence(t), ts).rest, ts);
  }

  lemma SoundCall(l: Cst, ts: seq<Token>) returns (c: Cst)
    requires ParseInfix(ParenL, Tree(l), ts).ok && Grammatical(l) && Level(l) == CALL
    ensures ReadAs(Text(l) + ([ParenL] + ts), ParseInfix(ParenL, Tree(l), ts), c) && !c.CInfix?
    decreases |ts|, 5
  {
    hide ParseItems, ParseInfix, Precedence, ListText, ListTree;
    CallItems(Tree(l), ts);
    var es := SoundItems(ParenR, ts);
    c := CCall(l, es);
    var r := ParseItems(ParenR, ts);
    ClosedText(Text(l) + [ParenL], ListText(es), ParenR, r.rest, ts);
    assert Text(l) + [ParenL] + ts == Text(l) + ([ParenL] + ts);
    NextAtMost(r.rest[1..]);
  }

  lemma SoundIndex(l: Cst, ts: seq<Token>) returns (c: Cst)
    requires ParseInfix(BracketL, Tree(l), ts).ok && Grammatical(l) && Level(l) == CALL
    ensures ReadAs(Text(l) + ([BracketL] + ts), ParseInfix(BracketL, Tree(l), ts), c) && !c.CInfix?
    decreases |ts|, 4
  {
    hide ParseExpr;
    var d := SoundExpr(NONE, ts);
    c := CIndex(l, d);
    var r := ParseExpr(NONE, ts);
    ClosedText(Text(l) + [BracketL], Text(d), BracketR, r.rest, ts);
    assert Text(l) + [BracketL] + ts == Text(l) + ([BracketL] + ts);
    NextAtMost(r.rest[1..]);
  }

  /** The grammar is unambiguous: two readings of the same text are the same tree. */
  lemma Unambiguous(c: Cst, d: Cst)
    requires Grammatical(c) && Grammatical(d) && Text(c) == Text(d)
    ensures Tree(c) == Tree(d)
  {
    hide ParseExpr, Text, Tree, Grammatical;
    AboveNone(c);
    AboveNone(d);
    ReadsAll(NONE, c, []);
    ReadsAll(NONE, d, []);
  }
}
