/**
 The Pratt expression parser as functions on the visible tokens: prefix first, then infix
 and postfix constructs as long as they bind more tightly than the caller allows.  The
 parser reads exactly the grammar of `Syntax`, and on errors it reports and goes on.
 */
module Pratt {
  import opened Syntax

  datatype Parsed = Parsed(e: Expr, rest: seq<Token>, ok: bool)

  datatype ParsedList = ParsedList(es: Exprs, rest: seq<Token>, ok: bool)

  function Next(ts: seq<Token>): nat {
    if ts == [] then NONE else Precedence(ts[0])
  }

  predicate NextIs(ts: seq<Token>, t: Token) {
    ts != [] && ts[0] == t
  }

  /** Takes `t` if it is next; otherwise an error is reported and nothing is taken. */
  function Expect(r: Parsed, t: Token): (s: Parsed)
    ensures |s.rest| <= |r.rest|
  {
    if NextIs(r.rest, t) then r.(rest := r.rest[1..]) else r.(ok := false)
  }

  /** The name a missing member name is given. */
  const NO_NAME: NameId := 0

  function ParseExpr(p: nat, ts: seq<Token>): (r: Parsed)
    ensures |r.rest| <= |ts| && (ts != [] ==> |r.rest| < |ts|)
    decreases |ts|, 3
  {
    if ts == [] then Parsed(Error, [], false)
    else
      var left := ParsePrefix(ts[0], ts[1..]);
      Climb(p, left)
  }

  /** Infix and postfix constructs on top of `left`. */
  function Climb(p: nat, left: Parsed): (r: Parsed)
    ensures |r.rest| <= |left.rest|
    decreases |left.rest|, 1
  {
    if p < Next(left.rest) then
      var next := ParseInfix(left.rest[0], left.e, left.rest[1..]);
      Climb(p, next.(ok := left.ok && next.ok))
    else left
  }

  function ParsePrefix(t: Token, ts: seq<Token>): (r: Parsed)
    ensures |r.rest| <= |ts|
    decreases |ts|, 6
  {
    if IsAtom(t) then Parsed(Atom(t), ts, true)
    else if IsPrefixOp(t) then
      var r := ParseExpr(UNARY, ts);
      r.(e := Unary(t, r.e))
    else if t == ParenL then Expect(ParseExpr(NONE, ts), ParenR)
    else if t == BracketL then
      var es := if ts == [] || ts[0] == BracketR then ParsedList(Nil, ts, true) else ParseItems(BracketR, ts);
      Expect(Parsed(Array(es.es), es.rest, es.ok), BracketR)
    else if t == BraceL then
      // an immediate `]` counts as an empty map here; the missing `}` is then reported
      var es := if ts == [] || ts[0] == BracketR then ParsedList(Nil, ts, true) else ParseEntries(ts);
      Expect(Parsed(Map(es.es), es.rest, es.ok), BraceR)
    else Parsed(Error, ts, false)
  }

  /** Items separated by commas, up to but excluding `close`; a trailing comma is allowed. */
  function ParseItems(close: Token, ts: seq<Token>): (r: ParsedList)
    ensures |r.rest| <= |ts|
    decreases |ts|, 5
  {
    if NextIs(ts, close) then ParsedList(Nil, ts, true)
    else
      var item := ParseExpr(NONE, ts);
      if NextIs(item.rest, Comma) then
        var more := ParseItems(close, item.rest[1..]);
        ParsedList(Cons(item.e, more.es), more.rest, item.ok && more.ok)
      else ParsedList(Cons(item.e, Nil), item.rest, item.ok)
  }

  /** `key: value` pairs; keys and values are collected alternately. */
  function ParseEntries(ts: seq<Token>): (r: ParsedList)
    ensures |r.rest| <= |ts|
    decreases |ts|, 5
  {
    if NextIs(ts, BraceR) then ParsedList(Nil, ts, true)
    else
      var key := Expect(ParseExpr(NONE, ts), Colon);
      var value := ParseExpr(NONE, key.rest);
      if NextIs(value.rest, Comma) then
        var more := ParseEntries(value.rest[1..]);
        ParsedList(Cons(key.e, Cons(value.e, more.es)), more.rest, key.ok && value.ok && more.ok)
      else ParsedList(Cons(key.e, Cons(value.e, Nil)), value.rest, key.ok && value.ok)
  }

  function ParseInfix(t: Token, left: Expr, ts: seq<Token>): (r: Parsed)
    ensures |r.rest| <= |ts|
    decreases |ts|, 6
  {
    if IsInfixOp(t) then
      var r := ParseExpr(Precedence(t), ts);
      r.(e := InfixNode(t, left, r.e))
    else if t == ParenL then
      var es := if ts == [] || ts[0] == ParenR then ParsedList(Nil, ts, true) else ParseItems(ParenR, ts);
      Expect(Parsed(Call(left, es.es), es.rest, es.ok), ParenR)
    else if t == BracketL then
      var i := ParseExpr(NONE, ts);
      Expect(Parsed(Index(left, i.e), i.rest, i.ok), BracketR)
    else if t == Dot then
      if ts != [] && ts[0].Identifier? then Parsed(Member(left, ts[0].x), ts[1..], true)
      else Parsed(Member(left, NO_NAME), ts, false)
    else Parsed(Error, ts, false)
  }
}
