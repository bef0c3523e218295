/**
 Statements and declarations around the expression parser.  Every loop of the mutually
 recursive parser takes a token per turn or is at the end of the file, whatever errors the
 input has, except two: those over the members of `match` and `kits` can stand still, and
 then the program does not come back.  They are modelled with a bound on their turns.
 Without such a standstill parsing ends, and a file without `match` and `kits` has none.
 */
module UnitParser {
  import opened Syntax
  import opened Parser
  import P = Parser
  import S = Pratt
  import V = Values

  const KW_CONST := OtherToken(12)
  const KW_ELSE := OtherToken(13)
  const KW_CONTINUE := OtherToken(14)
  const KW_BREAK := OtherToken(15)
  const KW_NOCK := OtherToken(16)
  const KW_ATTACH := OtherToken(17)
  const KW_DETACH := OtherToken(18)
  const KW_TO := OtherToken(19)
  const KW_FROM := OtherToken(20)
  const KW_STRUCT := OtherToken(21)
  const KW_TYPE := OtherToken(22)
  const KW_INTERFACE := OtherToken(23)
  const KW_IMPL := OtherToken(24)
  const KW_FOR := OtherToken(25)
  const KW_MODULE := OtherToken(26)
  const KW_TAG := OtherToken(27)
  const KW_AS := OtherToken(28)
  const KW_CASE := OtherToken(29)
  const KW_KITS := OtherToken(30)
  const ARROW := OtherToken(33)
  const EQUAL := OtherToken(34)
  const KW_WILDCARD := OtherToken(43)
  const FAT_ARROW := OtherToken(44)

  predicate IsAssignOp(t: Token) {
    t in {EQUAL, OtherToken(35), OtherToken(36), OtherToken(37), OtherToken(38), OtherToken(39), OtherToken(40),
          OtherToken(41), OtherToken(42)}
  }

  // ----- standing still -----

  /** Where a loop has reached its bound: in a `match` or a `kits` body, between which tokens. */
  datatype Place = Place(kits: bool, previous: V.Option<Token>, next: Token)

  /** At a token that begins no case, recovery takes nothing behind a semicolon or at a
      keyword that it stops at. */
  predicate CaseStands(previous: V.Option<Token>, next: Token) {
    next != KW_CASE && next != BraceR && (previous == V.Some(SEMICOLON) || StartsUnit(next))
  }

  /** A token that no part of a `kits` member accepts. */
  predicate KitStands(next: Token) {
    !next.Identifier? && next !in {BitAnd, KW_AS, SEMICOLON, BraceR}
  }

  predicate Stands(at: Place) {
    if at.kits then KitStands(at.next) else CaseStands(at.previous, at.next)
  }

  /** What bounds the two loops, and where one of them has reached the bound first.  The model
      goes on from there as if the loop had been left; the program may not have been. */
  class Watch {
    const turns: nat
    var stuckAt: V.Option<Place>

    constructor (turns: nat)
      ensures this.turns == turns && stuckAt == V.None
    {
      this.turns := turns;
      stuckAt := V.None;
    }
  }

  /** The first place is kept; only files with `match` or `kits` have one, and with more turns
      than tokens it is one where the loop stands still. */
  ghost predicate Seen(turns: nat, now: V.Option<Place>, was: V.Option<Place>, tokens: seq<RawToken>) {
    && (was.Some? ==> now == was)
    && (was.None? && now.Some? ==> HasLoops(tokens) && (turns > |tokens| ==> Stands(now.value)))
  }

  lemma SeenSelf(turns: nat, now: V.Option<Place>, tokens: seq<RawToken>)
    ensures Seen(turns, now, now, tokens)
  {
  }

  lemma SeenThen(turns: nat, now: V.Option<Place>, mid: V.Option<Place>, was: V.Option<Place>, tokens: seq<RawToken>)
    requires Seen(turns, mid, was, tokens) && Seen(turns, now, mid, tokens)
    ensures Seen(turns, now, was, tokens)
  {
  }

  ghost predicate HasLoops(tokens: seq<RawToken>) {
    Occurs(tokens, KW_MATCH) || Occurs(tokens, KW_KITS)
  }

  // ----- the cursor -----

  /** The visible tokens left. */
  ghost function Ahead(p: Parser): seq<Token>
    reads p
  {
    if p.tokenIndex <= |p.tokens| then p.Input() else []
  }

  /** How many there are. */
  ghost function Left(p: Parser): nat
    reads p
  {
    |Ahead(p)|
  }

  function Drop(t: Token, ts: seq<Token>): (r: seq<Token>)
    ensures r == ts || |r| < |ts|
  {
    if ts != [] && ts[0] == t then ts[1..] else ts
  }

  function DropName(ts: seq<Token>): (r: seq<Token>)
    ensures r == ts || |r| < |ts|
  {
    if ts != [] && ts[0].Identifier? then ts[1..] else ts
  }

  /** What references are below: the nodes, and node 0 for the references of stubs. */
  ghost function Refs(p: Parser): nat
    reads p
  {
    if |p.nodes| == 0 && HasStubs(p.tokens) then 1 else |p.nodes|
  }

  /** The parser can go on, `n` refers to a node, the nodes `before` are still there, and at
      most `limit` tokens are left. */
  ghost predicate ParsedRef(p: Parser, n: nat, before: seq<Node>, limit: nat)
    reads p
  {
    p.Ok() && before <= p.nodes && n < Refs(p) && Left(p) <= limit
  }

  ghost predicate Parsed(p: Parser, n: nat, before: seq<Node>, limit: nat)
    reads p
  {
    ParsedRef(p, n, before, limit) && n < |p.nodes|
  }

  /** One token less, unless there is none. */
  function Less(n: nat): nat {
    if n == 0 then 0 else n - 1
  }

  /** The cursor has moved on from `ts`, or is still there. */
  ghost predicate Moved(p: Parser, ts: seq<Token>)
    reads p
  {
    Left(p) < |ts| || Ahead(p) == ts
  }

  method Take(p: Parser, t: Token)
    requires p.Ok()
    modifies p`tokenIndex, p`current, p`currentAt, p`previous, p`previousAt, p`hadError, p`panicMode
    ensures p.Ok() && (old(p.hadError) ==> p.hadError) && Ahead(p) == Drop(t, old(Ahead(p))) && Left(p) <= old(Left(p))
  {
    p.Consume(t);
  }

  method TakeName(p: Parser)
    requires p.Ok()
    modifies p`tokenIndex, p`current, p`currentAt, p`previous, p`previousAt, p`hadError, p`panicMode
    ensures p.Ok() && (old(p.hadError) ==> p.hadError) && Ahead(p) == DropName(old(Ahead(p))) && Left(p) <= old(Left(p))
  {
    p.ConsumeName();
  }

  method Got(p: Parser, t: Token) returns (got: bool)
    requires p.Ok()
    modifies p`tokenIndex, p`current, p`currentAt, p`previous, p`previousAt, p`hadError, p`panicMode
    ensures p.Ok() && (old(p.hadError) ==> p.hadError) && (got ==> Occurs(p.tokens, t))
    ensures !got ==> p.previous == old(p.previous)
    ensures got == (old(Ahead(p)) != [] && old(Ahead(p))[0] == t)
    ensures Ahead(p) == Drop(t, old(Ahead(p)))
    ensures if got then Ahead(p) == old(Ahead(p))[1..] && Left(p) == Less(old(Left(p))) < old(Left(p))
            else Ahead(p) == old(Ahead(p)) && Left(p) == old(Left(p))
  {
    Head(p);
    got := p.Match(t);
  }

  predicate Next(p: Parser, t: Token)
    reads p
  {
    p.current == V.Some(t)
  }

  method Skip(p: Parser)
    requires p.Ok()
    modifies p`tokenIndex, p`current, p`currentAt, p`previous, p`previousAt, p`hadError, p`panicMode
    ensures p.Ok() && (old(p.hadError) ==> p.hadError) && Left(p) == Less(old(Left(p)))
    ensures old(Ahead(p)) != [] ==> Ahead(p) == old(Ahead(p))[1..] && Left(p) < old(Left(p))
  {
    p.Advance();
  }

  /** The current token is the first one left. */
  lemma Head(p: Parser)
    requires p.Ok()
    ensures p.current == if Ahead(p) == [] then V.None else V.Some(Ahead(p)[0])
    ensures (p.current.Some? <==> Left(p) > 0) && Left(p) <= |p.tokens| && (p.current.Some? ==> Occurs(p.tokens, p.current.value))
  {
    assert p.current.None? ==> p.tokens[p.tokenIndex..] == [];
  }

  method Complain(p: Parser)
    requires p.Ok()
    modifies p`hadError, p`panicMode
    ensures p.Ok() && p.hadError && Ahead(p) == old(Ahead(p)) && Left(p) == old(Left(p))
  {
    p.ErrorAtCurrent();
  }

  method EmitError(p: Parser) returns (n: nat)
    requires p.Ok()
    modifies p`nodes, p`locations, p`nodeTypes
    ensures p.Ok() && old(p.nodes) <= p.nodes && n < |p.nodes| && Ahead(p) == old(Ahead(p)) && Left(p) == old(Left(p))
  {
    n := p.EmitNode(ErrorNode, (0, 0));
  }

  method Emit(p: Parser, kind: UnitKind, parts: seq<nat>, start: (nat, nat)) returns (n: nat)
    requires p.Ok() && AllBelow(parts, Refs(p))
    modifies p`nodes, p`locations, p`nodeTypes
    ensures p.Ok() && old(p.nodes) <= p.nodes && n == |old(p.nodes)| < |p.nodes| && p.nodes[n] == UnitNode(kind, parts)
    ensures Ahead(p) == old(Ahead(p)) && Left(p) == old(Left(p))
  {
    n := p.EmitNode(UnitNode(kind, parts), start);
  }

  /** The token just read, as a node. */
  method EmitName(p: Parser) returns (n: nat)
    requires p.Ok()
    modifies p`nodes, p`locations, p`nodeTypes
    ensures p.Ok() && old(p.nodes) <= p.nodes && n < |p.nodes| && Ahead(p) == old(Ahead(p)) && Left(p) == old(Left(p))
  {
    n := p.EmitNode(AtomNode(if p.previous.Some? then p.previous.value else SEMICOLON), p.previousAt);
  }

  method Expression(p: Parser) returns (n: nat)
    requires p.Ok()
    modifies p
    ensures Parsed(p, n, old(p.nodes), Less(old(Left(p)))) && (old(p.hadError) ==> p.hadError)
    ensures Ahead(p) == S.ParseExpr(NONE, old(Ahead(p))).rest
  {
    hide TreeOf;
    n := p.ParseExpression(NONE);
  }

  // ----- files that are never read to their end -----

  /** What is left where the body of a `match` begins, the keyword taken. */
  function MatchBody(ts: seq<Token>): seq<Token> {
    Drop(BraceL, Drop(ParenR, S.ParseExpr(NONE, Drop(ParenL, ts)).rest))
  }

  /** A `match` body that begins with a keyword that recovery stops at. */
  predicate CasesStuck(body: seq<Token>) {
    body != [] && StartsUnit(body[0])
  }

  /** A `kits` body that begins with a token that no part of a member accepts. */
  predicate MembersStuck(body: seq<Token>) {
    body != [] && KitStands(body[0])
  }

  /** What is left behind a name and an opening brace. */
  function NamedBody(ts: seq<Token>): seq<Token> {
    Drop(BraceL, DropName(ts))
  }

  predicate StmtStuck(ts: seq<Token>) {
    ts != [] && ts[0] == KW_MATCH && CasesStuck(MatchBody(ts[1..]))
  }

  predicate DeclStuck(ts: seq<Token>) {
    ts != [] && ((ts[0] == KW_KITS && MembersStuck(NamedBody(ts[1..]))) || (ts[0] == KW_FLOW && StmtStuck(NamedBody(ts[1..]))))
  }

  predicate IsStub(ts: seq<Token>) {
    ts != [] && ts[0] in {KW_ENUM, KW_TAGGROUP}
  }

  lemma StuckHeads(ts: seq<Token>)
    ensures StmtStuck(ts) ==> ts != [] && ts[0] == KW_MATCH
    ensures DeclStuck(ts) ==> ts != [] && (ts[0] == KW_KITS || ts[0] == KW_FLOW)
    ensures IsStub(ts) ==> ts != [] && (ts[0] == KW_ENUM || ts[0] == KW_TAGGROUP)
  {
    hide MatchBody, NamedBody, CasesStuck, MembersStuck;
  }

  /** `( expression )`. */
  method ParseParenthesised(p: Parser) returns (n: nat)
    requires p.Ok()
    modifies p
    ensures Parsed(p, n, old(p.nodes), old(Left(p))) && (old(p.hadError) ==> p.hadError)
    ensures Ahead(p) == Drop(ParenR, S.ParseExpr(NONE, Drop(ParenL, old(Ahead(p)))).rest)
  {
    hide P.Parser.Ok, Ahead, Occurs, KindsOf, Drop, DropName, HasStubs, S.ParseExpr;
    Take(p, ParenL);
    n := Expression(p);
    Take(p, ParenR);
  }

  // ----- statements -----

  method ParseStatement(p: Parser, w: Watch) returns (n: nat)
    requires p.Ok()
    modifies p, w
    ensures Parsed(p, n, old(p.nodes), Less(old(Left(p)))) && (old(p.hadError) ==> p.hadError)
    ensures Seen(w.turns, w.stuckAt, old(w.stuckAt), p.tokens)
    ensures StmtStuck(old(Ahead(p))) ==> w.stuckAt.Some?
    decreases Left(p), 1
  {
    hide ParsedRef, Left, Less, P.Parser.Ok, Ahead, Occurs, KindsOf, Drop, DropName, HasStubs, HasLoops, Stands,
         S.ParseExpr, CasesStuck, MembersStuck, MatchBody, NamedBody, Seen;
    Head(p);
    SeenSelf(w.turns, w.stuckAt, p.tokens);
    if Next(p, BraceL) {
      Skip(p);
      n := ParseBlockStmt(p, w);
    } else if Next(p, KW_IF) {
      Skip(p);
      n := ParseIfStmt(p, w);
    } else if Next(p, KW_LOOP) {
      Skip(p);
      n := ParseLoopStmt(p, w);
    } else if Next(p, KW_MATCH) {
      Skip(p);
      n := ParseMatchStmt(p, w);
    } else if Next(p, KW_CONTINUE) {
      Skip(p);
      n := ParseJumpStmt(p, ContinueStmt);
    } else if Next(p, KW_BREAK) {
      Skip(p);
      n := ParseJumpStmt(p, BreakStmt);
    } else if Next(p, KW_RETURN) {
      Skip(p);
      n := ParseOptionalStmt(p, ReturnStmt);
    } else if Next(p, KW_NOCK) {
      Skip(p);
      n := ParseOptionalStmt(p, NockStmt);
    } else if Next(p, KW_ATTACH) {
      Skip(p);
      n := ParseComponentStmt(p, AttachStmt, KW_TO);
    } else if Next(p, KW_DETACH) {
      Skip(p);
      n := ParseComponentStmt(p, DetachStmt, KW_FROM);
    } else {
      n := ParseExpressionStmt(p);
    }
  }

  /** An expression, or an assignment if an assignment operator follows. */
  method ParseExpressionStmt(p: Parser) returns (n: nat)
    requires p.Ok()
    modifies p
    ensures Parsed(p, n, old(p.nodes), Less(old(Left(p)))) && (old(p.hadError) ==> p.hadError)
  {
    hide Left, P.Parser.Ok, Ahead, Occurs, KindsOf, Drop, DropName, HasStubs, HasLoops, Stands, S.ParseExpr,
         CasesStuck, MembersStuck, StmtStuck, DeclStuck, MatchBody, NamedBody, IsStub;
    var start := p.currentAt;
    var e := Expression(p);
    if p.current.Some? && IsAssignOp(p.current.value) {
      Skip(p);
      var v := Expression(p);
      Take(p, SEMICOLON);
      n := Emit(p, AssignmentStmt, [e, v], start);
    } else {
      Take(p, SEMICOLON);
      n := Emit(p, ExpressionStmt, [e], start);
    }
  }

  /** Declarations up to the closing brace or the end of the file. */
  method ParseBlockStmt(p: Parser, w: Watch) returns (n: nat)
    requires p.Ok()
    modifies p, w
    ensures Parsed(p, n, old(p.nodes), old(Left(p))) && (old(p.hadError) ==> p.hadError)
    ensures old(Ahead(p)) != [] && old(Ahead(p))[0] != BraceR ==> Left(p) < old(Left(p))
    ensures Seen(w.turns, w.stuckAt, old(w.stuckAt), p.tokens)
    ensures StmtStuck(old(Ahead(p))) || DeclStuck(old(Ahead(p))) ==> w.stuckAt.Some?
    decreases Left(p), 3
  {
    hide P.Parser.Ok, Ahead, Occurs, KindsOf, Drop, DropName, HasStubs, HasLoops, Stands, S.ParseExpr, CasesStuck,
         MembersStuck, MatchBody, NamedBody;
    ghost var ts, before, had, was := Ahead(p), p.nodes, p.hadError, w.stuckAt;
    var start := p.previousAt;
    var statements: seq<nat> := [];
    while p.current.Some? && p.current != V.Some(BraceR)
      invariant p.Ok() && before <= p.nodes && (had ==> p.hadError) && AllBelow(statements, Refs(p))
      invariant Seen(w.turns, w.stuckAt, was, p.tokens)
      invariant (StmtStuck(ts) || DeclStuck(ts)) && Left(p) < |ts| ==> w.stuckAt.Some?
      invariant Moved(p, ts)
      decreases Left(p)
    {
      Head(p);
      var d := ParseDeclaration(p, w);
      statements := statements + [d];
    }
    Head(p);
    Take(p, BraceR);
    n := Emit(p, BlockStmt, statements, start);
  }

  /** Without `else`, the zero-initialised else part refers to node 0. */
  method ParseIfStmt(p: Parser, w: Watch) returns (n: nat)
    requires p.Ok()
    modifies p, w
    ensures Parsed(p, n, old(p.nodes), old(Left(p))) && (old(p.hadError) ==> p.hadError)
    ensures Seen(w.turns, w.stuckAt, old(w.stuckAt), p.tokens)
    decreases Left(p), 2
  {
    hide Left, P.Parser.Ok, Ahead, Occurs, KindsOf, Drop, DropName, HasStubs, HasLoops, Stands, S.ParseExpr,
         CasesStuck, MembersStuck, StmtStuck, DeclStuck, MatchBody, NamedBody, IsStub, Seen;
    ghost var was := w.stuckAt;
    var start := p.previousAt;
    var c := ParseParenthesised(p);
    var t := ParseStatement(p, w);
    ghost var mid := w.stuckAt;
    SeenSelf(w.turns, w.stuckAt, p.tokens);
    var e := 0;
    Head(p);
    if Next(p, KW_ELSE) {
      Skip(p);
      if Next(p, KW_IF) {
        Skip(p);
        e := ParseIfStmt(p, w);
      } else {
        e := ParseStatement(p, w);
      }
    }
    SeenThen(w.turns, w.stuckAt, mid, was, p.tokens);
    n := Emit(p, IfStmt, [c, t, e], start);
  }

  method ParseLoopStmt(p: Parser, w: Watch) returns (n: nat)
    requires p.Ok()
    modifies p, w
    ensures Parsed(p, n, old(p.nodes), old(Left(p))) && (old(p.hadError) ==> p.hadError)
    ensures Seen(w.turns, w.stuckAt, old(w.stuckAt), p.tokens)
    decreases Left(p), 2
  {
    hide Left, P.Parser.Ok, Ahead, Occurs, KindsOf, Drop, DropName, HasStubs, HasLoops, Stands, S.ParseExpr,
         CasesStuck, MembersStuck, StmtStuck, DeclStuck, MatchBody, NamedBody, IsStub;
    var start := p.previousAt;
    var parts: seq<nat> := [];
    var got := Got(p, ParenL);
    if got {
      var c := Expression(p);
      Take(p, ParenR);
      parts := [c];
    }
    got := p.current == V.Some(BraceL);
    if !got {
      Complain(p);
      n := EmitError(p);
      return;
    }
    var b := ParseStatement(p, w);
    n := Emit(p, LoopStmt, parts + [b], start);
  }

  /** `continue` and `break`. */
  method ParseJumpStmt(p: Parser, kind: UnitKind) returns (n: nat)
    requires p.Ok()
    modifies p
    ensures Parsed(p, n, old(p.nodes), old(Left(p))) && (old(p.hadError) ==> p.hadError)
  {
    hide P.Parser.Ok, Ahead, Occurs, KindsOf, Drop, DropName, HasStubs, HasLoops, Stands, S.ParseExpr, CasesStuck,
         MembersStuck, StmtStuck, DeclStuck, MatchBody, NamedBody, IsStub;
    var start := p.previousAt;
    Take(p, SEMICOLON);
    n := Emit(p, kind, [], start);
  }

  /** `return` and `nock`, with or without an expression. */
  method ParseOptionalStmt(p: Parser, kind: UnitKind) returns (n: nat)
    requires p.Ok()
    modifies p
    ensures Parsed(p, n, old(p.nodes), old(Left(p))) && (old(p.hadError) ==> p.hadError)
  {
    hide Left, P.Parser.Ok, Ahead, Occurs, KindsOf, Drop, DropName, HasStubs, HasLoops, Stands, S.ParseExpr,
         CasesStuck, MembersStuck, StmtStuck, DeclStuck, MatchBody, NamedBody, IsStub;
    var start := p.previousAt;
    var parts: seq<nat> := [];
    var bare := p.current == V.Some(SEMICOLON);
    if !bare {
      var e := Expression(p);
      parts := [e];
    }
    Take(p, SEMICOLON);
    n := Emit(p, kind, parts, start);
  }

  /** `attach c to e;` and `detach c from e;`. */
  method ParseComponentStmt(p: Parser, kind: UnitKind, word: Token) returns (n: nat)
    requires p.Ok()
    modifies p
    ensures Parsed(p, n, old(p.nodes), old(Left(p))) && (old(p.hadError) ==> p.hadError)
  {
    hide Left, P.Parser.Ok, Ahead, Occurs, KindsOf, Drop, DropName, HasStubs, HasLoops, Stands, S.ParseExpr,
         CasesStuck, MembersStuck, StmtStuck, DeclStuck, MatchBody, NamedBody, IsStub;
    var start := p.previousAt;
    var c := Expression(p);
    Take(p, word);
    var e := Expression(p);
    Take(p, SEMICOLON);
    n := Emit(p, kind, [c, e], start);
  }

  // ----- declarations -----

  /** `: type`, if there is one. */
  method ParseAnnotation(p: Parser) returns (parts: seq<nat>)
    requires p.Ok()
    modifies p
    ensures p.Ok() && old(p.nodes) <= p.nodes && AllBelow(parts, Refs(p)) && (old(p.hadError) ==> p.hadError)
    ensures Moved(p, old(Ahead(p))) && Left(p) <= old(Left(p))
  {
    hide P.Parser.Ok, Ahead, Occurs, KindsOf, Drop, DropName, HasStubs, HasLoops, Stands, S.ParseExpr, CasesStuck,
         MembersStuck, StmtStuck, DeclStuck, MatchBody, NamedBody, IsStub;
    parts := [];
    var got := Got(p, Colon);
    if got {
      var t := Expression(p);
      parts := [t];
    }
  }

  method ParseVarDeclStmt(p: Parser) returns (n: nat)
    requires p.Ok()
    modifies p
    ensures Parsed(p, n, old(p.nodes), old(Left(p))) && (old(p.hadError) ==> p.hadError)
  {
    hide Left, P.Parser.Ok, Ahead, Occurs, KindsOf, Drop, DropName, HasStubs, HasLoops, Stands, S.ParseExpr,
         CasesStuck, MembersStuck, StmtStuck, DeclStuck, MatchBody, NamedBody, IsStub;
    var start := p.previousAt;
    TakeName(p);
    var parts := ParseAnnotation(p);
    var got := Got(p, EQUAL);
    if got {
      var e := Expression(p);
      parts := parts + [e];
    }
    Take(p, SEMICOLON);
    n := Emit(p, VarDeclStmt, parts, start);
  }

  method ParseConstDeclStmt(p: Parser) returns (n: nat)
    requires p.Ok()
    modifies p
    ensures Parsed(p, n, old(p.nodes), old(Left(p))) && (old(p.hadError) ==> p.hadError)
  {
    hide Left, P.Parser.Ok, Ahead, Occurs, KindsOf, Drop, DropName, HasStubs, HasLoops, Stands, S.ParseExpr,
         CasesStuck, MembersStuck, StmtStuck, DeclStuck, MatchBody, NamedBody, IsStub;
    var start := p.previousAt;
    TakeName(p);
    var parts := ParseAnnotation(p);
    Take(p, EQUAL);
    var e := Expression(p);
    Take(p, SEMICOLON);
    n := Emit(p, ConstDeclStmt, parts + [e], start);
  }

  /** A stub has emitted nothing. */
  lemma StubRef(p: Parser, limit: nat)
    requires p.Ok() && (Occurs(p.tokens, KW_ENUM) || Occurs(p.tokens, KW_TAGGROUP)) && Left(p) <= limit
    ensures ParsedRef(p, 0, p.nodes, limit) && StubTaken(p, 0, p.nodes, Ahead(p))
  {
  }

  /** A stub refers to node 0; beside its keyword it takes nothing. */
  ghost predicate StubTaken(p: Parser, n: nat, nodes: seq<Node>, rest: seq<Token>)
    reads p
  {
    n == 0 && p.nodes == nodes && Ahead(p) == rest
  }

  /** What a block accepts.  Every way through takes a token; a stub returns node 0. */
  method ParseDeclaration(p: Parser, w: Watch) returns (n: nat)
    requires p.Ok()
    modifies p, w
    ensures ParsedRef(p, n, old(p.nodes), Less(old(Left(p)))) && (old(p.hadError) ==> p.hadError)
    ensures Seen(w.turns, w.stuckAt, old(w.stuckAt), p.tokens)
    ensures StmtStuck(old(Ahead(p))) || DeclStuck(old(Ahead(p))) ==> w.stuckAt.Some?
    decreases Left(p), 2
  {
    hide StubTaken, Left, StmtStuck, DeclStuck, IsStub, P.Parser.Ok, Ahead, Occurs, KindsOf, Drop, DropName, HasStubs,
         HasLoops, Stands, S.ParseExpr, CasesStuck, MembersStuck, MatchBody, NamedBody, Seen;
    Head(p);
    StuckHeads(Ahead(p));
    SeenSelf(w.turns, w.stuckAt, p.tokens);
    if Next(p, KW_IMPORT) || Next(p, KW_EXPORT) {
      Skip(p);
      Complain(p);
      n := EmitError(p);
    } else if Next(p, KW_VAR) {
      Skip(p);
      n := ParseVarDeclStmt(p);
    } else if Next(p, KW_CONST) {
      Skip(p);
      n := ParseConstDeclStmt(p);
    } else {
      var got: bool;
      got, n := ParseKeywordDecl(p, w);
      if !got { n := ParseStatement(p, w); }
    }
  }

  /** The declarations that a keyword begins, other than imports and exports. */
  method ParseKeywordDecl(p: Parser, w: Watch) returns (got: bool, n: nat)
    requires p.Ok()
    modifies p, w
    ensures old(p.hadError) ==> p.hadError
    ensures if got then ParsedRef(p, n, old(p.nodes), Less(old(Left(p))))
            else p.Ok() && p.nodes == old(p.nodes) && Ahead(p) == old(Ahead(p)) && Left(p) == old(Left(p)) &&
                 w.stuckAt == old(w.stuckAt)
    ensures Seen(w.turns, w.stuckAt, old(w.stuckAt), p.tokens)
    ensures got ==> !StmtStuck(old(Ahead(p)))
    ensures DeclStuck(old(Ahead(p))) ==> got && w.stuckAt.Some?
    ensures IsStub(old(Ahead(p))) ==> got && StubTaken(p, n, old(p.nodes), old(Ahead(p))[1..])
    decreases Left(p), 1
  {
    hide StmtStuck, DeclStuck, IsStub, StubTaken, ParsedRef, Left, Less, P.Parser.Ok, Ahead, Occurs, KindsOf, Drop,
         DropName, HasStubs, HasLoops, Stands, S.ParseExpr, CasesStuck, MembersStuck, MatchBody, NamedBody, Seen;
    Head(p);
    StuckHeads(Ahead(p));
    SeenSelf(w.turns, w.stuckAt, p.tokens);
    got, n := true, 0;
    if Next(p, KW_FUNC) {
      Skip(p);
      n := ParseFunctionDecl(p, w);
    } else if Next(p, KW_STRUCT) {
      Skip(p);
      n := ParseStructDecl(p);
    } else if Next(p, KW_ENUM) {
      Skip(p);
      StubRef(p, Left(p));
    } else if Next(p, KW_TYPE) {
      Skip(p);
      n := ParseTypeAliasDecl(p);
    } else if Next(p, KW_INTERFACE) {
      Skip(p);
      n := ParseNamedBlock(p, w, InterfaceDecl);
    } else if Next(p, KW_IMPL) {
      Skip(p);
      n := ParseImplDecl(p, w);
    } else if Next(p, KW_MODULE) {
      Skip(p);
      n := ParseModuleDecl(p, w);
    } else {
      got, n := ParseEntityDecl(p, w);
    }
  }

  /** The language's own declarations. */
  method ParseEntityDecl(p: Parser, w: Watch) returns (got: bool, n: nat)
    requires p.Ok()
    modifies p, w
    ensures old(p.hadError) ==> p.hadError
    ensures if got then ParsedRef(p, n, old(p.nodes), Less(old(Left(p))))
            else p.Ok() && p.nodes == old(p.nodes) && Ahead(p) == old(Ahead(p)) && Left(p) == old(Left(p)) &&
                 w.stuckAt == old(w.stuckAt)
    ensures Seen(w.turns, w.stuckAt, old(w.stuckAt), p.tokens)
    ensures got ==> !StmtStuck(old(Ahead(p)))
    ensures DeclStuck(old(Ahead(p))) ==> got && w.stuckAt.Some?
    ensures old(Ahead(p)) != [] && old(Ahead(p))[0] == KW_TAGGROUP ==>
              got && StubTaken(p, n, old(p.nodes), old(Ahead(p))[1..])
    decreases Left(p), 0
  {
    hide StubTaken, ParsedRef, Left, Less, P.Parser.Ok, Ahead, Occurs, KindsOf, Drop, DropName, HasStubs, HasLoops,
         Stands, S.ParseExpr, CasesStuck, MembersStuck, MatchBody, NamedBody, Seen;
    Head(p);
    SeenSelf(w.turns, w.stuckAt, p.tokens);
    got, n := true, 0;
    if Next(p, KW_SYSTEM) {
      Skip(p);
      n := ParseSystemDecl(p, w);
    } else if Next(p, KW_COMPONENT) {
      Skip(p);
      n := ParseComponentDecl(p, w);
    } else if Next(p, KW_FLOW) {
      Skip(p);
      n := ParseNamedBlock(p, w, FlowDecl);
    } else if Next(p, KW_KITS) {
      Skip(p);
      n := ParseKitsDecl(p, w);
    } else if Next(p, KW_TAG) {
      Skip(p);
      n := ParseTagDecl(p);
    } else if Next(p, KW_TAGGROUP) {
      Skip(p);
      StubRef(p, Left(p));
    } else {
      got := false;
    }
  }

  /** A parameter list without its parentheses. */
  method ParseParams(p: Parser) returns (params: seq<nat>)
    requires p.Ok()
    modifies p
    ensures p.Ok() && old(p.nodes) <= p.nodes && AllBelow(params, Refs(p)) && (old(p.hadError) ==> p.hadError)
    ensures Moved(p, old(Ahead(p))) && Left(p) <= old(Left(p))
  {
    hide P.Parser.Ok, Ahead, Occurs, KindsOf, Drop, DropName, HasStubs, HasLoops, Stands, S.ParseExpr, CasesStuck,
         MembersStuck, StmtStuck, DeclStuck, MatchBody, NamedBody, IsStub;
    ghost var ts, before, had := Ahead(p), p.nodes, p.hadError;
    params := [];
    var more := true;
    while more
      invariant p.Ok() && before <= p.nodes && AllBelow(params, Refs(p)) && (had ==> p.hadError)
      invariant Moved(p, ts)
      decreases more, Left(p)
    {
      TakeName(p);
      var parts := ParseAnnotation(p);
      var v := Emit(p, VarDeclStmt, parts, p.previousAt);
      params := params + [v];
      more := Got(p, Comma);
    }
  }

  /** Name, parameters, return type and opening brace of a function. */
  method ParseSignature(p: Parser) returns (parts: seq<nat>)
    requires p.Ok()
    modifies p
    ensures p.Ok() && old(p.nodes) <= p.nodes && AllBelow(parts, Refs(p)) && (old(p.hadError) ==> p.hadError)
    ensures Moved(p, old(Ahead(p))) && Left(p) <= old(Left(p))
  {
    hide P.Parser.Ok, Ahead, Occurs, KindsOf, Drop, DropName, HasStubs, HasLoops, Stands, S.ParseExpr, CasesStuck,
         MembersStuck, StmtStuck, DeclStuck, MatchBody, NamedBody, IsStub;
    parts := [];
    TakeName(p);
    Take(p, ParenL);
    if p.current != V.Some(ParenR) { parts := ParseParams(p); }
    Take(p, ParenR);
    var got := Got(p, ARROW);
    if got {
      var t := Expression(p);
      parts := parts + [t];
    }
    Take(p, BraceL);
  }

  /** In the member list of an `impl` a function is read without its keyword.  Nothing may
      fit, but a token that is no closing brace is taken at the latest by the body. */
  method ParseFunctionDecl(p: Parser, w: Watch) returns (n: nat)
    requires p.Ok()
    modifies p, w
    ensures Parsed(p, n, old(p.nodes), old(Left(p))) && (old(p.hadError) ==> p.hadError)
    ensures old(Ahead(p)) != [] && old(Ahead(p))[0] != BraceR ==> Left(p) < old(Left(p))
    ensures Seen(w.turns, w.stuckAt, old(w.stuckAt), p.tokens)
    decreases Left(p), 4
  {
    hide P.Parser.Ok, Ahead, Occurs, KindsOf, Drop, DropName, HasStubs, HasLoops, Stands, S.ParseExpr, CasesStuck,
         MembersStuck, StmtStuck, DeclStuck, MatchBody, NamedBody, IsStub;
    var start := p.previousAt;
    var parts := ParseSignature(p);
    var body := ParseBlockStmt(p, w);
    n := Emit(p, FunctionDecl, parts + [body], start);
  }

  method ParseStructDecl(p: Parser) returns (n: nat)
    requires p.Ok()
    modifies p
    ensures Parsed(p, n, old(p.nodes), old(Left(p))) && (old(p.hadError) ==> p.hadError)
  {
    hide Left, P.Parser.Ok, Ahead, Occurs, KindsOf, Drop, DropName, HasStubs, HasLoops, Stands, S.ParseExpr,
         CasesStuck, MembersStuck, StmtStuck, DeclStuck, MatchBody, NamedBody, IsStub;
    ghost var left, before, had := Left(p), p.nodes, p.hadError;
    var start := p.previousAt;
    TakeName(p);
    Take(p, BraceL);
    var parts: seq<nat> := [];
    while p.current.Some? && p.current != V.Some(BraceR)
      invariant p.Ok() && before <= p.nodes && (had ==> p.hadError) && AllBelow(parts, Refs(p))
      invariant Left(p) <= left
      decreases Left(p)
    {
      Head(p);
      TakeName(p);
      var name := EmitName(p);
      Take(p, Colon);
      var t := Expression(p);
      parts := parts + [name, t];
      if p.current == V.Some(Comma) || p.current == V.Some(SEMICOLON) { Skip(p); }
    }
    Take(p, BraceR);
    n := Emit(p, StructDecl, parts, start);
  }

  method ParseTypeAliasDecl(p: Parser) returns (n: nat)
    requires p.Ok()
    modifies p
    ensures Parsed(p, n, old(p.nodes), old(Left(p))) && (old(p.hadError) ==> p.hadError)
  {
    hide Left, P.Parser.Ok, Ahead, Occurs, KindsOf, Drop, DropName, HasStubs, HasLoops, Stands, S.ParseExpr,
         CasesStuck, MembersStuck, StmtStuck, DeclStuck, MatchBody, NamedBody, IsStub;
    var start := p.previousAt;
    TakeName(p);
    Take(p, EQUAL);
    var t := Expression(p);
    Take(p, SEMICOLON);
    n := Emit(p, TypeAliasDecl, [t], start);
  }

  /** `interface` and `flow`: a name and a block. */
  method ParseNamedBlock(p: Parser, w: Watch, kind: UnitKind) returns (n: nat)
    requires p.Ok()
    modifies p, w
    ensures Parsed(p, n, old(p.nodes), old(Left(p))) && (old(p.hadError) ==> p.hadError)
    ensures Seen(w.turns, w.stuckAt, old(w.stuckAt), p.tokens)
    ensures StmtStuck(NamedBody(old(Ahead(p)))) ==> w.stuckAt.Some?
    decreases Left(p), 4
  {
    hide P.Parser.Ok, Ahead, Occurs, KindsOf, Drop, DropName, HasStubs, HasLoops, Stands, S.ParseExpr, CasesStuck,
         MembersStuck, StmtStuck, DeclStuck, MatchBody, IsStub;
    var start := p.previousAt;
    TakeName(p);
    Take(p, BraceL);
    var b := ParseBlockStmt(p, w);
    n := Emit(p, kind, [b], start);
  }

  method ParseImplDecl(p: Parser, w: Watch) returns (n: nat)
    requires p.Ok()
    modifies p, w
    ensures Parsed(p, n, old(p.nodes), old(Left(p))) && (old(p.hadError) ==> p.hadError)
    ensures Seen(w.turns, w.stuckAt, old(w.stuckAt), p.tokens)
    decreases Left(p), 5
  {
    hide Left, P.Parser.Ok, Ahead, Occurs, KindsOf, Drop, DropName, HasStubs, HasLoops, Stands, S.ParseExpr,
         CasesStuck, MembersStuck, StmtStuck, DeclStuck, MatchBody, NamedBody, IsStub;
    ghost var left, before, had, was := Left(p), p.nodes, p.hadError, w.stuckAt;
    var start := p.previousAt;
    var target := Expression(p);
    var parts := [target];
    var got := Got(p, KW_FOR);
    if got {
      var t := Expression(p);
      parts := parts + [t];
    }
    Take(p, BraceL);
    while p.current.Some? && p.current != V.Some(BraceR)
      invariant p.Ok() && before <= p.nodes && (had ==> p.hadError) && AllBelow(parts, Refs(p))
      invariant Seen(w.turns, w.stuckAt, was, p.tokens)
      invariant Left(p) <= left
      decreases Left(p)
    {
      Head(p);
      var f := ParseFunctionDecl(p, w);
      parts := parts + [f];
    }
    Take(p, BraceR);
    n := Emit(p, ImplDecl, parts, start);
  }

  /** `name [as alias]` items between braces, the opening one taken; a missing comma ends the
      list. */
  method ParseItems(p: Parser)
    requires p.Ok()
    modifies p`tokenIndex, p`current, p`currentAt, p`previous, p`previousAt, p`hadError, p`panicMode
    ensures p.Ok() && (old(p.hadError) ==> p.hadError) && Left(p) <= old(Left(p))
  {
    hide P.Parser.Ok, Ahead, Occurs, KindsOf, Drop, DropName, HasStubs, HasLoops, Stands, S.ParseExpr, CasesStuck,
         MembersStuck, StmtStuck, DeclStuck, MatchBody, NamedBody, IsStub;
    ghost var ts, had := Ahead(p), p.hadError;
    var more := true;
    while more && p.current.Some? && p.current != V.Some(BraceR)
      invariant p.Ok() && (had ==> p.hadError) && Left(p) <= |ts|
      decreases more, Left(p)
    {
      TakeName(p);
      var got := Got(p, KW_AS);
      if got { TakeName(p); }
      more := Got(p, Comma);
    }
    Take(p, BraceR);
  }

  method ParseImportDecl(p: Parser) returns (n: nat)
    requires p.Ok()
    modifies p
    ensures Parsed(p, n, old(p.nodes), old(Left(p))) && (old(p.hadError) ==> p.hadError)
  {
    hide Left, P.Parser.Ok, Ahead, Occurs, KindsOf, Drop, DropName, HasStubs, HasLoops, Stands, S.ParseExpr,
         CasesStuck, MembersStuck, StmtStuck, DeclStuck, MatchBody, NamedBody, IsStub;
    var start := p.previousAt;
    if p.current.Some? && p.current.value.Identifier? {
      Skip(p);
    } else {
      Take(p, BraceL);
      ParseItems(p);
      Take(p, KW_FROM);
      TakeName(p);
    }
    Take(p, SEMICOLON);
    n := Emit(p, ImportDecl, [], start);
  }

  method ParseExportDecl(p: Parser, w: Watch) returns (n: nat)
    requires p.Ok()
    modifies p, w
    ensures Parsed(p, n, old(p.nodes), old(Left(p))) && (old(p.hadError) ==> p.hadError)
    ensures Seen(w.turns, w.stuckAt, old(w.stuckAt), p.tokens)
    decreases Left(p), 5
  {
    hide Left, P.Parser.Ok, Ahead, Occurs, KindsOf, Drop, DropName, HasStubs, HasLoops, Stands, S.ParseExpr,
         CasesStuck, MembersStuck, StmtStuck, DeclStuck, MatchBody, NamedBody, IsStub;
    var start := p.previousAt;
    var got := Got(p, BraceL);
    var parts: seq<nat> := [];
    if got {
      ParseItems(p);
      Take(p, SEMICOLON);
    } else {
      var wrapped: nat;
      got, wrapped := ParseKeywordDecl(p, w);
      if !got {
        Complain(p);
        wrapped := EmitError(p);
      }
      parts := [wrapped];
    }
    n := Emit(p, ExportDecl, parts, start);
  }

  /** A module body also accepts imports and exports. */
  method ParseModuleDecl(p: Parser, w: Watch) returns (n: nat)
    requires p.Ok()
    modifies p, w
    ensures Parsed(p, n, old(p.nodes), old(Left(p))) && (old(p.hadError) ==> p.hadError)
    ensures Seen(w.turns, w.stuckAt, old(w.stuckAt), p.tokens)
    decreases Left(p), 5
  {
    hide Left, P.Parser.Ok, Ahead, Occurs, KindsOf, Drop, DropName, HasStubs, HasLoops, Stands, S.ParseExpr,
         CasesStuck, MembersStuck, StmtStuck, DeclStuck, MatchBody, NamedBody, IsStub;
    ghost var left, before, had, was := Left(p), p.nodes, p.hadError, w.stuckAt;
    var start := p.previousAt;
    TakeName(p);
    Take(p, BraceL);
    var bodyStart := p.previousAt;
    var parts: seq<nat> := [];
    while p.current.Some? && p.current != V.Some(BraceR)
      invariant p.Ok() && before <= p.nodes && (had ==> p.hadError) && AllBelow(parts, Refs(p))
      invariant Seen(w.turns, w.stuckAt, was, p.tokens)
      invariant Left(p) <= left
      decreases Left(p)
    {
      Head(p);
      var d := ParseModuleItem(p, w);
      parts := parts + [d];
    }
    Take(p, BraceR);
    var body := Emit(p, BlockStmt, parts, bodyStart);
    n := Emit(p, ModuleDecl, [body], start);
  }

  method ParseModuleItem(p: Parser, w: Watch) returns (n: nat)
    requires p.Ok()
    modifies p, w
    ensures ParsedRef(p, n, old(p.nodes), Less(old(Left(p)))) && (old(p.hadError) ==> p.hadError)
    ensures Seen(w.turns, w.stuckAt, old(w.stuckAt), p.tokens)
    decreases Left(p), 3
  {
    hide Left, ParsedRef, P.Parser.Ok, Ahead, Occurs, KindsOf, Drop, DropName, HasStubs, HasLoops, Stands,
         S.ParseExpr, CasesStuck, MembersStuck, MatchBody, NamedBody, Seen;
    Head(p);
    SeenSelf(w.turns, w.stuckAt, p.tokens);
    if Next(p, KW_IMPORT) {
      Skip(p);
      n := ParseImportDecl(p);
    } else if Next(p, KW_EXPORT) {
      Skip(p);
      n := ParseExportDecl(p, w);
    } else {
      n := ParseDeclaration(p, w);
    }
  }

  method ParseSystemDecl(p: Parser, w: Watch) returns (n: nat)
    requires p.Ok()
    modifies p, w
    ensures Parsed(p, n, old(p.nodes), old(Left(p))) && (old(p.hadError) ==> p.hadError)
    ensures Seen(w.turns, w.stuckAt, old(w.stuckAt), p.tokens)
    decreases Left(p), 4
  {
    hide Left, P.Parser.Ok, Ahead, Occurs, KindsOf, Drop, DropName, HasStubs, HasLoops, Stands, S.ParseExpr,
         CasesStuck, MembersStuck, StmtStuck, DeclStuck, MatchBody, NamedBody, IsStub;
    var start := p.previousAt;
    TakeName(p);
    var d := ParseParenthesised(p);
    Take(p, BraceL);
    var b := ParseBlockStmt(p, w);
    n := Emit(p, SystemDecl, [d, b], start);
  }

  /** `component Name { … }` or `component Struct as Name;`. */
  method ParseComponentDecl(p: Parser, w: Watch) returns (n: nat)
    requires p.Ok()
    modifies p, w
    ensures Parsed(p, n, old(p.nodes), old(Left(p))) && (old(p.hadError) ==> p.hadError)
    ensures Seen(w.turns, w.stuckAt, old(w.stuckAt), p.tokens)
    decreases Left(p), 4
  {
    hide Left, P.Parser.Ok, Ahead, Occurs, KindsOf, Drop, DropName, HasStubs, HasLoops, Stands, S.ParseExpr,
         CasesStuck, MembersStuck, StmtStuck, DeclStuck, MatchBody, NamedBody, IsStub;
    var start := p.previousAt;
    var parts: seq<nat> := [];
    TakeName(p);
    var got := Got(p, KW_AS);
    if got {
      TakeName(p);
      Take(p, SEMICOLON);
    } else {
      Take(p, BraceL);
      var b := ParseBlockStmt(p, w);
      parts := [b];
    }
    n := Emit(p, ComponentDecl, parts, start);
  }

  method ParseTagDecl(p: Parser) returns (n: nat)
    requires p.Ok()
    modifies p
    ensures Parsed(p, n, old(p.nodes), old(Left(p))) && (old(p.hadError) ==> p.hadError)
  {
    hide P.Parser.Ok, Ahead, Occurs, KindsOf, Drop, DropName, HasStubs, HasLoops, Stands, S.ParseExpr, CasesStuck,
         MembersStuck, StmtStuck, DeclStuck, MatchBody, NamedBody, IsStub;
    var start := p.previousAt;
    TakeName(p);
    Take(p, SEMICOLON);
    n := Emit(p, TagDecl, [], start);
  }

  /** What a file accepts; anything else is an error and skipped. */
  method ParseTopLevelDeclaration(p: Parser, w: Watch) returns (n: nat)
    requires p.Ok()
    modifies p, w
    ensures ParsedRef(p, n, old(p.nodes), Less(old(Left(p)))) && (old(p.hadError) ==> p.hadError)
    ensures Seen(w.turns, w.stuckAt, old(w.stuckAt), p.tokens)
    ensures DeclStuck(old(Ahead(p))) ==> w.stuckAt.Some?
    ensures IsStub(old(Ahead(p))) ==> StubTaken(p, n, old(p.nodes), old(Ahead(p))[1..])
  {
    hide StubTaken, Left, StmtStuck, DeclStuck, IsStub, P.Parser.Ok, Ahead, Occurs, KindsOf, Drop, DropName, HasStubs,
         HasLoops, Stands, S.ParseExpr, CasesStuck, MembersStuck, MatchBody, NamedBody, Seen;
    Head(p);
    StuckHeads(Ahead(p));
    SeenSelf(w.turns, w.stuckAt, p.tokens);
    if Next(p, KW_IMPORT) {
      Skip(p);
      n := ParseImportDecl(p);
    } else if Next(p, KW_EXPORT) {
      Skip(p);
      n := ParseExportDecl(p, w);
    } else {
      var got: bool;
      got, n := ParseKeywordDecl(p, w);
      if !got {
        Complain(p);
        Skip(p);
        n := EmitError(p);
      }
    }
  }

  // ----- match -----

  /** A turn of the loop over `match` cases at a token that does not begin a case: an error,
      then recovery. */
  method RecoverCase(p: Parser)
    requires p.Ok()
    modifies p`tokenIndex, p`current, p`currentAt, p`previous, p`previousAt, p`hadError, p`panicMode
    ensures p.Ok() && p.hadError && Ahead(p) == SyncPoint(old(p.previous), old(Ahead(p)))
    ensures Left(p) == old(Left(p)) ==> p.previous == old(p.previous)
  {
    p.ErrorAtCurrent();
    p.Synchronize();
  }

  /** The turn takes nothing exactly if the cursor is at a keyword that recovery stops at or
      behind a semicolon. */
  lemma RecoveryStands(previous: V.Option<Token>, ts: seq<Token>)
    requires ts != []
    ensures if previous == V.Some(SEMICOLON) || StartsUnit(ts[0]) then SyncPoint(previous, ts) == ts
            else |SyncPoint(previous, ts)| < |ts|
  {
  }

  /** `pattern, … => statement`, the keyword taken. */
  method ParseMatchCaseStmt(p: Parser, w: Watch) returns (n: nat)
    requires p.Ok()
    modifies p, w
    ensures Parsed(p, n, old(p.nodes), old(Left(p))) && (old(p.hadError) ==> p.hadError)
    ensures Seen(w.turns, w.stuckAt, old(w.stuckAt), p.tokens)
    decreases Left(p), 2
  {
    hide P.Parser.Ok, Ahead, Occurs, KindsOf, Drop, DropName, HasStubs, HasLoops, Stands, S.ParseExpr, CasesStuck,
         MembersStuck, StmtStuck, DeclStuck, MatchBody, NamedBody, IsStub;
    var start := p.previousAt;
    var parts := ParsePatterns(p, start);
    Take(p, FAT_ARROW);
    var b := ParseStatement(p, w);
    n := Emit(p, MatchCaseStmt, parts + [b], start);
  }

  /** Patterns are wildcards and expressions. */
  method ParsePatterns(p: Parser, start: (nat, nat)) returns (parts: seq<nat>)
    requires p.Ok()
    modifies p
    ensures p.Ok() && old(p.nodes) <= p.nodes && AllBelow(parts, Refs(p)) && (old(p.hadError) ==> p.hadError)
    ensures Left(p) <= old(Left(p))
  {
    hide P.Parser.Ok, Ahead, Occurs, KindsOf, Drop, DropName, HasStubs, HasLoops, Stands, S.ParseExpr, CasesStuck,
         MembersStuck, StmtStuck, DeclStuck, MatchBody, NamedBody, IsStub;
    ghost var ts, before, had := Ahead(p), p.nodes, p.hadError;
    parts := [];
    var more := true;
    while more
      invariant p.Ok() && before <= p.nodes && AllBelow(parts, Refs(p)) && (had ==> p.hadError) && Left(p) <= |ts|
      decreases more, Left(p)
    {
      var n: nat;
      var got := Got(p, KW_WILDCARD);
      if got { n := EmitName(p); } else { n := Expression(p); }
      parts := parts + [n];
      more := Got(p, Comma);
    }
  }

  /** The cases, for at most `w.turns` turns.  With more turns than tokens the loop ends
      exactly if it does not stand still. */
  method ParseCases(p: Parser, w: Watch) returns (cases: seq<nat>, ended: bool)
    requires p.Ok()
    modifies p, w
    ensures p.Ok() && old(p.nodes) <= p.nodes && AllBelow(cases, Refs(p)) && (old(p.hadError) ==> p.hadError)
    ensures Left(p) <= old(Left(p)) && Seen(w.turns, w.stuckAt, old(w.stuckAt), p.tokens)
    ensures ended == (Ahead(p) == [] || Ahead(p)[0] == BraceR)
    ensures w.turns > old(Left(p)) ==> ended == (Ahead(p) == [] || !CaseStands(p.previous, Ahead(p)[0]))
    ensures old(Ahead(p)) != [] && CaseStands(old(p.previous), old(Ahead(p))[0]) ==>
              Ahead(p) == old(Ahead(p)) && p.previous == old(p.previous)
    decreases Left(p), 3
  {
    hide P.Parser.Ok, Ahead, Occurs, KindsOf, Drop, DropName, HasStubs, HasLoops, Stands, S.ParseExpr, MembersStuck,
         StmtStuck, DeclStuck, MatchBody, NamedBody, IsStub;
    ghost var ts, prior, before, had, was := Ahead(p), p.previous, p.nodes, p.hadError, w.stuckAt;
    cases := [];
    var i := 0;
    Head(p);
    while i < w.turns && p.current.Some? && p.current != V.Some(BraceR)
      invariant p.Ok() && before <= p.nodes && AllBelow(cases, Refs(p)) && (had ==> p.hadError)
      invariant Seen(w.turns, w.stuckAt, was, p.tokens) && i <= w.turns
      invariant p.current == if Ahead(p) == [] then V.None else V.Some(Ahead(p)[0])
      invariant ts != [] && CaseStands(prior, ts[0]) ==> Ahead(p) == ts && p.previous == prior
      invariant Left(p) <= |ts|
      invariant i + Left(p) <= |ts| || (Ahead(p) != [] && CaseStands(p.previous, Ahead(p)[0]))
      decreases w.turns - i
    {
      ghost var now, prev := Ahead(p), p.previous;
      var got := Got(p, KW_CASE);
      if got {
        var c := ParseMatchCaseStmt(p, w);
        cases := cases + [c];
      } else {
        RecoveryStands(prev, now);
        RecoverCase(p);
      }
      Head(p);
      i := i + 1;
    }
    ended := p.current.None? || p.current == V.Some(BraceR);
  }

  /** `( expression ) {` */
  method ParseMatchHead(p: Parser) returns (n: nat)
    requires p.Ok()
    modifies p
    ensures Parsed(p, n, old(p.nodes), old(Left(p))) && (old(p.hadError) ==> p.hadError)
    ensures Ahead(p) == MatchBody(old(Ahead(p)))
  {
    hide P.Parser.Ok, Ahead, Occurs, KindsOf, Drop, DropName, HasStubs, HasLoops, Stands, S.ParseExpr;
    n := ParseParenthesised(p);
    Take(p, BraceL);
  }

  method ParseMatchStmt(p: Parser, w: Watch) returns (n: nat)
    requires p.Ok() && Occurs(p.tokens, KW_MATCH)
    modifies p, w
    ensures Parsed(p, n, old(p.nodes), old(Left(p))) && (old(p.hadError) ==> p.hadError)
    ensures Seen(w.turns, w.stuckAt, old(w.stuckAt), p.tokens)
    ensures CasesStuck(MatchBody(old(Ahead(p)))) ==> w.stuckAt.Some?
    decreases Left(p), 4
  {
    hide P.Parser.Ok, Ahead, Occurs, KindsOf, Drop, DropName, HasStubs, HasLoops, Stands, S.ParseExpr, CaseStands,
         MatchBody;
    var start := p.previousAt;
    var e := ParseMatchHead(p);
    Head(p);
    ghost var left := Left(p);
    if CasesStuck(Ahead(p)) { CasesStand(p.previous, Ahead(p)); }
    var cases, ended := ParseCases(p, w);
    Head(p);
    if !ended && w.stuckAt.None? {
      w.stuckAt := V.Some(Place(false, p.previous, p.current.value));
      FirstPlace(w.turns, w.stuckAt.value, p.tokens, left);
    }
    Take(p, BraceR);
    n := Emit(p, MatchStmt, [e] + cases, start);
  }

  lemma CasesStand(previous: V.Option<Token>, body: seq<Token>)
    requires CasesStuck(body)
    ensures CaseStands(previous, body[0])
  {
  }

  lemma FirstPlace(turns: nat, at: Place, tokens: seq<RawToken>, left: nat)
    requires (Occurs(tokens, KW_MATCH) || Occurs(tokens, KW_KITS)) && left <= |tokens|
    requires turns > left ==> if at.kits then KitStands(at.next) else CaseStands(at.previous, at.next)
    ensures Seen(turns, V.Some(at), V.None, tokens)
  {
  }

  // ----- kits -----

  /** What is left behind a member, or what there is of one. */
  function KitRest(ts: seq<Token>): seq<Token> {
    Drop(SEMICOLON, DropName(Drop(KW_AS, DropName(Drop(BitAnd, ts)))))
  }

  lemma KitRestIff(ts: seq<Token>)
    requires ts != [] && ts[0] != BraceR
    ensures if KitStands(ts[0]) then KitRest(ts) == ts else |KitRest(ts)| < |ts|
  {
    hide Drop, DropName;
    var a := Drop(BitAnd, ts);
    var b := DropName(a);
    var c := Drop(KW_AS, b);
    var d := DropName(c);
    var e := Drop(SEMICOLON, d);
    if e == ts { assert a == b == c == d == ts; }
    FirstStays(ts);
  }

  /** Nothing is dropped exactly if the first token does not fit. */
  lemma FirstStays(ts: seq<Token>)
    requires ts != []
    ensures forall t :: Drop(t, ts) == ts <==> ts[0] != t
    ensures DropName(ts) == ts <==> !ts[0].Identifier?
  {
  }

  /** A turn of the loop over `kits` members: `Name as Alias;` or `&Name as Alias;`. */
  method ParseKitsMember(p: Parser) returns (n: nat)
    requires p.Ok() && Ahead(p) != [] && Ahead(p)[0] != BraceR
    modifies p
    ensures Parsed(p, n, old(p.nodes), old(Left(p))) && (old(p.hadError) ==> p.hadError)
    ensures if KitStands(old(Ahead(p))[0]) then Ahead(p) == old(Ahead(p)) else Left(p) < old(Left(p))
  {
    hide P.Parser.Ok, Ahead, Occurs, KindsOf, Drop, DropName, KitStands, HasStubs, HasLoops, Stands, S.ParseExpr,
         CasesStuck, MembersStuck, StmtStuck, DeclStuck, MatchBody, NamedBody, IsStub;
    KitRestIff(Ahead(p));
    var readonly := Got(p, BitAnd);
    TakeName(p);
    var t := EmitName(p);
    Take(p, KW_AS);
    TakeName(p);
    Take(p, SEMICOLON);
    n := Emit(p, if readonly then ConstDeclStmt else VarDeclStmt, [t], p.previousAt);
  }

  /** The members, for at most `w.turns` turns.  With more turns than tokens the loop ends
      exactly if it does not stand still. */
  method ParseMembers(p: Parser, turns: nat) returns (members: seq<nat>, ended: bool)
    requires p.Ok()
    modifies p
    ensures p.Ok() && old(p.nodes) <= p.nodes && AllBelow(members, Refs(p)) && (old(p.hadError) ==> p.hadError)
    ensures Left(p) <= old(Left(p))
    ensures ended == (Ahead(p) == [] || Ahead(p)[0] == BraceR)
    ensures turns > old(Left(p)) ==> ended == (Ahead(p) == [] || !KitStands(Ahead(p)[0]))
    ensures MembersStuck(old(Ahead(p))) ==> Ahead(p) == old(Ahead(p))
  {
    hide P.Parser.Ok, Ahead, Occurs, KindsOf, Drop, DropName, HasStubs, HasLoops, Stands, S.ParseExpr, CasesStuck,
         StmtStuck, DeclStuck, MatchBody, NamedBody, IsStub;
    ghost var ts, before, had := Ahead(p), p.nodes, p.hadError;
    members := [];
    var i := 0;
    Head(p);
    while i < turns && p.current.Some? && p.current != V.Some(BraceR)
      invariant p.Ok() && before <= p.nodes && AllBelow(members, Refs(p)) && (had ==> p.hadError) && i <= turns
      invariant p.current == if Ahead(p) == [] then V.None else V.Some(Ahead(p)[0])
      invariant MembersStuck(ts) ==> Ahead(p) == ts
      invariant Left(p) <= |ts|
      invariant i + Left(p) <= |ts| || (Ahead(p) != [] && KitStands(Ahead(p)[0]))
    {
      var m := ParseKitsMember(p);
      members := members + [m];
      Head(p);
      i := i + 1;
    }
    ended := p.current.None? || p.current == V.Some(BraceR);
  }

  method ParseKitsDecl(p: Parser, w: Watch) returns (n: nat)
    requires p.Ok() && Occurs(p.tokens, KW_KITS)
    modifies p, w
    ensures Parsed(p, n, old(p.nodes), old(Left(p))) && (old(p.hadError) ==> p.hadError)
    ensures Seen(w.turns, w.stuckAt, old(w.stuckAt), p.tokens)
    ensures MembersStuck(NamedBody(old(Ahead(p)))) ==> w.stuckAt.Some?
  {
    hide P.Parser.Ok, Ahead, Occurs, KindsOf, Drop, DropName, HasStubs, S.ParseExpr, CasesStuck, StmtStuck, DeclStuck,
         MatchBody, IsStub;
    var start := p.previousAt;
    TakeName(p);
    Take(p, BraceL);
    var bodyStart := p.previousAt;
    Head(p);
    ghost var left := Left(p);
    var members, ended := ParseMembers(p, w.turns);
    Head(p);
    if !ended && w.stuckAt.None? {
      w.stuckAt := V.Some(Place(true, p.previous, p.current.value));
      FirstPlace(w.turns, w.stuckAt.value, p.tokens, left);
    }
    Take(p, BraceR);
    var b := Emit(p, BlockStmt, members, bodyStart);
    n := Emit(p, KitsDecl, [b], start);
  }

  // ----- files -----

  /** The only module among the declarations.  References to a node that does not exist are
      passed over; a file of stubs alone makes them. */
  method SoloModule(p: Parser, declarations: seq<nat>) returns (solo: V.Option<nat>)
    ensures solo.Some? ==>
              solo.value in declarations && solo.value < |p.nodes| &&
              p.nodes[solo.value].UnitNode? && p.nodes[solo.value].kind == ModuleDecl
    ensures p.nodes == [] ==> solo.None?
  {
    var count := 0;
    solo := V.None;
    for i := 0 to |declarations|
      invariant solo.Some? ==>
                  solo.value in declarations && solo.value < |p.nodes| &&
                  p.nodes[solo.value].UnitNode? && p.nodes[solo.value].kind == ModuleDecl
    {
      var d := declarations[i];
      if d < |p.nodes| && p.nodes[d].UnitNode? && p.nodes[d].kind == ModuleDecl {
        solo := V.Some(d);
        count := count + 1;
      }
    }
    if count != 1 { solo := V.None; }
  }

  method Begin(tokens: seq<RawToken>) returns (p: Parser)
    ensures fresh(p) && p.Ok() && p.tokens == tokens && Ahead(p) == VisibleTokens(tokens) && p.nodes == []
  {
    p := new Parser(tokens);
  }

  lemma Order(p: Parser)
    requires p.Ok()
    ensures WellFounded(p.nodes) <==> (p.nodes != [] ==> Children(p.nodes[0]) == [])
    ensures !HasStubs(p.tokens) ==> WellFounded(p.nodes)
  {
    StubReference(p.nodes);
  }

  /** A whole file: every token is read, and the result is the root of the arena.  The arena is
      in order unless node 0 refers to itself, which takes a stub; a file that is nothing but
      one has such a node. */
  method ParseUnit(tokens: seq<RawToken>, w: Watch) returns (p: Parser, root: nat)
    requires w.stuckAt == V.None
    modifies w
    ensures fresh(p) && p.Ok() && p.tokens == tokens && Ahead(p) == []
    ensures root < |p.nodes| && p.nodes[root].UnitNode? && p.nodes[root].kind == ModuleDecl
    ensures Seen(w.turns, w.stuckAt, V.None, tokens)
    ensures DeclStuck(VisibleTokens(tokens)) ==> w.stuckAt.Some?
    ensures WellFounded(p.nodes) <==> Children(p.nodes[0]) == []
    ensures !HasStubs(tokens) ==> WellFounded(p.nodes)
    ensures IsStub(VisibleTokens(tokens)) && |VisibleTokens(tokens)| == 1 ==> !WellFounded(p.nodes)
  {
    hide P.Parser.Ok, Ahead, Occurs, KindsOf, HasStubs, HasLoops, Stands, DeclStuck, IsStub, WellFounded,
         VisibleTokens, LinksOk;
    p := Begin(tokens);
    ghost var ts := VisibleTokens(tokens);
    var declarations: seq<nat> := [];
    while p.current.Some?
      invariant fresh(p) && p.Ok() && p.tokens == tokens && AllBelow(declarations, Refs(p))
      invariant Seen(w.turns, w.stuckAt, V.None, tokens)
      invariant if declarations == [] then Ahead(p) == ts && p.nodes == [] else DeclStuck(ts) ==> w.stuckAt.Some?
      invariant IsStub(ts) && |ts| == 1 && declarations != [] ==> declarations == [0] && p.nodes == [] && Ahead(p) == []
      decreases Left(p)
    {
      Head(p);
      var d := ParseTopLevelDeclaration(p, w);
      declarations := declarations + [d];
    }
    Head(p);
    StuckHeads(ts);
    var solo := SoloModule(p, declarations);
    if solo.Some? {
      root := solo.value;
    } else {
      var body := Emit(p, BlockStmt, declarations, (0, 0));
      ghost var bodyNode := p.nodes[body];
      root := Emit(p, ModuleDecl, [body], (0, 0));
      assert p.nodes[body] == bodyNode;
    }
    Order(p);
  }

  lemma OneFurther(ts: seq<Token>, k: nat)
    requires k < |ts|
    ensures ts[k..] != [] && ts[k..][0] == ts[k] && ts[k..][1..] == ts[k + 1..]
  {
  }

  /** Whatever follows: flow f { match ( x ) { if … */
  lemma MatchOnIf(f: NameId, x: NameId, rest: seq<Token>)
    ensures DeclStuck([KW_FLOW, Identifier(f), BraceL, KW_MATCH, ParenL, Identifier(x), ParenR, BraceL, KW_IF] + rest)
  {
    hide S.ParseExpr;
    var ts := [KW_FLOW, Identifier(f), BraceL, KW_MATCH, ParenL, Identifier(x), ParenR, BraceL, KW_IF] + rest;
    OneFurther(ts, 1);
    OneFurther(ts, 2);
    assert NamedBody(ts[1..]) == ts[3..];
    OneFurther(ts, 3);
    OneFurther(ts, 4);
    NameAlone(ts, 5);
    OneFurther(ts, 6);
    OneFurther(ts, 7);
    OneFurther(ts, 8);
    assert MatchBody(ts[4..]) == ts[8..];
  }

  /** A name before a closing parenthesis is an expression. */
  lemma NameAlone(ts: seq<Token>, k: nat)
    requires k + 1 < |ts| && ts[k].Identifier? && ts[k + 1] == ParenR
    ensures S.ParseExpr(NONE, ts[k..]).rest == ts[k + 1..]
  {
    OneFurther(ts, k);
    OneFurther(ts, k + 1);
  }

  /** kits K { if … */
  lemma KitsOnIf(k: NameId, rest: seq<Token>)
    ensures DeclStuck([KW_KITS, Identifier(k), BraceL, KW_IF] + rest)
  {
    var ts := [KW_KITS, Identifier(k), BraceL, KW_IF] + rest;
    OneFurther(ts, 1);
    OneFurther(ts, 2);
    OneFurther(ts, 3);
    assert NamedBody(ts[1..]) == ts[3..];
  }
}
