/**
 The expression parser as the program has it: a cursor over the token list that skips
 comments and lexical errors, and an arena of nodes that refer to each other by index.
 The nodes it emits stand for the tree that `Pratt.ParseExpr` returns.
 */
module Parser {
  import opened Syntax
  import opened Pratt
  import V = Values

  /** What the scanner delivers; the end of the list is the end of the file. */
  datatype RawToken = RawToken(kind: RawKind, line: nat, column: nat)

  datatype RawKind = Visible(t: Token) | Comment | LexError

  datatype Node =
    | AtomNode(t: Token)
    | UnaryNode(op: Token, operand: nat)
    | BinaryNode(op: Token, left: nat, right: nat)
    | LogicalNode(op: Token, left: nat, right: nat)
    | CallNode(callee: nat, args: seq<nat>)
    | IndexNode(target: nat, index: nat)
    | MemberNode(obj: nat, name: NameId)
    | ArrayNode(elements: seq<nat>)
    | MapNode(entries: seq<nat>)
    | UnitNode(kind: UnitKind, parts: seq<nat>)
    | ErrorNode

  /** Statements and declarations: only their parts matter here. */
  datatype UnitKind =
    | BlockStmt | ExpressionStmt | AssignmentStmt | VarDeclStmt | ConstDeclStmt | IfStmt | LoopStmt | ContinueStmt
    | BreakStmt | MatchStmt | MatchCaseStmt | ReturnStmt | NockStmt | AttachStmt | DetachStmt | FunctionDecl
    | StructDecl | TypeAliasDecl | InterfaceDecl | ImplDecl | ImportDecl | ExportDecl | ModuleDecl | SystemDecl
    | ComponentDecl | FlowDecl | KitsDecl | TagDecl

  function Children(n: Node): seq<nat> {
    match n
    case AtomNode(_) => []
    case UnaryNode(_, d) => [d]
    case BinaryNode(_, l, r) => [l, r]
    case LogicalNode(_, l, r) => [l, r]
    case CallNode(f, args) => [f] + args
    case IndexNode(a, i) => [a, i]
    case MemberNode(o, _) => [o]
    case ArrayNode(es) => es
    case MapNode(es) => es
    case UnitNode(_, ps) => ps
    case ErrorNode => []
  }

  predicate AllBelow(list: seq<nat>, bound: nat) {
    forall k | 0 <= k < |list| :: list[k] < bound
  }

  /** Every child has a smaller index than its parent, so that following children ends. */
  predicate WellFounded(nodes: seq<Node>) {
    forall i | 0 <= i < |nodes| :: AllBelow(Children(nodes[i]), i)
  }

  /** A statement or declaration may also refer to node 0: the index that a stub returns
      without having emitted a node. */
  predicate LinksOk(n: Node, i: nat) {
    AllBelow(Children(n), if n.UnitNode? && i == 0 then 1 else i)
  }

  predicate Linked(nodes: seq<Node>) {
    forall i | 0 <= i < |nodes| :: LinksOk(nodes[i], i)
  }

  /** Such a reference breaks the order exactly if node 0 itself makes one. */
  lemma StubReference(nodes: seq<Node>)
    requires Linked(nodes)
    ensures WellFounded(nodes) <==> (nodes != [] ==> Children(nodes[0]) == [])
  {
    if nodes == [] || Children(nodes[0]) == [] {
      forall i, k | 0 <= i < |nodes| && 0 <= k < |Children(nodes[i])|
        ensures Children(nodes[i])[k] < i
      {
        assert LinksOk(nodes[i], i);
      }
    } else {
      assert Children(nodes[0])[0] >= 0;
    }
  }

  /** The tree below a node. */
  function TreeOf(nodes: seq<Node>, i: nat): Expr
    requires Linked(nodes) && i < |nodes|
    decreases i
  {
    var cs := Children(nodes[i]);
    assert LinksOk(nodes[i], i);
    match nodes[i]
    case AtomNode(t) => Atom(t)
    case UnaryNode(op, _) => Unary(op, TreeOf(nodes, cs[0]))
    case BinaryNode(op, _, _) => Binary(op, TreeOf(nodes, cs[0]), TreeOf(nodes, cs[1]))
    case LogicalNode(op, _, _) => Logical(op, TreeOf(nodes, cs[0]), TreeOf(nodes, cs[1]))
    case CallNode(_, args) =>
      assert args == cs[1..];
      Call(TreeOf(nodes, cs[0]), ListOf(nodes, i, args))
    case IndexNode(_, _) => Index(TreeOf(nodes, cs[0]), TreeOf(nodes, cs[1]))
    case MemberNode(_, x) => Member(TreeOf(nodes, cs[0]), x)
    case ArrayNode(es) => Array(ListOf(nodes, i, es))
    case MapNode(es) => Map(ListOf(nodes, i, es))
    case UnitNode(_, _) => Error
    case ErrorNode => Error
  }

  function ListOf(nodes: seq<Node>, bound: nat, list: seq<nat>): Exprs
    requires Linked(nodes) && bound <= |nodes| && AllBelow(list, bound)
    decreases bound, |list|
  {
    if list == [] then Nil else Cons(TreeOf(nodes, list[0]), ListOf(nodes, bound, list[1..]))
  }

  /** Emitting nodes does not change the trees already there. */
  lemma {:induction false} TreeKept(nodes: seq<Node>, more: seq<Node>, i: nat)
    requires Linked(nodes) && Linked(more) && nodes <= more && i < |nodes|
    ensures TreeOf(more, i) == TreeOf(nodes, i)
    decreases i
  {
    var cs := Children(nodes[i]);
    assert more[i] == nodes[i] && LinksOk(nodes[i], i);
    match nodes[i]
    case UnaryNode(_, _) => TreeKept(nodes, more, cs[0]);
    case BinaryNode(_, _, _) => TreeKept(nodes, more, cs[0]); TreeKept(nodes, more, cs[1]);
    case LogicalNode(_, _, _) => TreeKept(nodes, more, cs[0]); TreeKept(nodes, more, cs[1]);
    case CallNode(_, args) =>
      assert args == cs[1..];
      TreeKept(nodes, more, cs[0]);
      ListKept(nodes, more, i, i, args);
    case IndexNode(_, _) => TreeKept(nodes, more, cs[0]); TreeKept(nodes, more, cs[1]);
    case MemberNode(_, _) => TreeKept(nodes, more, cs[0]);
    case ArrayNode(es) => ListKept(nodes, more, i, i, es);
    case MapNode(es) => ListKept(nodes, more, i, i, es);
    case _ =>
  }

  lemma {:induction false} ListKept(nodes: seq<Node>, more: seq<Node>, b: nat, c: nat, list: seq<nat>)
    requires Linked(nodes) && Linked(more) && nodes <= more && b <= |nodes| && c <= |more|
    requires AllBelow(list, b) && AllBelow(list, c)
    ensures ListOf(more, c, list) == ListOf(nodes, b, list)
    decreases b, |list|
  {
    hide TreeOf;
    if list != [] {
      TreeKept(nodes, more, list[0]);
      ListKept(nodes, more, b, c, list[1..]);
    }
  }

  lemma {:induction false} ListGrows(nodes: seq<Node>, more: seq<Node>, list: seq<nat>, i: nat)
    requires Linked(nodes) && Linked(more) && nodes <= more && AllBelow(list, |nodes|) && i < |more|
    ensures AllBelow(list + [i], |more|)
    ensures ListOf(more, |more|, list + [i]) == Append(ListOf(nodes, |nodes|, list), Cons(TreeOf(more, i), Nil))
    decreases |list|
  {
    hide TreeOf;
    if list == [] {
      assert ([] + [i])[1..] == [] && (list + [i]) == [i];
      assert ListOf(more, |more|, []) == Nil;
    } else {
      TreeKept(nodes, more, list[0]);
      ListGrows(nodes, more, list[1..], i);
      assert (list + [i])[1..] == list[1..] + [i];
    }
  }

  // ----- lists under construction -----

  /** `done` with one more item, after which `item.rest` is left. */
  function AddItem(done: ParsedList, item: Parsed): ParsedList {
    ParsedList(Append(done.es, Cons(item.e, Nil)), item.rest, done.ok && item.ok)
  }

  function AddEntry(done: ParsedList): (r: ParsedList)
    ensures |r.rest| <= |done.rest|
  {
    var half := AddItem(done, Expect(ParseExpr(NONE, done.rest), Colon));
    AddItem(half, ParseExpr(NONE, half.rest))
  }

  /** What collecting goes on to, from `done` with the result `r` for the rest. */
  function After(done: ParsedList, r: ParsedList): ParsedList {
    ParsedList(Append(done.es, r.es), r.rest, done.ok && r.ok)
  }

  lemma AppendNil(xs: Exprs)
    ensures Append(xs, Nil) == xs
  {
  }

  lemma AppendOne(xs: Exprs, e: Expr, ys: Exprs)
    ensures Append(Append(xs, Cons(e, Nil)), ys) == Append(xs, Cons(e, ys))
  {
  }

  ghost predicate ItemsSoFar(close: Token, ts: seq<Token>, done: ParsedList, more: bool) {
    ParseItems(close, ts) == if more then After(done, ParseItems(close, done.rest)) else done
  }

  lemma ItemsStart(close: Token, ts: seq<Token>)
    ensures ItemsSoFar(close, ts, ParsedList(Nil, ts, true), true)
  {
    hide ParseItems;
  }

  lemma ItemsClosed(close: Token, ts: seq<Token>, done: ParsedList)
    requires ItemsSoFar(close, ts, done, true) && NextIs(done.rest, close)
    ensures ItemsSoFar(close, ts, done, false)
  {
    hide ParseExpr;
    AppendNil(done.es);
  }

  lemma ItemsStep(close: Token, ts: seq<Token>, done: ParsedList)
    requires ItemsSoFar(close, ts, done, true) && !NextIs(done.rest, close)
    ensures var next := AddItem(done, ParseExpr(NONE, done.rest));
            if NextIs(next.rest, Comma) then ItemsSoFar(close, ts, next.(rest := next.rest[1..]), true)
            else ItemsSoFar(close, ts, next, false)
  {
    hide ParseExpr, Append;
    var item := ParseExpr(NONE, done.rest);
    if NextIs(item.rest, Comma) { AppendOne(done.es, item.e, ParseItems(close, item.rest[1..]).es); }
  }

  lemma ItemsEnd(close: Token, ts: seq<Token>, done: ParsedList)
    ensures ItemsSoFar(close, ts, done, false) ==> ParseItems(close, ts) == done
  {
    hide ParseItems;
  }

  ghost predicate EntriesSoFar(ts: seq<Token>, done: ParsedList, more: bool) {
    ParseEntries(ts) == if more then After(done, ParseEntries(done.rest)) else done
  }

  lemma EntriesStart(ts: seq<Token>)
    ensures EntriesSoFar(ts, ParsedList(Nil, ts, true), true)
  {
    hide ParseEntries;
  }

  lemma EntriesClosed(ts: seq<Token>, done: ParsedList)
    requires EntriesSoFar(ts, done, true) && NextIs(done.rest, BraceR)
    ensures EntriesSoFar(ts, done, false)
  {
    hide ParseExpr;
    AppendNil(done.es);
  }

  lemma EntriesStep(ts: seq<Token>, done: ParsedList)
    requires EntriesSoFar(ts, done, true) && !NextIs(done.rest, BraceR)
    ensures var next := AddEntry(done);
            if NextIs(next.rest, Comma) then EntriesSoFar(ts, next.(rest := next.rest[1..]), true)
            else EntriesSoFar(ts, next, false)
  {
    hide ParseExpr, Append;
    var key := Expect(ParseExpr(NONE, done.rest), Colon);
    var value := ParseExpr(NONE, key.rest);
    var half := Append(done.es, Cons(key.e, Nil));
    if NextIs(value.rest, Comma) {
      var ys := ParseEntries(value.rest[1..]).es;
      AppendOne(half, value.e, ys);
      AppendOne(done.es, key.e, Cons(value.e, ys));
    } else {
      AppendOne(done.es, key.e, Cons(value.e, Nil));
    }
  }

  lemma EntriesEnd(ts: seq<Token>, done: ParsedList)
    ensures EntriesSoFar(ts, done, false) ==> ParseEntries(ts) == done
  {
    hide ParseEntries;
  }

  /** The visible tokens of a raw list. */
  function VisibleTokens(raw: seq<RawToken>): (ts: seq<Token>)
    ensures |ts| <= |raw|
  {
    if raw == [] then []
    else if raw[0].kind.Visible? then [raw[0].kind.t] + VisibleTokens(raw[1..])
    else VisibleTokens(raw[1..])
  }

  const SEMICOLON := OtherToken(0)
  const KW_VAR := OtherToken(1)
  const KW_FUNC := OtherToken(2)
  const KW_IF := OtherToken(3)
  const KW_RETURN := OtherToken(4)
  const KW_LOOP := OtherToken(5)
  const KW_MATCH := OtherToken(6)
  const KW_IMPORT := OtherToken(7)
  const KW_EXPORT := OtherToken(8)
  const KW_SYSTEM := OtherToken(9)
  const KW_FLOW := OtherToken(10)
  const KW_COMPONENT := OtherToken(11)

  /** The keywords that error recovery stops at. */
  predicate StartsUnit(t: Token) {
    t in {KW_VAR, KW_FUNC, KW_IF, KW_RETURN, KW_LOOP, KW_MATCH, KW_IMPORT, KW_EXPORT, KW_SYSTEM, KW_FLOW, KW_COMPONENT}
  }

  /** Where error recovery leaves the cursor: behind a semicolon or at such a keyword. */
  function SyncPoint(previous: V.Option<Token>, ts: seq<Token>): (r: seq<Token>)
    ensures |r| <= |ts|
    decreases |ts|
  {
    if ts == [] || previous == V.Some(SEMICOLON) || StartsUnit(ts[0]) then ts
    else SyncPoint(V.Some(ts[0]), ts[1..])
  }

  /** Keywords of declarations that are parsed by a stub. */
  const KW_ENUM := OtherToken(31)
  const KW_TAGGROUP := OtherToken(32)

  ghost predicate Occurs(tokens: seq<RawToken>, t: Token) {
    RawKind.Visible(t) in KindsOf(tokens)
  }

  function KindsOf(tokens: seq<RawToken>): set<RawKind> {
    set r <- tokens :: r.kind
  }

  ghost predicate HasStubs(tokens: seq<RawToken>) {
    Occurs(tokens, KW_ENUM) || Occurs(tokens, KW_TAGGROUP)
  }

  class Parser {
    const tokens: seq<RawToken>
    var tokenIndex: nat
    /** None at the end of the file. */
    var current: V.Option<Token>
    var currentAt: (nat, nat)
    var previous: V.Option<Token>
    var previousAt: (nat, nat)
    var hadError: bool
    var panicMode: bool

    var nodes: seq<Node>
    var locations: seq<(nat, nat)>
    var nodeTypes: seq<nat>

    /** Cursor and arena are consistent. */
    ghost predicate Ok()
      reads this
    {
      && tokenIndex <= |tokens| && (current.None? ==> tokenIndex == |tokens|) && (panicMode ==> hadError)
      && (current.Some? ==> tokenIndex > 0 && Occurs(tokens, current.value))
      && |locations| == |nodes| == |nodeTypes| && Linked(nodes) && (!HasStubs(tokens) ==> WellFounded(nodes))
    }

    /** The visible tokens from the current one on. */
    ghost function Input(): seq<Token>
      requires tokenIndex <= |tokens|
      reads this
    {
      (if current.Some? then [current.value] else []) + VisibleTokens(tokens[tokenIndex..])
    }

    /** The scanner reported no error. */
    ghost predicate LexClean() {
      forall t <- tokens :: !t.kind.LexError?
    }

    constructor (tokens: seq<RawToken>)
      ensures Ok() && this.tokens == tokens && Input() == VisibleTokens(tokens) && nodes == []
      ensures LexClean() ==> !hadError
    {
      this.tokens := tokens;
      tokenIndex, current, previous := 0, V.None, V.None;
      currentAt, previousAt := (0, 0), (0, 0);
      hadError, panicMode := false, false;
      nodes, locations, nodeTypes := [], [], [];
      new;
      assert tokens[0..] == tokens;
      Fill();
    }

    /** An error is counted once per panic. */
    method ErrorAtCurrent()
      requires panicMode ==> hadError
      modifies this`hadError, this`panicMode
      ensures hadError && panicMode
    {
      if panicMode { return; }
      panicMode := true;
      hadError := true;
    }

    /** Reads on to the next visible token. */
    method Fill()
      requires tokenIndex <= |tokens| && (panicMode ==> hadError)
      modifies this`tokenIndex, this`current, this`currentAt, this`hadError, this`panicMode
      ensures tokenIndex <= |tokens| && (current.None? ==> tokenIndex == |tokens|) && (panicMode ==> hadError)
      ensures current.Some? ==> tokenIndex > 0 && Occurs(tokens, current.value)
      ensures Input() == VisibleTokens(tokens[old(tokenIndex)..])
      ensures old(hadError) ==> hadError
      ensures LexClean() ==> hadError == old(hadError)
    {
      while true
        invariant tokenIndex <= |tokens| && (panicMode ==> hadError) && (old(hadError) ==> hadError)
        invariant VisibleTokens(tokens[tokenIndex..]) == VisibleTokens(tokens[old(tokenIndex)..])
        invariant LexClean() ==> hadError == old(hadError)
        decreases |tokens| - tokenIndex
      {
        if tokenIndex == |tokens| {
          current, currentAt := V.None, (0, 0);
          return;
        }
        var t := tokens[tokenIndex];
        assert tokens[tokenIndex..][1..] == tokens[tokenIndex + 1..] && t in tokens;
        tokenIndex := tokenIndex + 1;
        match t.kind
        case Comment =>
        case LexError => ErrorAtCurrent();
        case Visible(v) =>
          current, currentAt := V.Some(v), (t.line, t.column);
          return;
      }
    }

    method Advance()
      requires Ok()
      modifies this`tokenIndex, this`current, this`currentAt, this`previous, this`previousAt, this`hadError, this`panicMode
      ensures Ok() && previous == old(current)
      ensures Input() == if old(Input()) == [] then [] else old(Input())[1..]
      ensures old(hadError) ==> hadError
      ensures LexClean() ==> hadError == old(hadError)
    {
      previous, previousAt := current, currentAt;
      Fill();
      assert old(Input()) != [] ==> old(Input())[1..] == VisibleTokens(tokens[old(tokenIndex)..]);
    }

    method Check(t: Token) returns (b: bool)
      requires Ok()
      ensures b == NextIs(Input(), t)
    {
      b := current == V.Some(t);
    }

    method AtEnd() returns (b: bool)
      requires Ok()
      ensures b == (Input() == [])
    {
      b := current.None?;
      assert b ==> tokens[tokenIndex..] == [];
    }

    /** Takes `t` if it is next, otherwise reports an error and takes nothing. */
    method Consume(t: Token)
      requires Ok()
      modifies this`tokenIndex, this`current, this`currentAt, this`previous, this`previousAt, this`hadError, this`panicMode
      ensures Ok()
      ensures Input() == if NextIs(old(Input()), t) then old(Input())[1..] else old(Input())
      ensures old(hadError) ==> hadError
      ensures LexClean() ==> hadError == (old(hadError) || !NextIs(old(Input()), t))
      ensures !NextIs(old(Input()), t) ==> hadError
    {
      var b := Check(t);
      if b { Advance(); } else { ErrorAtCurrent(); }
    }

    method Match(t: Token) returns (b: bool)
      requires Ok()
      modifies this`tokenIndex, this`current, this`currentAt, this`previous, this`previousAt, this`hadError, this`panicMode
      ensures Ok() && b == NextIs(old(Input()), t) && (!b ==> previous == old(previous))
      ensures Input() == if b then old(Input())[1..] else old(Input())
      ensures old(hadError) ==> hadError
      ensures LexClean() ==> hadError == old(hadError)
    {
      b := Check(t);
      if b { Advance(); }
    }

    /** Takes a name if one is next, otherwise reports an error and takes nothing. */
    method ConsumeName()
      requires Ok()
      modifies this`tokenIndex, this`current, this`currentAt, this`previous, this`previousAt, this`hadError, this`panicMode
      ensures Ok() && (old(hadError) ==> hadError)
      ensures var ts := old(Input());
              Input() == if ts != [] && ts[0].Identifier? then ts[1..] else ts
    {
      if current.Some? && current.value.Identifier? {
        Advance();
      } else {
        assert current.None? ==> tokens[tokenIndex..] == [];
        ErrorAtCurrent();
      }
    }

    /** Leaves the panic and skips to where a statement may begin. */
    method Synchronize()
      requires Ok()
      modifies this`tokenIndex, this`current, this`currentAt, this`previous, this`previousAt, this`hadError, this`panicMode
      ensures Ok() && (old(hadError) ==> hadError)
      ensures Input() == SyncPoint(old(previous), old(Input()))
      ensures |Input()| == |old(Input())| ==> previous == old(previous)
    {
      panicMode := false;
      while current.Some?
        invariant Ok() && (old(hadError) ==> hadError)
        invariant SyncPoint(previous, Input()) == SyncPoint(old(previous), old(Input()))
        invariant |Input()| < |old(Input())| || (Input() == old(Input()) && previous == old(previous))
        decreases |Input()|
      {
        if previous == V.Some(SEMICOLON) || StartsUnit(current.value) { return; }
        Advance();
      }
      assert tokens[tokenIndex..] == [];
    }

    /** Appends a node with its location and a placeholder type; the three tables stay aligned. */
    method EmitNode(n: Node, start: (nat, nat)) returns (i: nat)
      requires Ok() && LinksOk(n, |nodes|) && (HasStubs(tokens) || AllBelow(Children(n), |nodes|))
      modifies this`nodes, this`locations, this`nodeTypes
      ensures Ok() && i == |old(nodes)| && nodes == old(nodes) + [n]
      ensures locations == old(locations) + [if start.0 == 0 then previousAt else start]
    {
      i := |nodes|;
      nodes := nodes + [n];
      locations := locations + [if start.0 == 0 then previousAt else start];
      nodeTypes := nodeTypes + [0];
    }

    // ----- expressions -----

    /** Node `n` is the tree of `r`, what is left is `r.rest`, and there has been an error if
        there was one before (`had`) or `r` reports one. */
    ghost predicate Parses(r: Parsed, n: nat, before: seq<Node>, had: bool)
      reads this
    {
      && Ok() && before <= nodes && n < |nodes| && TreeOf(nodes, n) == r.e && Input() == r.rest
      && (had || !r.ok ==> hadError) && (LexClean() ==> hadError == (had || !r.ok))
    }

    ghost predicate ParsesList(r: ParsedList, list: seq<nat>, before: seq<Node>, had: bool)
      reads this
    {
      && Ok() && before <= nodes && AllBelow(list, |nodes|) && ListOf(nodes, |nodes|, list) == r.es && Input() == r.rest
      && (had || !r.ok ==> hadError) && (LexClean() ==> hadError == (had || !r.ok))
    }

    /** Pratt's loop: a prefix, then constructs on top of it as long as the next token binds
        more tightly than `p`.  Every turn consumes a token. */
    method ParseExpression(p: nat) returns (n: nat)
      requires Ok()
      modifies this
      ensures Parses(ParseExpr(p, old(Input())), n, old(nodes), old(hadError))
      decreases |Input()|, 3
    {
      hide Occurs, HasStubs, Linked, WellFounded, TreeOf, ParsePrefix, ParseInfix, Climb;
      ghost var ts, before, had := Input(), nodes, hadError;
      Advance();
      n := ParsePrefixNode();
      ghost var sofar := if ts == [] then Parsed(Error, [], false) else ParsePrefix(ts[0], ts[1..]);
      while current.Some? && p < Precedence(current.value)
        invariant Ok() && n < |nodes| && Parses(sofar, n, before, had)
        invariant |Input()| < |ts| || Input() == []
        invariant ts != [] ==> ParseExpr(p, ts) == Climb(p, sofar)
        invariant ts == [] ==> sofar == Parsed(Error, [], false)
        decreases |Input()|
      {
        ghost var mid := nodes;
        ghost var rest := Input();
        ClimbNext(p, sofar);
        Advance();
        n := ParseInfixNode(n);
        ghost var next := ParseInfix(rest[0], sofar.e, rest[1..]);
        sofar := next.(ok := sofar.ok && next.ok);
      }
      ClimbDone(p, sofar);
    }

    lemma ClimbNext(p: nat, r: Parsed)
      requires p < Next(r.rest)
      ensures var next := ParseInfix(r.rest[0], r.e, r.rest[1..]); Climb(p, r) == Climb(p, next.(ok := r.ok && next.ok))
    {
      hide ParseInfix;
    }

    lemma ClimbDone(p: nat, r: Parsed)
      requires p >= Next(r.rest)
      ensures Climb(p, r) == r
    {
      hide ParseInfix;
    }

    /** What the prefix construct begun by `previous` amounts to; at the end of the file and
        for any other token it is an error. */
    ghost function PrefixOf(t: V.Option<Token>, ts: seq<Token>): Parsed {
      if t.None? then Parsed(Error, ts, false) else ParsePrefix(t.value, ts)
    }

    lemma PrefixSpec(t: Token, ts: seq<Token>)
      ensures ParsePrefix(t, ts) ==
              if IsAtom(t) then Parsed(Atom(t), ts, true)
              else if IsPrefixOp(t) then var r := ParseExpr(UNARY, ts); r.(e := Unary(t, r.e))
              else if t == ParenL then Expect(ParseExpr(NONE, ts), ParenR)
              else if t == BracketL then ParsePrefix(BracketL, ts)
              else if t == BraceL then ParsePrefix(BraceL, ts)
              else Parsed(Error, ts, false)
    {
      hide ParseExpr;
    }

    method ParsePrefixNode() returns (n: nat)
      requires Ok()
      modifies this
      ensures Parses(PrefixOf(old(previous), old(Input())), n, old(nodes), old(hadError))
      decreases |Input()|, if previous.None? then 0 else 6
    {
      hide Occurs, HasStubs, Linked, WellFounded, VisibleTokens, TreeOf, ParseExpr, ParsePrefix;
      var start := previousAt;
      if previous.None? {
        ErrorAtCurrent();
        n := EmitNode(ErrorNode, (0, 0));
        LeafTree(n);
        return;
      }
      var t := previous.value;
      PrefixSpec(t, Input());
      if IsAtom(t) {
        n := EmitNode(AtomNode(t), start);
        LeafTree(n);
      } else if IsPrefixOp(t) {
        var d := ParseExpression(UNARY);
        n := EmitUnary(t, d, start);
      } else if t == ParenL {
        n := ParseExpression(NONE);
        Consume(ParenR);
      } else if t == BracketL {
        n := ParseArray(start);
      } else if t == BraceL {
        n := ParseMap(start);
      } else {
        ErrorAtCurrent();
        n := EmitNode(ErrorNode, (0, 0));
        LeafTree(n);
      }
    }

    lemma LeafTree(i: nat)
      requires Ok() && i < |nodes| && (nodes[i].AtomNode? || nodes[i].ErrorNode?)
      ensures TreeOf(nodes, i) == if nodes[i].AtomNode? then Atom(nodes[i].t) else Error
    {
    }

    method EmitUnary(op: Token, d: nat, start: (nat, nat)) returns (n: nat)
      requires Ok() && d < |nodes|
      modifies this`nodes, this`locations, this`nodeTypes
      ensures Ok() && old(nodes) <= nodes && n < |nodes| && TreeOf(nodes, n) == Unary(op, old(TreeOf(nodes, d)))
    {
      ghost var before := nodes;
      n := EmitNode(UnaryNode(op, d), start);
      TreeKept(before, nodes, d);
    }

    method EmitInfix(op: Token, l: nat, r: nat, start: (nat, nat)) returns (n: nat)
      requires Ok() && l < |nodes| && r < |nodes|
      modifies this`nodes, this`locations, this`nodeTypes
      ensures Ok() && old(nodes) <= nodes && n < |nodes|
      ensures TreeOf(nodes, n) == InfixNode(op, old(TreeOf(nodes, l)), old(TreeOf(nodes, r)))
    {
      ghost var before := nodes;
      n := EmitNode(if IsLogical(op) then LogicalNode(op, l, r) else BinaryNode(op, l, r), start);
      TreeKept(before, nodes, l);
      TreeKept(before, nodes, r);
    }

    method EmitIndex(a: nat, i: nat, start: (nat, nat)) returns (n: nat)
      requires Ok() && a < |nodes| && i < |nodes|
      modifies this`nodes, this`locations, this`nodeTypes
      ensures Ok() && old(nodes) <= nodes && n < |nodes|
      ensures TreeOf(nodes, n) == Index(old(TreeOf(nodes, a)), old(TreeOf(nodes, i)))
    {
      ghost var before := nodes;
      n := EmitNode(IndexNode(a, i), start);
      TreeKept(before, nodes, a);
      TreeKept(before, nodes, i);
    }

    method EmitMember(o: nat, x: NameId, start: (nat, nat)) returns (n: nat)
      requires Ok() && o < |nodes|
      modifies this`nodes, this`locations, this`nodeTypes
      ensures Ok() && old(nodes) <= nodes && n < |nodes| && TreeOf(nodes, n) == Member(old(TreeOf(nodes, o)), x)
    {
      ghost var before := nodes;
      n := EmitNode(MemberNode(o, x), start);
      TreeKept(before, nodes, o);
    }

    /** Arrays and maps. */
    method EmitContainer(isMap: bool, es: seq<nat>, start: (nat, nat)) returns (n: nat)
      requires Ok() && AllBelow(es, |nodes|)
      modifies this`nodes, this`locations, this`nodeTypes
      ensures Ok() && old(nodes) <= nodes && n < |nodes|
      ensures TreeOf(nodes, n) == var list := old(ListOf(nodes, |nodes|, es)); if isMap then Map(list) else Array(list)
    {
      ghost var before := nodes;
      n := EmitNode(if isMap then MapNode(es) else ArrayNode(es), start);
      ListKept(before, nodes, |before|, n, es);
    }

    method EmitCall(f: nat, args: seq<nat>, start: (nat, nat)) returns (n: nat)
      requires Ok() && f < |nodes| && AllBelow(args, |nodes|)
      modifies this`nodes, this`locations, this`nodeTypes
      ensures Ok() && old(nodes) <= nodes && n < |nodes|
      ensures TreeOf(nodes, n) == Call(old(TreeOf(nodes, f)), old(ListOf(nodes, |nodes|, args)))
    {
      ghost var before := nodes;
      n := EmitNode(CallNode(f, args), start);
      assert args == Children(nodes[n])[1..];
      TreeKept(before, nodes, f);
      ListKept(before, nodes, |before|, n, args);
    }

    lemma ArraySpec(ts: seq<Token>)
      ensures var es := if ts == [] || ts[0] == BracketR then ParsedList(Nil, ts, true) else ParseItems(BracketR, ts);
              ParsePrefix(BracketL, ts) == Expect(Parsed(Array(es.es), es.rest, es.ok), BracketR)
    {
      hide ParseItems;
    }

    lemma MapSpec(ts: seq<Token>)
      ensures var es := if ts == [] || ts[0] == BracketR then ParsedList(Nil, ts, true) else ParseEntries(ts);
              ParsePrefix(BraceL, ts) == Expect(Parsed(Map(es.es), es.rest, es.ok), BraceR)
    {
      hide ParseEntries;
    }

    method ParseArray(start: (nat, nat)) returns (n: nat)
      requires Ok()
      modifies this
      ensures Parses(ParsePrefix(BracketL, old(Input())), n, old(nodes), old(hadError))
      decreases |Input()|, 6, 0
    {
      hide Occurs, HasStubs, Linked, WellFounded, VisibleTokens, TreeOf, ListOf, ParseItems, ParsePrefix;
      ArraySpec(Input());
      var closes := Check(BracketR);
      var atEnd := AtEnd();
      var es: seq<nat> := [];
      NoneBelow(nodes);
      if !closes && !atEnd { es := ParseItemNodes(BracketR); }
      Consume(BracketR);
      n := EmitContainer(false, es, start);
    }

    lemma NoneBelow(ns: seq<Node>)
      requires Linked(ns)
      ensures ListOf(ns, |ns|, []) == Nil
    {
    }

    method ParseMap(start: (nat, nat)) returns (n: nat)
      requires Ok()
      modifies this
      ensures Parses(ParsePrefix(BraceL, old(Input())), n, old(nodes), old(hadError))
      decreases |Input()|, 6, 0
    {
      hide Occurs, HasStubs, Linked, WellFounded, VisibleTokens, TreeOf, ListOf, ParseEntries, ParsePrefix;
      MapSpec(Input());
      var closes := Check(BracketR);
      var atEnd := AtEnd();
      var es: seq<nat> := [];
      NoneBelow(nodes);
      if !closes && !atEnd { es := ParseEntryNodes(); }
      Consume(BraceR);
      n := EmitContainer(true, es, start);
    }

    /** One more item behind those collected so far. */
    method ParseOneItem(ghost done: ParsedList, list: seq<nat>, ghost before: seq<Node>, ghost had: bool)
      returns (longer: seq<nat>)
      requires ParsesList(done, list, before, had)
      modifies this
      ensures var item := ParseExpr(NONE, done.rest);
              ParsesList(AddItem(done, item), longer, before, had)
      decreases |done.rest|, 4, 0
    {
      hide Occurs, HasStubs, Linked, WellFounded, TreeOf, ListOf, ParseExpr;
      ghost var mid := nodes;
      var i := ParseExpression(NONE);
      ListGrows(mid, nodes, list, i);
      longer := list + [i];
    }

    /** Comma-separated items, a trailing comma allowed. */
    method ParseItemNodes(close: Token) returns (list: seq<nat>)
      requires Ok()
      modifies this
      ensures ParsesList(ParseItems(close, old(Input())), list, old(nodes), old(hadError))
      decreases |Input()|, 5
    {
      hide Occurs, HasStubs, Linked, WellFounded, TreeOf, ListOf, ParseExpr, ParseItems, Append, ItemsSoFar;
      ghost var ts, before, had := Input(), nodes, hadError;
      list := [];
      NoneBelow(nodes);
      ghost var done := ParsedList(Nil, ts, true);
      ItemsStart(close, ts);
      var more := true;
      while more
        invariant ParsesList(done, list, before, had) && |done.rest| <= |ts| && ItemsSoFar(close, ts, done, more)
        decreases more, |done.rest|
      {
        var closes := Check(close);
        if closes {
          ItemsClosed(close, ts, done);
          done, more := done, false;
          break;
        }
        ghost var item := ParseExpr(NONE, done.rest);
        ItemsStep(close, ts, done);
        list := ParseOneItem(done, list, before, had);
        done := AddItem(done, item);
        more := Match(Comma);
        if more { done := done.(rest := done.rest[1..]); }
      }
      ItemsEnd(close, ts, done);
    }

    /** A key, a colon and a value behind those collected so far. */
    method ParseOneEntry(ghost done: ParsedList, list: seq<nat>, ghost before: seq<Node>, ghost had: bool)
      returns (longer: seq<nat>)
      requires ParsesList(done, list, before, had)
      modifies this
      ensures ParsesList(AddEntry(done), longer, before, had)
      decreases |done.rest|, 4, 1
    {
      hide Occurs, HasStubs, Linked, WellFounded, TreeOf, ListOf, ParseExpr, Append;
      ghost var key := ParseExpr(NONE, done.rest);
      longer := ParseOneItem(done, list, before, had);
      Consume(Colon);
      ghost var half := AddItem(done, Expect(key, Colon));
      longer := ParseOneItem(half, longer, before, had);
    }

    /** `key: value` pairs; keys and values end up in one list. */
    method ParseEntryNodes() returns (list: seq<nat>)
      requires Ok()
      modifies this
      ensures ParsesList(ParseEntries(old(Input())), list, old(nodes), old(hadError))
      decreases |Input()|, 5
    {
      hide Occurs, HasStubs, Linked, WellFounded, TreeOf, ListOf, ParseExpr, ParseEntries, Append, EntriesSoFar;
      ghost var ts, before, had := Input(), nodes, hadError;
      list := [];
      NoneBelow(nodes);
      ghost var done := ParsedList(Nil, ts, true);
      EntriesStart(ts);
      var more := true;
      while more
        invariant ParsesList(done, list, before, had) && |done.rest| <= |ts| && EntriesSoFar(ts, done, more)
        decreases more, |done.rest|
      {
        var closes := Check(BraceR);
        if closes {
          EntriesClosed(ts, done);
          more := false;
          break;
        }
        EntriesStep(ts, done);
        list := ParseOneEntry(done, list, before, had);
        done := AddEntry(done);
        more := Match(Comma);
        if more { done := done.(rest := done.rest[1..]); }
      }
      EntriesEnd(ts, done);
    }

    lemma CallSpec(f: Expr, ts: seq<Token>)
      ensures var es := if ts == [] || ts[0] == ParenR then ParsedList(Nil, ts, true) else ParseItems(ParenR, ts);
              ParseInfix(ParenL, f, ts) == Expect(Parsed(Call(f, es.es), es.rest, es.ok), ParenR)
    {
      hide ParseItems;
    }

    method ParseCall(left: nat, start: (nat, nat)) returns (n: nat)
      requires Ok() && left < |nodes|
      modifies this
      ensures Parses(ParseInfix(ParenL, old(TreeOf(nodes, left)), old(Input())), n, old(nodes), old(hadError))
      decreases |Input()|, 6
    {
      hide Occurs, HasStubs, Linked, WellFounded, TreeOf, ListOf, ParseItems, ParseInfix;
      ghost var before := nodes;
      CallSpec(TreeOf(nodes, left), Input());
      var closes := Check(ParenR);
      var atEnd := AtEnd();
      var args: seq<nat> := [];
      NoneBelow(nodes);
      if !closes && !atEnd { args := ParseItemNodes(ParenR); }
      Consume(ParenR);
      TreeKept(before, nodes, left);
      n := EmitCall(left, args, start);
    }

    lemma IndexSpec(a: Expr, ts: seq<Token>)
      ensures var i := ParseExpr(NONE, ts);
              ParseInfix(BracketL, a, ts) == Expect(Parsed(Index(a, i.e), i.rest, i.ok), BracketR)
    {
      hide ParseExpr;
    }

    lemma InfixSpec(t: Token, l: Expr, ts: seq<Token>)
      requires IsInfixOp(t)
      ensures var r := ParseExpr(Precedence(t), ts); ParseInfix(t, l, ts) == r.(e := InfixNode(t, l, r.e))
    {
      hide ParseExpr;
    }

    lemma MemberSpec(o: Expr, ts: seq<Token>)
      ensures ParseInfix(Dot, o, ts) ==
              if ts != [] && ts[0].Identifier? then Parsed(Member(o, ts[0].x), ts[1..], true)
              else Parsed(Member(o, NO_NAME), ts, false)
    {
      hide ParseExpr;
    }

    lemma OtherSpec(t: Token, l: Expr, ts: seq<Token>)
      requires !IsInfixOp(t) && t !in {ParenL, BracketL, Dot}
      ensures ParseInfix(t, l, ts) == Parsed(Error, ts, false)
    {
      hide ParseExpr;
    }

    method ParseOperator(t: Token, left: nat, start: (nat, nat)) returns (n: nat)
      requires Ok() && left < |nodes| && IsInfixOp(t)
      modifies this
      ensures Parses(ParseInfix(t, old(TreeOf(nodes, left)), old(Input())), n, old(nodes), old(hadError))
      decreases |Input()|, 6
    {
      hide Occurs, HasStubs, Linked, WellFounded, TreeOf, ParseExpr, ParseInfix, IsInfixOp, Precedence;
      ghost var before := nodes;
      InfixSpec(t, TreeOf(nodes, left), Input());
      var r := ParseExpression(Precedence(t));
      TreeKept(before, nodes, left);
      n := EmitInfix(t, left, r, start);
    }

    method ParseIndex(left: nat, start: (nat, nat)) returns (n: nat)
      requires Ok() && left < |nodes|
      modifies this
      ensures Parses(ParseInfix(BracketL, old(TreeOf(nodes, left)), old(Input())), n, old(nodes), old(hadError))
      decreases |Input()|, 6
    {
      hide Occurs, HasStubs, Linked, WellFounded, TreeOf, ParseExpr, ParseInfix;
      ghost var before := nodes;
      IndexSpec(TreeOf(nodes, left), Input());
      var i := ParseExpression(NONE);
      Consume(BracketR);
      TreeKept(before, nodes, left);
      n := EmitIndex(left, i, start);
    }

    /** A member name must follow; without one an error is reported and nothing is taken. */
    method ParseMember(left: nat, start: (nat, nat)) returns (n: nat)
      requires Ok() && left < |nodes|
      modifies this
      ensures Parses(ParseInfix(Dot, old(TreeOf(nodes, left)), old(Input())), n, old(nodes), old(hadError))
    {
      hide Occurs, HasStubs, Linked, WellFounded, TreeOf, ParseInfix;
      MemberSpec(TreeOf(nodes, left), Input());
      var name := NO_NAME;
      if current.Some? && current.value.Identifier? {
        name := current.value.x;
        Advance();
      } else {
        var atEnd := AtEnd();
        ErrorAtCurrent();
      }
      n := EmitMember(left, name, start);
    }

    /** The construct begun by `previous`, on top of node `left`. */
    method ParseInfixNode(left: nat) returns (n: nat)
      requires Ok() && left < |nodes| && previous.Some?
      modifies this
      ensures Parses(ParseInfix(old(previous).value, old(TreeOf(nodes, left)), old(Input())), n, old(nodes), old(hadError))
      decreases |Input()|, 7
    {
      hide Occurs, HasStubs, Linked, WellFounded, TreeOf, ParseInfix, IsInfixOp, Precedence;
      var t, start := previous.value, previousAt;
      if IsInfixOp(t) {
        n := ParseOperator(t, left, start);
      } else if t == ParenL {
        n := ParseCall(left, start);
      } else if t == BracketL {
        n := ParseIndex(left, start);
      } else if t == Dot {
        n := ParseMember(left, start);
      } else {
        OtherSpec(t, TreeOf(nodes, left), Input());
        ErrorAtCurrent();
        n := EmitNode(ErrorNode, start);
        LeafTree(n);
      }
    }
  }
}
