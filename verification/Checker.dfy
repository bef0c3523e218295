/**
 The type checker as the program has it: one vector of symbols tagged with their scope
 depth, searched from the back.  It is proved to agree with `TypeCheck`, where scopes are a
 stack of maps, and to leave the symbols outside a block untouched.
 */
module Checker {
  import opened Values
  import opened Source
  import T = TypeCheck

  type Type = T.Type
  type Scopes = T.Scopes

  datatype Entry = Entry(name: Name, t: Type, depth: nat, owned: bool, moved: bool)

  function SymbolOf(e: Entry): T.Symbol {
    T.Symbol(e.t, e.owned, e.moved)
  }

  // ----- the vector as a stack of maps -----

  /** The names tagged with depth `d`. */
  function ScopeAt(es: seq<Entry>, d: nat): T.Scope {
    if es == [] then map[]
    else
      var before := ScopeAt(es[..|es| - 1], d);
      var e := es[|es| - 1];
      if e.depth == d then before[e.name := SymbolOf(e)] else before
  }

  function ScopesOf(es: seq<Entry>, depth: nat): (sc: Scopes)
    ensures |sc| == depth
  {
    if depth == 0 then [] else ScopesOf(es, depth - 1) + [ScopeAt(es, depth)]
  }

  /** Depths never fall along the vector, and a scope has each name once. */
  ghost predicate Sorted(es: seq<Entry>, depth: nat) {
    && (forall i | 0 <= i < |es| :: 1 <= es[i].depth <= depth)
    && (forall i, j | 0 <= i < j < |es| :: es[i].depth <= es[j].depth)
    && (forall i, j | 0 <= i < j < |es| && es[i].depth == es[j].depth :: es[i].name != es[j].name)
  }

  /** The names that the scope at `depth` still owns, the latest first. */
  function LatestFirst(es: seq<Entry>, depth: nat): seq<Name> {
    if es == [] || es[|es| - 1].depth < depth then []
    else
      var e := es[|es| - 1];
      (if e.owned && !e.moved then [e.name] else []) + LatestFirst(es[..|es| - 1], depth)
  }

  /** The last entry of a name. */
  function Find(es: seq<Entry>, x: Name): Option<T.Symbol> {
    if es == [] then None
    else if es[|es| - 1].name == x then Some(SymbolOf(es[|es| - 1]))
    else Find(es[..|es| - 1], x)
  }

  lemma {:induction false} EmptyAt(es: seq<Entry>, d: nat)
    requires forall i | 0 <= i < |es| :: es[i].depth != d
    ensures ScopeAt(es, d) == map[]
    decreases |es|
  {
    if es != [] { EmptyAt(es[..|es| - 1], d); }
  }

  lemma {:induction false} ScopesWithout(es: seq<Entry>, depth: nat)
    requires es != [] && es[|es| - 1].depth > depth
    ensures ScopesOf(es, depth) == ScopesOf(es[..|es| - 1], depth)
    decreases depth
  {
    if depth > 0 { ScopesWithout(es, depth - 1); }
  }

  lemma NoEntries(depth: nat, x: Name)
    ensures T.Lookup(ScopesOf([], depth), x) == None
    decreases depth
  {
    if depth > 0 {
      NoEntries(depth - 1, x);
      var sc := ScopesOf([], depth);
      assert sc[..|sc| - 1] == ScopesOf([], depth - 1);
    }
  }

  lemma LookupTop(es: seq<Entry>, depth: nat, x: Name)
    requires depth > 0
    ensures T.Lookup(ScopesOf(es, depth), x) ==
            if x in ScopeAt(es, depth) then Some(ScopeAt(es, depth)[x]) else T.Lookup(ScopesOf(es, depth - 1), x)
  {
    hide ScopeAt;
    var sc := ScopesOf(es, depth);
    assert sc[..|sc| - 1] == ScopesOf(es, depth - 1);
  }

  lemma LastEntry(es: seq<Entry>, x: Name)
    requires es != []
    ensures var e := es[|es| - 1];
            Find(es, x) == if e.name == x then Some(SymbolOf(e)) else Find(es[..|es| - 1], x)
  {
  }

  /** Searching the vector from the back is looking a name up innermost scope first. */
  lemma {:induction false} FindIsLookup(es: seq<Entry>, depth: nat, x: Name)
    requires Sorted(es, depth)
    ensures Find(es, x) == T.Lookup(ScopesOf(es, depth), x)
    decreases depth, |es|
  {
    hide ScopeAt, ScopesOf, T.Lookup, Find;
    if es == [] {
      NoEntries(depth, x);
      NothingFound(x);
    } else {
      var n := |es| - 1;
      LookupTop(es, depth, x);
      if es[n].depth < depth {
        EmptyAt(es, depth);
        FindIsLookup(es, depth - 1, x);
      } else {
        ScopesWithout(es, depth - 1);
        FindIsLookup(es[..n], depth, x);
        LookupTop(es[..n], depth, x);
        LastEntry(es, x);
        SameDepth(es, n, x);
      }
    }
  }

  lemma NothingFound(x: Name)
    ensures Find([], x) == None
  {
  }

  lemma SameDepth(es: seq<Entry>, n: nat, x: Name)
    requires n < |es| && n == |es| - 1
    ensures ScopeAt(es, es[n].depth) == ScopeAt(es[..n], es[n].depth)[es[n].name := SymbolOf(es[n])]
  {
  }

  lemma {:induction false} InScope(es: seq<Entry>, d: nat, x: Name)
    ensures x in ScopeAt(es, d) <==> exists i :: 0 <= i < |es| && es[i].depth == d && es[i].name == x
    decreases |es|
  {
    if es != [] {
      var n := |es| - 1;
      InScope(es[..n], d, x);
      assert forall i | 0 <= i < n :: es[..n][i] == es[i];
      assert x in ScopeAt(es, d) <==> (x in ScopeAt(es[..n], d) || (es[n].depth == d && es[n].name == x));
    }
  }

  lemma {:induction false} EntryInScope(es: seq<Entry>, depth: nat, i: nat)
    requires Sorted(es, depth) && i < |es|
    ensures es[i].name in ScopeAt(es, es[i].depth) && ScopeAt(es, es[i].depth)[es[i].name] == SymbolOf(es[i])
    decreases |es|
  {
    var n := |es| - 1;
    if i < n { EntryInScope(es[..n], depth, i); }
  }

  /** A new entry of the innermost scope. */
  lemma Pushed(es: seq<Entry>, depth: nat, e: Entry)
    requires depth > 0 && e.depth == depth
    ensures var sc := ScopesOf(es, depth);
            ScopesOf(es + [e], depth) == T.WithInnermost(sc, T.Innermost(sc)[e.name := SymbolOf(e)])
  {
    var more := es + [e];
    assert more[..|more| - 1] == es;
    ScopesWithout(more, depth - 1);
  }

  /** Marking an entry as moved changes just its name in its scope. */
  lemma {:induction false} MarkedScope(es: seq<Entry>, depth: nat, i: nat, d: nat)
    requires Sorted(es, depth) && i < |es|
    ensures var marked := es[i := es[i].(moved := true)];
            ScopeAt(marked, d) ==
            if d == es[i].depth then ScopeAt(es, d)[es[i].name := SymbolOf(es[i]).(moved := true)] else ScopeAt(es, d)
    decreases |es|
  {
    var n := |es| - 1;
    var marked := es[i := es[i].(moved := true)];
    if i < n {
      MarkedScope(es[..n], depth, i, d);
      assert marked[..n] == es[..n][i := es[i].(moved := true)];
    } else {
      assert marked[..n] == es[..n];
    }
  }

  lemma {:induction false} MarkedOuter(es: seq<Entry>, depth: nat, i: nat, k: nat)
    requires Sorted(es, depth) && i < |es| && k < es[i].depth
    ensures ScopesOf(es[i := es[i].(moved := true)], k) == ScopesOf(es, k)
    decreases k
  {
    if k > 0 {
      MarkedScope(es, depth, i, k);
      MarkedOuter(es, depth, i, k - 1);
    }
  }

  /** Dropping the innermost scope's entries drops its map. */
  lemma {:induction false} Popped(es: seq<Entry>, n: nat, depth: nat)
    requires n <= |es| && forall i | n <= i < |es| :: es[i].depth > depth
    ensures ScopesOf(es[..n], depth) == ScopesOf(es, depth)
    decreases |es|
  {
    if n == |es| {
      assert es[..n] == es;
    } else {
      ScopesWithout(es, depth);
      assert es[..|es| - 1][..n] == es[..n];
      Popped(es[..|es| - 1], n, depth);
    }
  }

  /** The entries outside the scope of depth `d`. */
  function Below(es: seq<Entry>, d: nat): (r: seq<Entry>)
    ensures r <= es
  {
    if es == [] || es[|es| - 1].depth < d then es else Below(es[..|es| - 1], d)
  }

  lemma {:induction false} BelowAt(es: seq<Entry>, depth: nat, d: nat)
    requires Sorted(es, depth)
    ensures forall i | 0 <= i < |es| :: i < |Below(es, d)| <==> es[i].depth < d
    decreases |es|
  {
    if es != [] && es[|es| - 1].depth >= d {
      var n := |es| - 1;
      BelowAt(es[..n], depth, d);
      assert forall i | 0 <= i < n :: es[..n][i] == es[i];
    }
  }

  /** What is left when the innermost scope of the vector has been dropped. */
  lemma PopFacts(es: seq<Entry>, depth: nat)
    requires Sorted(es, depth) && depth > 0
    ensures var b := Below(es, depth);
            Sorted(b, depth - 1) && ScopesOf(b, depth - 1) == ScopesOf(es, depth)[..depth - 1]
    ensures forall i | 0 <= i < |es| :: i < |Below(es, depth)| <==> es[i].depth != depth
  {
    hide ScopeAt, Below;
    var b := Below(es, depth);
    BelowAt(es, depth, depth);
    assert b == es[..|b|];
    Popped(es, |b|, depth - 1);
  }

  class TypeChecker {
    const globals: T.Globals
    var symbols: seq<Entry>
    var currentDepth: nat
    /** How many errors have been reported. */
    var errors: nat
    var currentReturnType: Type
    var inFunction: bool
    var loopNestingDepth: nat
    /** The names to free, one list for each scope that has ended. */
    var exits: seq<seq<Name>>

    constructor (globals: T.Globals)
      ensures this.globals == globals && Valid() && Scopes() == [] && errors == 0 && exits == [] && symbols == []
    {
      this.globals := globals;
      symbols, currentDepth, errors, exits := [], 0, 0, [];
      currentReturnType, inFunction, loopNestingDepth := T.Unknown, false, 0;
    }

    ghost predicate Valid()
      reads this
    {
      Sorted(symbols, currentDepth)
    }

    ghost function Scopes(): T.Scopes
      reads this
    {
      ScopesOf(symbols, currentDepth)
    }

    method ReportError()
      modifies this`errors
      ensures errors == old(errors) + 1
    {
      errors := errors + 1;
    }

    method BeginScope()
      requires Valid()
      modifies this`currentDepth
      ensures Valid() && currentDepth == old(currentDepth) + 1
      ensures Scopes() == old(Scopes()) + [map[]]
    {
      currentDepth := currentDepth + 1;
      EmptyAt(symbols, currentDepth);
    }

    /** Locals from the back of the vector, then what the module shows. */
    method ResolveSymbol(x: Name) returns (t: Type)
      requires Valid()
      modifies this`errors
      ensures var r := T.Resolve(globals, Scopes(), x); t == r.t && errors == old(errors) + r.errors
    {
      hide T.Lookup, ScopesOf;
      FindIsLookup(symbols, currentDepth, x);
      var i: nat := |symbols|;
      assert symbols[..i] == symbols;
      while i > 0
        invariant i <= |symbols| && errors == old(errors)
        invariant Find(symbols, x) == Find(symbols[..i], x)
      {
        i := i - 1;
        assert symbols[..i + 1][..i] == symbols[..i] && symbols[..i + 1][i] == symbols[i];
        if symbols[i].name == x {
          if symbols[i].moved {
            ReportError();
            return T.Unknown;
          }
          return symbols[i].t;
        }
      }
      if x in globals.names { return globals.names[x]; }
      ReportError();
      t := T.Unknown;
    }

    /** Adds a name to the innermost scope unless it is already there. */
    method DeclareSymbol(x: Name, t: Type, owned: bool)
      requires Valid() && currentDepth > 0
      modifies this`errors, this`symbols
      ensures Valid() && Below(symbols, currentDepth) == old(Below(symbols, currentDepth))
      ensures var d := T.Declare(old(Scopes()), x, t, owned); Scopes() == d.sc && errors == old(errors) + d.errors
    {
      hide ScopesOf, Below;
      Innermost();
      InScope(symbols, currentDepth, x);
      var i: nat := |symbols|;
      while i > 0
        invariant i <= |symbols|
        invariant forall k | i <= k < |symbols| :: symbols[k].depth == currentDepth && symbols[k].name != x
      {
        if symbols[i - 1].depth < currentDepth { break; }
        if symbols[i - 1].name == x {
          ReportError();
          return;
        }
        i := i - 1;
      }
      var e := Entry(x, t, currentDepth, owned, false);
      Pushed(symbols, currentDepth, e);
      BelowPushed(symbols, e, currentDepth);
      symbols := symbols + [e];
    }

    lemma Innermost()
      requires Valid() && currentDepth > 0
      ensures T.Innermost(Scopes()) == ScopeAt(symbols, currentDepth)
    {
    }

    lemma BelowPushed(es: seq<Entry>, e: Entry, d: nat)
      requires e.depth >= d
      ensures Below(es + [e], d) == Below(es, d)
    {
      assert (es + [e])[..|es|] == es;
    }

    /** Assigning from a name gives its value away, if this scope owns it. */
    method TryMarkMoved(x: Name)
      requires Valid() && currentDepth > 0
      modifies this`symbols
      ensures Valid() && Below(symbols, currentDepth) == old(Below(symbols, currentDepth))
      ensures Scopes() == T.MarkMoved(old(Scopes()), x)
    {
      hide ScopesOf, Below;
      Innermost();
      InScope(symbols, currentDepth, x);
      var i: nat := |symbols|;
      while i > 0
        invariant i <= |symbols| && symbols == old(symbols)
        invariant forall k | i <= k < |symbols| :: symbols[k].depth == currentDepth && symbols[k].name != x
      {
        i := i - 1;
        if symbols[i].depth < currentDepth { return; }
        if symbols[i].name == x {
          EntryInScope(symbols, currentDepth, i);
          if symbols[i].owned && T.IsHeap(symbols[i].t) && !symbols[i].moved {
            Marked(i);
            symbols := symbols[i := symbols[i].(moved := true)];
          } else {
            Unmarked(i);
          }
          return;
        }
      }
    }

    lemma Marked(i: nat)
      requires Valid() && i < |symbols| && symbols[i].depth == currentDepth > 0
      ensures var marked := symbols[i := symbols[i].(moved := true)];
              var sc := Scopes();
              ScopesOf(marked, currentDepth) ==
              T.WithInnermost(sc, T.Innermost(sc)[symbols[i].name := SymbolOf(symbols[i]).(moved := true)]) &&
              Sorted(marked, currentDepth) && Below(marked, currentDepth) == Below(symbols, currentDepth)
    {
      MarkedScope(symbols, currentDepth, i, currentDepth);
      MarkedOuter(symbols, currentDepth, i, currentDepth - 1);
      BelowMarked(symbols, currentDepth, i);
    }

    lemma {:induction false} BelowMarked(es: seq<Entry>, depth: nat, i: nat)
      requires Sorted(es, depth) && i < |es| && es[i].depth == depth
      ensures Below(es[i := es[i].(moved := true)], depth) == Below(es, depth)
      decreases |es|
    {
      hide Below;
      var n := |es| - 1;
      var marked := es[i := es[i].(moved := true)];
      assert es[n].depth == depth == marked[n].depth;
      BelowLast(es, depth);
      BelowLast(marked, depth);
      if i < n {
        assert marked[..n] == es[..n][i := es[i].(moved := true)];
        BelowMarked(es[..n], depth, i);
      } else {
        assert marked[..n] == es[..n];
      }
    }

    lemma BelowLast(es: seq<Entry>, depth: nat)
      requires es != [] && es[|es| - 1].depth >= depth
      ensures Below(es, depth) == Below(es[..|es| - 1], depth)
    {
    }

    /** An entry that is moved already, or owns nothing, stays as it is. */
    lemma Unmarked(i: nat)
      requires Valid() && i < |symbols| && symbols[i].depth == currentDepth > 0
      requires !(symbols[i].owned && T.IsHeap(symbols[i].t) && !symbols[i].moved)
      ensures T.MarkMoved(Scopes(), symbols[i].name) == Scopes()
    {
      EntryInScope(symbols, currentDepth, i);
      Innermost();
      var sc := Scopes();
      var s := T.Innermost(sc);
      var x := symbols[i].name;
      if s[x].owned && T.IsHeap(s[x].t) {
        assert s[x := s[x].(moved := true)] == s;
      }
      assert T.WithInnermost(sc, s) == sc;
    }

    /** Ends the innermost scope; if asked to, records which of its names are still owned. */
    method PopScope(record: bool)
      requires Valid() && currentDepth > 0
      modifies this`symbols, this`currentDepth, this`exits
      ensures Valid() && currentDepth == old(currentDepth) - 1
      ensures symbols == old(Below(symbols, currentDepth)) && Scopes() == old(Scopes())[..currentDepth]
      ensures !record ==> exits == old(exits)
      ensures record ==> |exits| == |old(exits)| + 1 && exits[..|old(exits)|] == old(exits)
      ensures record ==> var names := exits[|old(exits)|];
                         Distinct(names) && (set x | x in names) == T.ExitNames(T.Innermost(old(Scopes()))) &&
                         names == LatestFirst(old(symbols), old(currentDepth))
    {
      hide ScopesOf, ScopeAt, Below, LatestFirst, T.ExitNames, Distinct, Sorted;
      Innermost();
      PopFacts(symbols, currentDepth);
      if record {
        var names := CollectExits();
        exits := exits + [names];
      }
      ghost var all := symbols;
      while symbols != [] && symbols[|symbols| - 1].depth == currentDepth
        modifies this`symbols
        invariant symbols <= all && |symbols| >= |Below(all, currentDepth)|
        invariant forall i | |symbols| <= i < |all| :: all[i].depth == currentDepth
        decreases |symbols|
      {
        symbols := symbols[..|symbols| - 1];
      }
      assert symbols == Below(all, currentDepth);
      currentDepth := currentDepth - 1;
    }

    /** The owned names of the innermost scope, latest first. */
    method CollectExits() returns (names: seq<Name>)
      requires Valid() && currentDepth > 0
      ensures Distinct(names) && (set x | x in names) == T.ExitNames(ScopeAt(symbols, currentDepth))
      ensures names == LatestFirst(symbols, currentDepth)
    {
      names := [];
      var i: nat := |symbols|;
      assert symbols[..i] == symbols;
      while i > 0
        invariant i <= |symbols|
        invariant forall k | i <= k < |symbols| :: symbols[k].depth == currentDepth
        invariant forall x :: x in names <==> exists k :: i <= k < |symbols| && symbols[k].name == x && symbols[k].owned && !symbols[k].moved
        invariant Distinct(names) && names + LatestFirst(symbols[..i], currentDepth) == LatestFirst(symbols, currentDepth)
      {
        assert symbols[..i][..i - 1] == symbols[..i - 1];
        if symbols[i - 1].depth < currentDepth { break; }
        i := i - 1;
        assert forall k | i < k < |symbols| :: symbols[k].name != symbols[i].name;
        assert symbols[i].name !in names;
        ghost var rest := LatestFirst(symbols[..i], currentDepth);
        if symbols[i].owned && !symbols[i].moved {
          OneEarlier(names, symbols[i].name, rest);
          names := names + [symbols[i].name];
        } else {
          assert [] + rest == rest;
        }
      }
      forall x: Name
        ensures x in names <==> x in T.ExitNames(ScopeAt(symbols, currentDepth))
      {
        ExitIff(x, i);
      }
    }

    lemma OneEarlier(names: seq<Name>, x: Name, rest: seq<Name>)
      ensures (names + [x]) + rest == names + ([x] + rest)
    {
    }

    lemma ExitIff(x: Name, i: nat)
      requires Valid() && i <= |symbols| && forall k | i <= k < |symbols| :: symbols[k].depth == currentDepth
      requires i > 0 ==> symbols[i - 1].depth < currentDepth
      ensures x in T.ExitNames(ScopeAt(symbols, currentDepth)) <==>
              exists k :: i <= k < |symbols| && symbols[k].name == x && symbols[k].owned && !symbols[k].moved
    {
      InScope(symbols, currentDepth, x);
      forall k | i <= k < |symbols| && symbols[k].name == x
        ensures x in ScopeAt(symbols, currentDepth) && ScopeAt(symbols, currentDepth)[x] == SymbolOf(symbols[k])
      {
        EntryInScope(symbols, currentDepth, k);
      }
    }

    // ----- expressions -----

    method CheckExpression(e: Expr) returns (t: Type)
      requires Valid()
      modifies this`errors
      ensures var c := T.CheckExpr(T.Lax, globals, Scopes(), e); t == c.t && errors == old(errors) + c.errors
      decreases e, 1
    {
      hide ScopesOf, Sorted, T.Resolve, T.CheckBinary;
      match e
      case IntLit(_) => t := T.Integer;
      case BoolLit(_) => t := T.Boolean;
      case Ident(x) => t := ResolveSymbol(x);
      case Binary(op, left, right) =>
        var l := CheckExpression(left);
        var r := CheckExpression(right);
        t := CheckOperator(op, l, r);
      case Unary(op, operand) =>
        var a := CheckExpression(operand);
        t := CheckPrefix(op, a);
      case Call(_, _) => t := CheckCall(e);
    }

    /** Arithmetic, comparisons and the logical operators, with a guess after an error. */
    method CheckOperator(op: BinOp, l: Type, r: Type) returns (t: Type)
      modifies this`errors
      ensures var c := if op == And || op == Or then T.CheckLogical(l, r) else T.CheckBinary(T.Lax, op, l, r);
              t == c.t && errors == old(errors) + c.errors
    {
      if op == And || op == Or {
        if l != T.Unknown && l != T.Boolean { ReportError(); }
        if r != T.Unknown && r != T.Boolean { ReportError(); }
        return T.Boolean;
      }
      if l == T.Unknown || r == T.Unknown { return if op == Eq || op == Ge then T.Boolean else T.Unknown; }
      if op == Mod {
        if l != T.Integer || r != T.Integer { ReportError(); }
        return T.Integer;
      }
      if op == Eq || op == Ne {
        if l != r { ReportError(); }
        return T.Boolean;
      }
      if op == Lt || op == Le || op == Gt || op == Ge {
        if l != r || (l != T.Integer && l != T.Float) { ReportError(); }
        return T.Boolean;
      }
      if l == T.Integer && r == T.Integer { return T.Integer; }
      if l == T.Float && r == T.Float { return T.Float; }
      ReportError();
      t := if l == T.Float || r == T.Float then T.Float else T.Integer;
    }

    method CheckPrefix(op: UnOp, a: Type) returns (t: Type)
      modifies this`errors
      ensures var c := T.CheckUnary(T.Lax, op, a); t == c.t && errors == old(errors) + c.errors
    {
      match op
      case Plus => t := T.Unknown;
      case Minus =>
        if a != T.Unknown && a != T.Integer && a != T.Float { ReportError(); }
        t := a;
      case Bang =>
        if a != T.Unknown && a != T.Boolean && a != T.Integer { ReportError(); }
        t := T.Boolean;
    }

    method CheckCall(e: Expr) returns (t: Type)
      requires Valid() && e.Call?
      modifies this`errors
      ensures var c := T.CheckExpr(T.Lax, globals, Scopes(), e); t == c.t && errors == old(errors) + c.errors
      decreases e, 0
    {
      hide ScopesOf, Sorted, T.CheckArgs;
      var c := CheckExpression(e.callee);
      if c == T.Unknown { return T.Unknown; }
      if !c.Function? && !c.Object? {
        ReportError();
        return T.Unknown;
      }
      if !c.Function? || c.sig !in globals.sigs {
        ReportError();
        return T.Unknown;
      }
      var sig := globals.sigs[c.sig];
      if ArgCount(e.args) != |sig.params| { ReportError(); }
      CheckArguments(e.args, sig.params);
      t := sig.result;
    }

    method CheckArguments(args: Args, params: seq<Type>)
      requires Valid()
      modifies this`errors
      ensures errors == old(errors) + T.CheckArgs(T.Lax, globals, Scopes(), args, params)
      decreases args, 0
    {
      hide ScopesOf, Sorted, T.CheckExpr;
      var rest, expected := args, params;
      while rest.Arg?
        invariant rest == args || rest < args
        invariant errors + T.CheckArgs(T.Lax, globals, Scopes(), rest, expected) ==
                  old(errors) + T.CheckArgs(T.Lax, globals, Scopes(), args, params)
        decreases rest
      {
        var t := CheckExpression(rest.first);
        if expected != [] && t != T.Unknown && expected[0] != T.Unknown && t != expected[0] { ReportError(); }
        expected := if expected == [] then [] else expected[1..];
        rest := rest.rest;
      }
    }

    // ----- statements -----

    /** `s` has been checked from the scopes `sc` and error count `n`. */
    ghost predicate Checks(r: T.Declared, n: nat)
      reads this
    {
      Valid() && Scopes() == r.sc && errors == n + r.errors
    }

    method CheckStatement(s: Stmt)
      requires Valid() && currentDepth > 0 && inFunction
      modifies this`errors, this`symbols, this`currentDepth, this`loopNestingDepth, this`exits
      ensures Checks(T.CheckStmt(T.Lax, globals, currentReturnType, old(loopNestingDepth), old(Scopes()), s), old(errors))
      ensures currentDepth == old(currentDepth) && loopNestingDepth == old(loopNestingDepth)
      ensures Below(symbols, currentDepth) == old(Below(symbols, currentDepth))
      ensures s.Block? ==> symbols == old(symbols)
      decreases s, 1
    {
      hide ScopesOf, Sorted, Below, T.CheckStmt, Checks;
      match s
      case ExprStmt(_) => CheckExpressionStmt(s);
      case VarDecl(_, _) => CheckVarDecl(s);
      case Assign(_, _) => CheckAssignment(s);
      case CompoundAssign(_, _, _) => CheckCompound(s);
      case Block(_) => CheckBlock(s);
      case If(_, _, _) => CheckIf(s);
      case Loop(_, _) => CheckLoop(s);
      case Break => CheckJump(s);
      case Continue => CheckJump(s);
      case Return(_) => CheckReturn(s);
    }

    method CheckExpressionStmt(s: Stmt)
      requires Valid() && currentDepth > 0 && s.ExprStmt?
      modifies this`errors
      ensures Checks(T.CheckStmt(T.Lax, globals, currentReturnType, loopNestingDepth, Scopes(), s), old(errors))
    {
      hide ScopesOf, Sorted, T.CheckExpr;
      var t := CheckExpression(s.e);
    }

    method CheckCompound(s: Stmt)
      requires Valid() && currentDepth > 0 && s.CompoundAssign?
      modifies this`errors
      ensures Checks(T.CheckStmt(T.Lax, globals, currentReturnType, loopNestingDepth, Scopes(), s), old(errors))
    {
      hide ScopesOf, Sorted, T.CheckExpr, T.Resolve;
      var t := ResolveSymbol(s.target);
      var v := CheckExpression(s.value);
      if t != T.Unknown && v != T.Unknown && t != v { ReportError(); }
    }

    method CheckJump(s: Stmt)
      requires Valid() && currentDepth > 0 && (s.Break? || s.Continue?)
      modifies this`errors
      ensures Checks(T.CheckStmt(T.Lax, globals, currentReturnType, loopNestingDepth, Scopes(), s), old(errors))
    {
      if loopNestingDepth == 0 { ReportError(); }
    }

    method CheckReturn(s: Stmt)
      requires Valid() && currentDepth > 0 && inFunction && s.Return?
      modifies this`errors
      ensures Checks(T.CheckStmt(T.Lax, globals, currentReturnType, loopNestingDepth, Scopes(), s), old(errors))
    {
      hide ScopesOf, Sorted, T.CheckExpr;
      var t := T.Void;
      if s.result.Some? { t := CheckExpression(s.result.value); }
      if currentReturnType != T.Unknown && t != T.Unknown && t != currentReturnType { ReportError(); }
    }

    method CheckIf(s: Stmt)
      requires Valid() && currentDepth > 0 && inFunction && s.If?
      modifies this`errors, this`symbols, this`currentDepth, this`loopNestingDepth, this`exits
      ensures Checks(T.CheckStmt(T.Lax, globals, currentReturnType, old(loopNestingDepth), old(Scopes()), s), old(errors))
      ensures currentDepth == old(currentDepth) && loopNestingDepth == old(loopNestingDepth)
      ensures Below(symbols, currentDepth) == old(Below(symbols, currentDepth))
      decreases s, 0
    {
      hide ScopesOf, Sorted, Below, T.CheckExpr, T.CheckStmts;
      var t := CheckExpression(s.cond);
      CheckCondition(t);
      CheckStatement(s.thn);
      if s.els.Some? { CheckStatement(s.els.value); }
    }

    method CheckLoop(s: Stmt)
      requires Valid() && currentDepth > 0 && inFunction && s.Loop?
      modifies this`errors, this`symbols, this`currentDepth, this`loopNestingDepth, this`exits
      ensures Checks(T.CheckStmt(T.Lax, globals, currentReturnType, old(loopNestingDepth), old(Scopes()), s), old(errors))
      ensures currentDepth == old(currentDepth) && loopNestingDepth == old(loopNestingDepth)
      ensures Below(symbols, currentDepth) == old(Below(symbols, currentDepth))
      decreases s, 0
    {
      hide ScopesOf, Sorted, Below, T.CheckExpr, T.CheckStmts;
      if s.guard.Some? {
        var t := CheckExpression(s.guard.value);
        CheckCondition(t);
      }
      loopNestingDepth := loopNestingDepth + 1;
      CheckStatement(s.loopBody);
      loopNestingDepth := loopNestingDepth - 1;
    }

    method CheckCondition(t: Type)
      modifies this`errors
      ensures errors == old(errors) + T.CondError(t)
    {
      if t != T.Unknown && t != T.Boolean { ReportError(); }
    }

    /** A name initialised from a name takes that name's value over. */
    method CheckVarDecl(s: Stmt)
      requires Valid() && currentDepth > 0 && s.VarDecl?
      modifies this`errors, this`symbols
      ensures Checks(T.CheckStmt(T.Lax, globals, currentReturnType, loopNestingDepth, old(Scopes()), s), old(errors))
      ensures Below(symbols, currentDepth) == old(Below(symbols, currentDepth))
    {
      hide ScopesOf, Sorted, Below, T.CheckExpr, T.Declare, T.MarkMoved;
      var t := CheckExpression(s.init);
      if t == T.Unknown { ReportError(); }
      if s.init.Ident? { TryMarkMoved(s.init.x); }
      DeclareSymbol(s.x, t, T.IsHeap(t));
    }

    method CheckAssignment(s: Stmt)
      requires Valid() && currentDepth > 0 && s.Assign?
      modifies this`errors, this`symbols
      ensures Checks(T.CheckStmt(T.Lax, globals, currentReturnType, loopNestingDepth, old(Scopes()), s), old(errors))
      ensures Below(symbols, currentDepth) == old(Below(symbols, currentDepth))
    {
      hide ScopesOf, Sorted, Below, T.CheckExpr, T.Resolve, T.MarkMoved;
      var t := ResolveSymbol(s.target);
      var v := CheckExpression(s.value);
      if t != T.Unknown && v != T.Unknown && t != v {
        ReportError();
        return;
      }
      if s.value.Ident? { TryMarkMoved(s.value.x); }
    }

    /** A block: whatever happens in it, the vector and the depth are then as before. */
    method CheckBlock(s: Stmt)
      requires Valid() && currentDepth > 0 && inFunction && s.Block?
      modifies this`errors, this`symbols, this`currentDepth, this`loopNestingDepth, this`exits
      ensures Checks(T.CheckStmt(T.Lax, globals, currentReturnType, old(loopNestingDepth), old(Scopes()), s), old(errors))
      ensures currentDepth == old(currentDepth) && loopNestingDepth == old(loopNestingDepth) && symbols == old(symbols)
      decreases s, 0
    {
      hide ScopesOf, Below, T.CheckExpr, T.CheckStmt, T.ExitNames, Distinct;
      ghost var sc := Scopes();
      AllBelow(symbols, currentDepth);
      BeginScope();
      ghost var inner := Scopes();
      var rest := s.body;
      while rest.Seq?
        invariant rest == s.body || rest < s.body
        invariant Valid() && inFunction && currentDepth == old(currentDepth) + 1 && loopNestingDepth == old(loopNestingDepth)
        invariant Below(symbols, currentDepth) == old(symbols)
        invariant var now := T.CheckStmts(T.Lax, globals, currentReturnType, loopNestingDepth, Scopes(), rest);
                  var all := T.CheckStmts(T.Lax, globals, currentReturnType, loopNestingDepth, inner, s.body);
                  all.sc == now.sc && old(errors) + all.errors == errors + now.errors
        decreases rest
      {
        CheckStatement(rest.head);
        rest := rest.tail;
      }
      BlockIs(globals, currentReturnType, loopNestingDepth, sc, s);
      PopScope(true);
    }

    lemma BlockIs(g: T.Globals, result: Type, loops: nat, sc: T.Scopes, s: Stmt)
      requires T.HasScope(sc) && s.Block?
      ensures var inner := T.CheckStmts(T.Lax, g, result, loops, sc + [map[]], s.body);
              T.CheckStmt(T.Lax, g, result, loops, sc, s) == T.Declared(inner.sc[..|sc|], inner.errors)
    {
      hide T.CheckStmts;
    }

    lemma AllBelow(es: seq<Entry>, depth: nat)
      requires Sorted(es, depth)
      ensures Below(es, depth + 1) == es
    {
    }

    method DeclareParameters(params: seq<Name>, ts: seq<Type>)
      requires |ts| == |params| && Valid() && currentDepth == 1 && symbols == []
      modifies this`errors, this`symbols
      ensures Checks(T.DeclareParams(params, ts), old(errors)) && Below(symbols, 1) == []
    {
      hide ScopesOf, Sorted, Below, T.Declare;
      NoScopes();
      var k := 0;
      assert params[..0] == [] && ts[..0] == [];
      while k < |ts|
        invariant k <= |ts| && Below(symbols, 1) == [] && Checks(T.DeclareParams(params[..k], ts[..k]), old(errors))
      {
        assert params[..k + 1][..k] == params[..k] && ts[..k + 1][..k] == ts[..k];
        DeclareSymbol(params[k], ts[k], false);
        k := k + 1;
      }
      assert params[..k] == params && ts[..k] == ts;
    }

    /** A function: parameters in one scope, the body in the next; afterwards nothing of it
        is left in the vector. */
    method CheckFunction(d: FuncDecl, ts: seq<Type>, result: Type)
      requires |ts| == |d.params| && symbols == [] && currentDepth == 0 && loopNestingDepth == 0
      modifies this
      ensures errors == old(errors) + T.CheckFunc(T.Lax, globals, d, ts, result)
      ensures symbols == [] && currentDepth == 0
      ensures currentReturnType == old(currentReturnType) && inFunction == old(inFunction)
    {
      hide ScopesOf, T.CheckStmt, T.DeclareParams, T.ExitNames, Distinct, Below;
      BeginScope();
      DeclareParameters(d.params, ts);
      ghost var ps := T.DeclareParams(d.params, ts);
      assert Scopes() == ps.sc && errors == old(errors) + ps.errors;
      var enclosingType, enclosing := currentReturnType, inFunction;
      currentReturnType, inFunction := result, true;
      CheckStatement(d.body);
      assert errors == old(errors) + ps.errors + T.CheckStmt(T.Lax, globals, result, 0, ps.sc, d.body).errors;
      currentReturnType, inFunction := enclosingType, enclosing;
      PopScope(true);
    }

    lemma NoScopes()
      ensures ScopesOf([], 0) == [] && ScopesOf([], 1) == [map[]] && Below([], 1) == []
    {
    }
  }
}
