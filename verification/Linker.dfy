/**
 The linker: it merges the modules' string pools, refuses symbol names that are defined
 twice anywhere in the project, and resolves the entry function.
 */
module Linker {
  import opened Values
  import B = Bytecode

  /** A module as the back end hands it over.  `exports` are the function names of the export
      table in its iteration order, `others` the exported symbols that are not functions. */
  datatype CompileModule =
    CompileModule(moduleId: nat, initChunk: B.FuncObject, pool: seq<string>, exports: seq<NameId>, others: seq<NameId>)

  datatype Symbol = Symbol(id: NameId, name: string, moduleId: nat)

  datatype Chunk = Chunk(moduleId: nat, code: B.FuncObject)

  datatype LinkedProgram = LinkedProgram(chunks: seq<Chunk>, pool: seq<string>, entryName: NameId, entryModule: nat)

  datatype LinkError = EntryNotFound | MultipleEntry | DuplicateSymbol

  datatype LinkResult = Linked(program: LinkedProgram) | Refused(errors: seq<LinkError>)

  // ----- string pools -----

  /** A list without its repetitions, each element where it came first. */
  function FirstOccurrences<T(==, !new)>(xs: seq<T>): (r: seq<T>)
    ensures forall x :: x in r <==> x in xs
    ensures forall i, j | 0 <= i < j < |r| :: r[i] != r[j]
  {
    if xs == [] then []
    else
      var n := |xs| - 1;
      assert xs == xs[..n] + [xs[n]];
      var r := FirstOccurrences(xs[..n]);
      if xs[n] in r then r else r + [xs[n]]
  }

  function AllStrings(ms: seq<CompileModule>): seq<string> {
    if ms == [] then [] else AllStrings(ms[..|ms| - 1]) + ms[|ms| - 1].pool
  }

  lemma OneMoreString(xs: seq<string>, s: string)
    ensures FirstOccurrences(xs + [s]) ==
            if s in FirstOccurrences(xs) then FirstOccurrences(xs) else FirstOccurrences(xs) + [s]
  {
    assert (xs + [s])[..|xs|] == xs;
  }

  method CollectMergedStringPool(ms: seq<CompileModule>) returns (pool: seq<string>)
    ensures pool == FirstOccurrences(AllStrings(ms))
  {
    hide FirstOccurrences, AllStrings;
    var seen: set<string> := {};
    pool := [];
    NoStrings();
    for i := 0 to |ms|
      invariant pool == FirstOccurrences(AllStrings(ms[..i]))
      invariant forall s :: s in seen <==> s in pool
    {
      ghost var before := AllStrings(ms[..i]);
      assert before + ms[i].pool[..0] == before;
      for j := 0 to |ms[i].pool|
        invariant pool == FirstOccurrences(before + ms[i].pool[..j])
        invariant forall s :: s in seen <==> s in pool
      {
        var s := ms[i].pool[j];
        OneMoreString(before + ms[i].pool[..j], s);
        assert before + ms[i].pool[..j] + [s] == before + ms[i].pool[..j + 1];
        if s !in seen {
          pool := pool + [s];
          seen := seen + {s};
        }
      }
      assert ms[i].pool[..|ms[i].pool|] == ms[i].pool;
      OneMoreModule(ms, i);
    }
    assert ms[..|ms|] == ms;
  }

  lemma NoStrings()
    ensures FirstOccurrences<string>([]) == [] && AllStrings([]) == []
  {
  }

  lemma OneMoreModule(ms: seq<CompileModule>, i: nat)
    requires i < |ms|
    ensures AllStrings(ms[..i + 1]) == AllStrings(ms[..i]) + ms[i].pool
  {
    assert ms[..i + 1][..i] == ms[..i];
  }

  /** The merged pool holds the strings of the modules and nothing else. */
  lemma {:induction false} PoolHolds(ms: seq<CompileModule>, s: string)
    ensures s in FirstOccurrences(AllStrings(ms)) <==> exists m <- ms :: s in m.pool
    decreases |ms|
  {
    if ms != [] {
      var n := |ms| - 1;
      PoolHolds(ms[..n], s);
      assert ms == ms[..n] + [ms[n]];
    }
  }

  /** What follows does not move what was collected before: later modules renumber no string. */
  lemma {:induction false} PoolGrows<T(!new)>(xs: seq<T>, ys: seq<T>)
    ensures FirstOccurrences(xs) <= FirstOccurrences(xs + ys)
    decreases |ys|
  {
    if ys == [] {
      assert xs + ys == xs;
    } else {
      var n := |ys| - 1;
      PoolGrows(xs, ys[..n]);
      assert (xs + ys)[..|xs| + n] == xs + ys[..n];
    }
  }

  lemma {:induction false} LaterModules(ms: seq<CompileModule>, i: nat)
    requires i <= |ms|
    ensures FirstOccurrences(AllStrings(ms[..i])) <= FirstOccurrences(AllStrings(ms))
    decreases |ms| - i
  {
    assert ms[..|ms|] == ms;
    if i < |ms| {
      OneMoreModule(ms, i);
      PoolGrows(AllStrings(ms[..i]), ms[i].pool);
      LaterModules(ms, i + 1);
    }
  }

  /** The export table of a module with functions of these names: one entry a name. */
  method CollectExports(names: seq<NameId>) returns (exports: seq<NameId>)
    ensures exports == FirstOccurrences(names)
  {
    exports := [];
    for i := 0 to |names|
      invariant exports == FirstOccurrences(names[..i])
    {
      assert names[..i + 1][..i] == names[..i];
      if names[i] !in exports { exports := exports + [names[i]]; }
    }
    assert names[..|names|] == names;
  }

  // ----- symbols -----

  function Decimal(n: nat): string {
    (if n < 10 then "" else Decimal(n / 10)) + ["0123456789"[n % 10]]
  }

  /** An id outside the pool gets a made-up name. */
  function SymbolName(pool: seq<string>, id: NameId, tag: string): string {
    if id < |pool| then pool[id] else "<" + tag + Decimal(id) + ">"
  }

  function Exported(m: CompileModule): seq<Symbol> {
    seq(|m.exports|, i requires 0 <= i < |m.exports| =>
        Symbol(m.exports[i], SymbolName(m.pool, m.exports[i], "id"), m.moduleId))
  }

  function NotFunctions(m: CompileModule): seq<Symbol> {
    seq(|m.others|, i requires 0 <= i < |m.others| =>
        Symbol(m.others[i], SymbolName(m.pool, m.others[i], "sid"), m.moduleId))
  }

  /** The symbols a module defines, functions first. */
  function Listed(m: CompileModule): seq<Symbol> {
    Exported(m) + NotFunctions(m)
  }

  function AllSymbols(ms: seq<CompileModule>): seq<Symbol> {
    if ms == [] then [] else AllSymbols(ms[..|ms| - 1]) + Listed(ms[|ms| - 1])
  }

  /** The symbol's text is the module's string number `id`, or made up for an id beyond the pool. */
  ghost predicate Defines(m: CompileModule, s: Symbol) {
    s.moduleId == m.moduleId &&
    if s.id < |m.pool| then s.name == m.pool[s.id] && (s.id in m.exports || s.id in m.others)
    else
      || (s.id in m.exports && s.name == "<id" + Decimal(s.id) + ">")
      || (s.id in m.others && s.name == "<sid" + Decimal(s.id) + ">")
  }

  lemma ListedIff(m: CompileModule, s: Symbol)
    ensures s in Listed(m) <==> Defines(m, s)
  {
    if s in Listed(m) {
      if s in Exported(m) { assert s.id in m.exports; } else { assert s in NotFunctions(m) && s.id in m.others; }
    }
    if Defines(m, s) {
      if s.id in m.exports && s.name == SymbolName(m.pool, s.id, "id") {
        var i :| 0 <= i < |m.exports| && m.exports[i] == s.id;
        assert Exported(m)[i] == s;
      } else {
        var i :| 0 <= i < |m.others| && m.others[i] == s.id;
        assert NotFunctions(m)[i] == s;
      }
    }
  }

  /** The linker sees the symbols that some module defines. */
  lemma {:induction false} SymbolsIff(ms: seq<CompileModule>, s: Symbol)
    ensures s in AllSymbols(ms) <==> exists m <- ms :: Defines(m, s)
    decreases |ms|
  {
    hide Listed, Defines;
    if ms != [] {
      var n := |ms| - 1;
      SymbolsIff(ms[..n], s);
      ListedIff(ms[n], s);
      assert ms == ms[..n] + [ms[n]];
    }
  }

  predicate Names(ss: seq<Symbol>, name: string) {
    exists s <- ss :: s.name == name
  }

  ghost predicate DistinctNames(ss: seq<Symbol>) {
    forall i, j | 0 <= i < j < |ss| :: ss[i].name != ss[j].name
  }

  function Count(ss: seq<Symbol>, name: string): nat {
    if ss == [] then 0
    else Count(ss[..|ss| - 1], name) + if ss[|ss| - 1].name == name then 1 else 0
  }

  /** A name is counted once for every symbol that has it. */
  lemma {:induction false} CountNames(ss: seq<Symbol>, name: string)
    ensures Count(ss, name) > 0 <==> Names(ss, name)
    ensures DistinctNames(ss) ==> Count(ss, name) <= 1
    decreases |ss|
  {
    if ss != [] {
      var n := |ss| - 1;
      CountNames(ss[..n], name);
      assert ss == ss[..n] + [ss[n]];
    }
  }

  lemma OneMore(ss: seq<Symbol>, s: Symbol)
    ensures DistinctNames(ss + [s]) <==> DistinctNames(ss) && !Names(ss, s.name)
    ensures forall name :: Names(ss + [s], name) <==> Names(ss, name) || s.name == name
    ensures forall name :: Count(ss + [s], name) == Count(ss, name) + if s.name == name then 1 else 0
  {
    var t := ss + [s];
    assert t[..|ss|] == ss;
    if Names(ss, s.name) {
      var i :| 0 <= i < |ss| && ss[i].name == s.name;
      assert t[i].name == t[|ss|].name;
    }
    if DistinctNames(ss) && !Names(ss, s.name) {
      assert forall i | 0 <= i < |ss| :: ss[i] in ss;
    }
    if DistinctNames(t) {
      assert forall i | 0 <= i < |ss| :: t[i] == ss[i];
    }
  }

  /** Lists what a module defines. */
  method CollectDefinedSymbols(m: CompileModule) returns (ss: seq<Symbol>)
    ensures ss == Listed(m)
  {
    ss := [];
    for i := 0 to |m.exports|
      invariant ss == Exported(m)[..i]
    {
      var id := m.exports[i];
      ss := ss + [Symbol(id, SymbolName(m.pool, id, "id"), m.moduleId)];
    }
    for i := 0 to |m.others|
      invariant ss == Exported(m) + NotFunctions(m)[..i]
    {
      var id := m.others[i];
      ss := ss + [Symbol(id, SymbolName(m.pool, id, "sid"), m.moduleId)];
    }
  }

  // ----- linking -----

  /** The linker's tables while it goes through the symbols. */
  class Tables {
    var global: set<string>
    var perModule: set<(nat, string)>
    var entryName: NameId
    var entryModule: nat
    var entryCount: nat
    var errors: seq<LinkError>

    constructor ()
      ensures forall entry :: Holds([], entry)
    {
      global, perModule, errors := {}, {}, [];
      entryName, entryModule, entryCount := 0, 0, 0;
    }

    /** The tables after the symbols `ss`. */
    ghost predicate Holds(ss: seq<Symbol>, entry: string)
      reads this
    {
      && (forall name :: name in global <==> Names(ss, name))
      && (forall k <- perModule :: k.1 in global)
      && (DuplicateSymbol in errors <==> !DistinctNames(ss))
      && (forall e <- errors :: e == DuplicateSymbol)
      && entryCount == Count(ss, entry)
      && (entryCount > 0 ==> Symbol(entryName, entry, entryModule) in ss)
    }

    method Add(s: Symbol, entry: string, ghost ss: seq<Symbol>)
      requires Holds(ss, entry)
      modifies this
      ensures Holds(ss + [s], entry)
    {
      hide Count, Names, DistinctNames;
      OneMore(ss, s);
      if (s.moduleId, s.name) in perModule { errors := errors + [DuplicateSymbol]; }
      perModule := perModule + {(s.moduleId, s.name)};
      if s.name in global { errors := errors + [DuplicateSymbol]; }
      global := global + {s.name};
      if s.name == entry { entryName, entryModule, entryCount := s.id, s.moduleId, entryCount + 1; }
    }
  }

  /** Links the modules, or says what is wrong with them.  Linking succeeds exactly if there
      is a module, no two symbols share a name, and one of them is the entry. */
  method Link(ms: seq<CompileModule>, entry: string) returns (r: LinkResult)
    ensures r.Linked? <==> ms != [] && DistinctNames(AllSymbols(ms)) && Names(AllSymbols(ms), entry)
    ensures r.Linked? ==>
              var p := r.program;
              && Symbol(p.entryName, entry, p.entryModule) in AllSymbols(ms)
              && p.pool == FirstOccurrences(AllStrings(ms))
              && |p.chunks| == |ms|
              && forall i | 0 <= i < |ms| :: p.chunks[i] == Chunk(ms[i].moduleId, ms[i].initChunk)
    ensures r.Refused? ==>
              && (DuplicateSymbol in r.errors <==> !DistinctNames(AllSymbols(ms)))
              && (EntryNotFound in r.errors <==> !Names(AllSymbols(ms), entry))
              && (MultipleEntry in r.errors <==> Count(AllSymbols(ms), entry) > 1)
  {
    hide Listed, Count, DistinctNames, FirstOccurrences;
    CountNames(AllSymbols(ms), entry);
    if ms == [] {
      NoSymbols();
      return Refused([EntryNotFound]);
    }
    var chunks := seq(|ms|, i requires 0 <= i < |ms| => Chunk(ms[i].moduleId, ms[i].initChunk));
    var pool := CollectMergedStringPool(ms);
    var t := new Tables();
    for i := 0 to |ms|
      invariant fresh(t) && t.Holds(AllSymbols(ms[..i]), entry)
    {
      ghost var before := AllSymbols(ms[..i]);
      var ss := CollectDefinedSymbols(ms[i]);
      assert before + ss[..0] == before;
      for j := 0 to |ss|
        invariant t.Holds(before + ss[..j], entry)
      {
        t.Add(ss[j], entry, before + ss[..j]);
        assert before + ss[..j] + [ss[j]] == before + ss[..j + 1];
      }
      assert ss[..|ss|] == ss && ms[..i + 1][..i] == ms[..i];
    }
    assert ms[..|ms|] == ms;
    if t.entryCount > 1 {
      return Refused(t.errors + [MultipleEntry]);
    } else if t.entryCount == 0 {
      return Refused(t.errors + [EntryNotFound]);
    } else if t.errors != [] {
      assert t.errors[0] in t.errors;
      return Refused(t.errors);
    }
    return Linked(LinkedProgram(chunks, pool, t.entryName, t.entryModule));
  }

  lemma NoSymbols()
    ensures AllSymbols([]) == [] && DistinctNames([])
    ensures forall entry :: Count([], entry) == 0
  {
  }
}
