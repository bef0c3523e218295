/**
 Where the instructions of a lowered function are: every IR program point has a code
 address, block starts are the recorded entries, and at every address the VM fetches the
 instruction that was lowered there.
 */
module LowerLayout {
  import opened Values
  import opened Ir
  import opened BuildShape
  import opened Lower
  import B = Bytecode

  // ----- prefixes -----

  lemma {:induction false} PrefixGrows(list: seq<Inst>, n: nat, entries: seq<nat>)
    requires n <= |list| && TargetsIn(list, |entries|)
    ensures TargetsIn(list[..n], |entries|)
    ensures Emitted(list[..n]).constants <= Emitted(list).constants
    ensures Layout(list[..n], entries) <= Layout(list, entries)
    decreases |list|
  {
    if n == |list| {
      assert list[..n] == list;
    } else {
      var before := list[..|list| - 1];
      assert before[..n] == list[..n];
      PrefixGrows(before, n, entries);
    }
  }

  lemma {:induction false} LayoutSize(list: seq<Inst>, entries: seq<nat>)
    requires TargetsIn(list, |entries|)
    ensures |Layout(list, entries)| == |Emitted(list).code|
    decreases |list|
  {
    if list != [] { LayoutSize(list[..|list| - 1], entries); }
  }

  lemma {:induction false} FlatPrefix(blocks: Code, n: nat)
    requires n <= |blocks|
    ensures Flat(blocks[..n]) <= Flat(blocks)
    decreases |blocks|
  {
    if n == |blocks| {
      assert blocks[..n] == blocks;
    } else {
      var before := blocks[..|blocks| - 1];
      assert before[..n] == blocks[..n];
      FlatPrefix(before, n);
    }
  }

  lemma {:induction false} EntryAt(blocks: Code, b: BlockId)
    requires b < |blocks|
    ensures Entries(blocks)[b] == |Emitted(Flat(blocks[..b])).code|
    decreases |blocks|
  {
    if b < |blocks| - 1 {
      var before := blocks[..|blocks| - 1];
      assert before[..b] == blocks[..b];
      EntryAt(before, b);
    }
  }

  // ----- addresses of program points -----

  predicate IsPoint(f: Func, pc: Point) {
    pc.block < |f.blocks| && pc.index < |f.blocks[pc.block]|
  }

  /** The instructions lowered before `pc`. */
  function Before(f: Func, pc: Point): seq<Inst>
    requires IsPoint(f, pc)
  {
    Flat(f.blocks[..pc.block]) + f.blocks[pc.block][..pc.index]
  }

  function Address(f: Func, pc: Point): nat
    requires IsPoint(f, pc)
  {
    |Emitted(Before(f, pc)).code|
  }

  lemma BeforePrefix(f: Func, pc: Point)
    requires IsPoint(f, pc)
    ensures Before(f, pc) + [f.blocks[pc.block][pc.index]] <= Flat(f.blocks)
  {
    var b := pc.block;
    FlatPrefix(f.blocks, b + 1);
    assert f.blocks[..b + 1][..b] == f.blocks[..b];
    assert Flat(f.blocks[..b + 1]) == Flat(f.blocks[..b]) + f.blocks[b];
  }

  lemma InFlat(f: Func, b: BlockId, k: nat)
    requires b < |f.blocks| && k < |f.blocks[b]|
    ensures f.blocks[b][k] in Flat(f.blocks)
  {
    var before := Before(f, Point(b, k));
    BeforePrefix(f, Point(b, k));
    assert (before + [f.blocks[b][k]])[|before|] == f.blocks[b][k];
  }

  lemma BlockAddress(f: Func, b: BlockId)
    requires IsPoint(f, Point(b, 0))
    ensures Address(f, Point(b, 0)) == Entries(f.blocks)[b]
  {
    EntryAt(f.blocks, b);
    assert Before(f, Point(b, 0)) == Flat(f.blocks[..b]);
  }

  lemma EntryAddress(f: Func)
    requires IsPoint(f, ENTRY)
    ensures Address(f, ENTRY) == 0
  {
    assert f.blocks[..0] == [] && Before(f, ENTRY) == [];
  }

  /** The bytes of instruction `n`, wherever the list goes on after it. */
  lemma LayoutAt(list: seq<Inst>, n: nat, entries: seq<nat>)
    requires n < |list| && TargetsIn(list, |entries|)
    ensures forall t <- Targets(list[n]) :: t < |entries|
    ensures var w := Emitted(list[..n]);
            var at := |w.code|;
            var enc := Encoded(list[n], at, |w.constants|, entries);
            var code := Layout(list, entries);
            at + |enc| <= |code| && code[at..at + |enc|] == enc && |Emitted(list[..n + 1]).code| == at + |enc| &&
            Emitted(list[..n + 1]).constants <= Emitted(list).constants
  {
    hide Encoded, EmitInst;
    assert list[n] in list;
    var here := list[..n + 1];
    PrefixGrows(list, n + 1, entries);
    assert here[..n] == list[..n] && here[n] == list[n];
    PrefixGrows(here, n, entries);
    LayoutSize(list[..n], entries);
    LayoutSize(here, entries);
    LayoutLast(here, entries);
  }

  lemma LayoutLast(list: seq<Inst>, entries: seq<nat>)
    requires list != [] && TargetsIn(list, |entries|)
    ensures var before := list[..|list| - 1];
            TargetsIn(before, |entries|) && list[|list| - 1] in list &&
            Layout(list, entries) == Layout(before, entries) +
            Encoded(list[|list| - 1], |Emitted(before).code|, |Emitted(before).constants|, entries)
  {
    hide Encoded, Emitted;
  }

  /** The code object of `f`, and what it holds at the address of `pc`. */
  lemma CodeAt(f: Func, pc: Point, o: B.FuncObject)
    requires IsPoint(f, pc) && LowerFunc(o.name, f) == Some(o)
    ensures var i := f.blocks[pc.block][pc.index];
            var at := Address(f, pc);
            var k := |Emitted(Before(f, pc)).constants|;
            Encodable(i) && TargetsReach(i, at, f) &&
            var enc := Encoded(i, at, k, Entries(f.blocks));
            at + |enc| <= |o.code| && o.code[at..at + |enc|] == enc &&
            |Emitted(Before(f, pc) + [i]).code| == at + |enc| &&
            Emitted(Before(f, pc) + [i]).constants <= o.constants
  {
    hide Encodable, Encoded, Emitted, Layout, Flat, ApplyAll, Before, TargetsReach;
    var i := f.blocks[pc.block][pc.index];
    var list := Flat(f.blocks);
    var before := Before(f, pc);
    var entries := Entries(f.blocks);
    BeforePrefix(f, pc);
    var n := |before|;
    assert list[..n] == before && list[..n + 1] == before + [i] && list[n] == i;
    ObjectCode(o, f);
    LayoutAt(list, n, entries);
    ReachAt(f, n);
  }

  lemma ObjectCode(o: B.FuncObject, f: Func)
    requires LowerFunc(o.name, f) == Some(o)
    ensures TargetsIn(Flat(f.blocks), |f.blocks|)
    ensures o.code == Layout(Flat(f.blocks), Entries(f.blocks))
    ensures o.constants == Emitted(Flat(f.blocks)).constants
  {
    hide Layout, Emitted, Flat, Encodable;
    LowerableTargets(f);
    Backpatched(Flat(f.blocks), Entries(f.blocks));
  }

  /** All targets of `i`, lowered at `at`, are blocks within 16-bit distance. */
  predicate TargetsReach(i: Inst, at: nat, f: Func) {
    var es := Entries(f.blocks);
    (forall t <- Targets(i) :: t < |es|) &&
    match i
    case Jump(t) => Distance(es[t], at + 3) <= B.U16_MAX
    case Branch(_, t, e) => Distance(es[t], at + 4) <= B.U16_MAX && Distance(es[e], at + 7) <= B.U16_MAX
    case _ => true
  }

  lemma LowerableTargets(f: Func)
    requires Lowerable(f)
    ensures forall p <- Emitted(Flat(f.blocks)).patches :: p.target < |Entries(f.blocks)|
  {
    hide Encodable;
  }

  lemma {:induction false} PatchesGrow(list: seq<Inst>, n: nat)
    requires n < |list|
    ensures forall p <- PatchesOf(list[n], |Emitted(list[..n]).code|) :: p in Emitted(list).patches
    decreases |list|
  {
    var before := list[..|list| - 1];
    if n < |list| - 1 {
      assert before[..n] == list[..n] && before[n] == list[n];
      PatchesGrow(before, n);
    }
  }

  lemma ReachAt(f: Func, n: nat)
    requires Lowerable(f) && n < |Flat(f.blocks)|
    ensures var list := Flat(f.blocks); Encodable(list[n]) && TargetsReach(list[n], |Emitted(list[..n]).code|, f)
  {
    hide Encodable, Emitted;
    var list := Flat(f.blocks);
    PatchesGrow(list, n);
    var ps := PatchesOf(list[n], |Emitted(list[..n]).code|);
    assert list[n] in list;
    if list[n].Jump? { assert ps[0] in ps; }
    if list[n].Branch? { assert ps[0] in ps && ps[1] in ps; }
  }

  // ----- the number of constants -----

  lemma {:induction false} ConstantsEmittedIn(list: seq<Inst>, block: seq<Inst>)
    ensures |Emitted(list + block).constants| == |Emitted(list).constants| + ConstantsIn(block)
    decreases |block|
  {
    if block == [] {
      assert list + block == list;
    } else {
      var n := |block| - 1;
      assert (list + block)[..|list + block| - 1] == list + block[..n];
      ConstantsEmittedIn(list, block[..n]);
    }
  }

  /** Lowering adds one pool entry per constant-loading instruction. */
  lemma {:induction false} ConstantsEmitted(blocks: Code)
    ensures |Emitted(Flat(blocks)).constants| == Constants(blocks)
    decreases |blocks|
  {
    if blocks != [] {
      var n := |blocks| - 1;
      ConstantsEmitted(blocks[..n]);
      ConstantsEmittedIn(Flat(blocks[..n]), blocks[n]);
    }
  }
}
