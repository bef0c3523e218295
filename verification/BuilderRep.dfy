/**
 How the builder's flat tables represent a build context: spans that are set lazily and
 grow only at the end of the instruction table, and `break` jumps whose target is still a
 placeholder while their loop is open.
 */
module BuilderRep {
  import opened Values
  import opened Source
  import opened Ir
  import opened Build
  import opened Tables

  /** An open loop: where `continue` goes, and the rows of the `break` jumps to patch. */
  datatype LoopPatch = LoopPatch(continueTarget: BlockId, breaks: seq<nat>)

  /** The tables as far as the function being built is concerned.  `pending` maps each
      unpatched break row to its loop's position in the loop stack, `owner` each row of the
      function to the block it belongs to, and `start` is the function's first row. */
  datatype Tab = Tab(recs: seq<BlockRecord>, insts: seq<Row>, nv: nat, cur: nat, names: map<Name, Reg>,
                     loops: seq<LoopPatch>, pending: map<nat, nat>, owner: seq<nat>, start: nat)

  predicate InBlock(r: BlockRecord, k: nat) {
    r.begin.Some? && r.begin.value <= k < r.begin.value + r.count
  }

  /** Row `k` is instruction `i`, or the placeholder of a break that will become `i`. */
  ghost predicate RowRep(t: Tab, g: Ctx, k: nat, i: Inst) {
    k < |t.insts| &&
    if k in t.pending then
      t.pending[k] < |g.loops| && i == Inst.Jump(g.loops[t.pending[k]] + 2) && t.insts[k] == RowOf(Inst.Jump(UNSET))
    else t.insts[k] == RowOf(i)
  }

  /** The record of block `b` covers exactly the block's instructions. */
  ghost predicate BlockRep(t: Tab, g: Ctx, b: BlockId)
    requires b < |t.recs| && b < |g.blocks|
  {
    var r := t.recs[b];
    && r.blockId == b && r.count == |g.blocks[b]| && (r.begin.None? <==> g.blocks[b] == [])
    && (r.begin.Some? ==>
          && t.start <= r.begin.value && r.begin.value + r.count <= |t.insts|
          && forall k | 0 <= k < r.count :: RowRep(t, g, r.begin.value + k, g.blocks[b][k]))
  }

  /** Every row of the function belongs to exactly one block. */
  ghost predicate Partition(t: Tab) {
    && t.start <= |t.owner| == |t.insts|
    && (forall k | t.start <= k < |t.insts| :: t.owner[k] < |t.recs|)
    && (forall k, b | t.start <= k < |t.insts| && 0 <= b < |t.recs| :: InBlock(t.recs[b], k) <==> t.owner[k] == b)
  }

  /** The placeholders are exactly the break rows of the open loops. */
  ghost predicate LoopsRep(t: Tab, g: Ctx) {
    && |t.loops| == |g.loops|
    && (forall j | 0 <= j < |t.loops| :: t.loops[j].continueTarget == g.loops[j])
    && (forall k <- t.pending :: t.start <= k < |t.insts| && t.pending[k] < |t.loops|)
    && (forall j, k | 0 <= j < |t.loops| :: k in t.loops[j].breaks <==> k in t.pending && t.pending[k] == j)
  }

  ghost predicate Rep(t: Tab, g: Ctx) {
    && HasBlock(g) && |t.recs| == |g.blocks| && t.cur == g.cur && t.nv == g.nv && t.names == g.names
    && (forall b | 0 <= b < |g.blocks| :: BlockRep(t, g, b))
    && (g.blocks[g.cur] != [] ==> t.recs[g.cur].begin.Some? && t.recs[g.cur].begin.value + t.recs[g.cur].count == |t.insts|)
    && Partition(t) && LoopsRep(t, g)
  }

  /** The tables at the start of a function: one empty block, no row. */
  lemma StartRep(t: Tab)
    requires t.recs == [BlockRecord(0, None, 0)] && t.cur == t.nv == 0 && t.names == map[] && t.loops == [] && t.pending == map[]
    requires t.start == |t.owner| == |t.insts|
    ensures Rep(t, Ctx([[]], 0, 0, map[], []))
  {
  }

  // ----- the builder's primitive actions on the tables -----

  /** Appends a row to the current block, placing the block here if this is its first. */
  function EmitRow(t: Tab, row: Row): Tab
    requires t.cur < |t.recs|
  {
    var r := t.recs[t.cur];
    t.(recs := t.recs[t.cur := r.(begin := Some(if r.begin.Some? then r.begin.value else |t.insts|), count := r.count + 1)],
       insts := t.insts + [row], owner := t.owner + [t.cur])
  }

  lemma EmitBlock(t: Tab, g: Ctx, i: Inst, b: BlockId, t': Tab)
    requires Rep(t, g) && b < |g.blocks|
    requires t.start <= |t.insts| && |t'.insts| == |t.insts| + 1
    requires t' == EmitRow(t, t'.insts[|t.insts|]).(pending := t'.pending, loops := t'.loops)
    requires (forall k <- t.pending :: k in t'.pending && t'.pending[k] == t.pending[k])
    requires forall k <- t'.pending :: k == |t.insts| || k in t.pending
    requires RowRep(t', g, |t.insts|, i)
    ensures BlockRep(t', Emit(g, i), b)
  {
    hide Partition, LoopsRep, RowOf;
    var g' := Emit(g, i);
    var r, r' := t.recs[b], t'.recs[b];
    assert BlockRep(t, g, b) && BlockRep(t, g, g.cur);
    forall k | 0 <= k < r'.count
      ensures RowRep(t', g', r'.begin.value + k, g'.blocks[b][k])
    {
      if k < r.count { assert RowRep(t, g, r.begin.value + k, g.blocks[b][k]); }
    }
  }

  lemma EmitPartition(t: Tab, row: Row)
    requires Partition(t) && t.cur < |t.recs|
    requires forall b | 0 <= b < |t.recs| && t.recs[b].begin.Some? :: t.recs[b].begin.value + t.recs[b].count <= |t.insts|
    requires t.recs[t.cur].begin.Some? ==> t.recs[t.cur].begin.value + t.recs[t.cur].count == |t.insts|
    requires t.recs[t.cur].begin.None? ==> t.recs[t.cur].count == 0
    ensures Partition(EmitRow(t, row))
  {
    var t' := EmitRow(t, row);
    forall k, b | t.start <= k < |t'.insts| && 0 <= b < |t.recs|
      ensures InBlock(t'.recs[b], k) <==> t'.owner[k] == b
    {
      if k < |t.insts| { assert InBlock(t.recs[b], k) <==> t.owner[k] == b; }
    }
  }

  lemma SpansInside(t: Tab, g: Ctx)
    requires Rep(t, g)
    ensures forall b | 0 <= b < |t.recs| && t.recs[b].begin.Some? :: t.recs[b].begin.value + t.recs[b].count <= |t.insts|
    ensures t.cur < |t.recs| && t.start <= |t.insts|
    ensures t.recs[t.cur].begin.Some? ==> t.recs[t.cur].begin.value + t.recs[t.cur].count == |t.insts|
    ensures t.recs[t.cur].begin.None? ==> t.recs[t.cur].count == 0
  {
    hide LoopsRep, RowRep;
    forall b | 0 <= b < |t.recs| && t.recs[b].begin.Some?
      ensures t.recs[b].begin.value + t.recs[b].count <= |t.insts|
    {
      assert BlockRep(t, g, b);
    }
    assert BlockRep(t, g, g.cur);
  }

  lemma EmitRep(t: Tab, g: Ctx, i: Inst)
    requires Rep(t, g)
    ensures Rep(EmitRow(t, RowOf(i)), Emit(g, i))
  {
    hide BlockRep, RowOf, Partition;
    SpansInside(t, g);
    var t' := EmitRow(t, RowOf(i));
    EmitPartition(t, RowOf(i));
    forall b | 0 <= b < |g.blocks|
      ensures BlockRep(t', Emit(g, i), b)
    {
      EmitBlock(t, g, i, b, t');
    }
  }

  /** A break: a jump with a placeholder target, remembered in the innermost loop. */
  function EmitBreak(t: Tab): Tab
    requires t.cur < |t.recs| && t.loops != []
  {
    var top := |t.loops| - 1;
    EmitRow(t, RowOf(Inst.Jump(UNSET))).(loops := t.loops[top := t.loops[top].(breaks := t.loops[top].breaks + [|t.insts|])],
                                    pending := t.pending[|t.insts| := top])
  }

  lemma EmitBreakRep(t: Tab, g: Ctx)
    requires Rep(t, g) && g.loops != []
    ensures Rep(EmitBreak(t), Emit(g, Inst.Jump(g.loops[|g.loops| - 1] + 2)))
  {
    hide BlockRep, RowOf, Partition;
    SpansInside(t, g);
    var t' := EmitBreak(t);
    var i := Inst.Jump(g.loops[|g.loops| - 1] + 2);
    EmitPartition(t, RowOf(Inst.Jump(UNSET)));
    PartitionSame(EmitRow(t, RowOf(Inst.Jump(UNSET))), t');
    forall b | 0 <= b < |g.blocks|
      ensures BlockRep(t', Emit(g, i), b)
    {
      EmitBlock(t, g, i, b, t');
    }
  }

  lemma PartitionSame(t: Tab, t': Tab)
    requires Partition(t) && t'.recs == t.recs && |t'.insts| == |t.insts| && t'.owner == t.owner && t'.start == t.start
    ensures Partition(t')
  {
  }

  lemma AddBlockRep(t: Tab, g: Ctx)
    requires Rep(t, g)
    ensures Rep(t.(recs := t.recs + [BlockRecord(|t.recs|, None, 0)]), AddBlocks(g, 1))
  {
    hide RowOf;
    var t', g' := t.(recs := t.recs + [BlockRecord(|t.recs|, None, 0)]), AddBlocks(g, 1);
    forall b | 0 <= b < |g'.blocks|
      ensures BlockRep(t', g', b)
    {
      if b < |g.blocks| { assert BlockRep(t, g, b) && g'.blocks[b] == g.blocks[b]; }
    }
  }

  lemma SwitchRep(t: Tab, g: Ctx, c: BlockId)
    requires Rep(t, g) && c < |g.blocks| && g.blocks[c] == []
    ensures Rep(t.(cur := c), g.(cur := c))
  {
    hide RowRep;
    forall b | 0 <= b < |g.blocks|
      ensures BlockRep(t.(cur := c), g.(cur := c), b)
    {
      SameBlock(t, g, t.(cur := c), g.(cur := c), b);
    }
  }

  /** Only rows, records, pending breaks and loops matter to a block. */
  lemma SameBlock(t: Tab, g: Ctx, t': Tab, g': Ctx, b: BlockId)
    requires b < |t.recs| && b < |g.blocks| && BlockRep(t, g, b)
    requires t'.recs == t.recs && t'.insts == t.insts && t'.pending == t.pending && t'.start == t.start
    requires g'.blocks == g.blocks && g.loops <= g'.loops
    ensures BlockRep(t', g', b)
  {
    hide RowOf;
    var r := t.recs[b];
    if r.begin.Some? {
      forall k | 0 <= k < r.count
        ensures RowRep(t', g', r.begin.value + k, g'.blocks[b][k])
      {
        assert RowRep(t, g, r.begin.value + k, g.blocks[b][k]);
      }
    }
  }

  lemma VregRep(t: Tab, g: Ctx, n: nat, names: map<Name, Reg>)
    requires Rep(t, g)
    ensures Rep(t.(nv := n, names := names), g.(nv := n, names := names))
  {
    hide RowRep;
    forall b | 0 <= b < |g.blocks|
      ensures BlockRep(t.(nv := n, names := names), g.(nv := n, names := names), b)
    {
      SameBlock(t, g, t.(nv := n, names := names), g.(nv := n, names := names), b);
    }
  }

  lemma PushLoopRep(t: Tab, g: Ctx, c: BlockId)
    requires Rep(t, g)
    ensures Rep(t.(loops := t.loops + [LoopPatch(c, [])]), g.(loops := g.loops + [c]))
  {
    hide RowRep;
    var t', g' := t.(loops := t.loops + [LoopPatch(c, [])]), g.(loops := g.loops + [c]);
    forall b | 0 <= b < |g.blocks|
      ensures BlockRep(t', g', b)
    {
      SameBlock(t, g, t', g', b);
    }
  }

  /** The innermost loop is done: its break rows get their target and it is forgotten. */
  ghost predicate Popped(t: Tab, t': Tab, exit: BlockId)
    requires t.loops != []
  {
    var top := |t.loops| - 1;
    && t'.(insts := t.insts, loops := t.loops, pending := t.pending) == t
    && t'.loops == t.loops[..top] && |t'.insts| == |t.insts|
    && (forall k :: k in t'.pending <==> k in t.pending && t.pending[k] != top)
    && (forall k <- t'.pending :: t'.pending[k] == t.pending[k])
    && (forall k | 0 <= k < |t.insts| ::
          t'.insts[k] == if k in t.pending && t.pending[k] == top then RowOf(Inst.Jump(exit)) else t.insts[k])
  }

  lemma PopLoopRep(t: Tab, g: Ctx, t': Tab, exit: BlockId)
    requires Rep(t, g) && g.loops != [] && Popped(t, t', exit) && exit == g.loops[|g.loops| - 1] + 2
    ensures Rep(t', g.(loops := g.loops[..|g.loops| - 1]))
  {
    hide RowOf;
    var g' := g.(loops := g.loops[..|g.loops| - 1]);
    forall b | 0 <= b < |g.blocks|
      ensures BlockRep(t', g', b)
    {
      PoppedBlock(t, g, t', exit, b);
    }
    PartitionSame(t, t');
  }

  lemma PoppedBlock(t: Tab, g: Ctx, t': Tab, exit: BlockId, b: BlockId)
    requires t.loops != [] && |t.loops| == |g.loops| && b < |t.recs| && b < |g.blocks| && BlockRep(t, g, b)
    requires Popped(t, t', exit) && exit == g.loops[|g.loops| - 1] + 2
    ensures BlockRep(t', g.(loops := g.loops[..|g.loops| - 1]), b)
  {
    hide RowOf;
    var r := t.recs[b];
    var g' := g.(loops := g.loops[..|g.loops| - 1]);
    if r.begin.Some? {
      forall k | 0 <= k < r.count
        ensures RowRep(t', g', r.begin.value + k, g'.blocks[b][k])
      {
        assert RowRep(t, g, r.begin.value + k, g.blocks[b][k]);
      }
    }
  }

  /** The tail row tells whether the current block is closed. */
  lemma TerminatedRep(t: Tab, g: Ctx)
    requires Rep(t, g)
    ensures var r := t.recs[t.cur];
            Terminated(g) <==> r.count != 0 && r.begin.Some? && r.begin.value + r.count <= |t.insts| &&
                               Tables.IsTerminator(t.insts[r.begin.value + r.count - 1].kind)
  {
    hide Partition, LoopsRep;
    assert BlockRep(t, g, g.cur);
    var r := t.recs[g.cur];
    if g.blocks[g.cur] != [] {
      assert RowRep(t, g, r.begin.value + (r.count - 1), g.blocks[g.cur][r.count - 1]);
    }
  }

  // ----- finished functions -----

  ghost predicate Covered(recs: seq<BlockRecord>, k: nat) {
    exists b :: 0 <= b < |recs| && InBlock(recs[b], k)
  }

  /** The records' spans are non-empty, lie within `from..to` and together cover it, each
      row belonging to exactly one of them. */
  ghost predicate Spread(recs: seq<BlockRecord>, from: nat, to: nat) {
    && (forall r <- recs :: r.begin.Some? && r.count > 0 && from <= r.begin.value && r.begin.value + r.count <= to)
    && (forall k | from <= k < to :: Covered(recs, k))
    && (forall k, a, b | from <= k < to && 0 <= a < b < |recs| :: !(InBlock(recs[a], k) && InBlock(recs[b], k)))
  }

  lemma RepSpread(t: Tab, g: Ctx)
    requires Rep(t, g) && forall b | 0 <= b < |g.blocks| :: g.blocks[b] != []
    ensures Spread(t.recs, t.start, |t.insts|)
  {
    hide RowRep, LoopsRep;
    forall b | 0 <= b < |t.recs|
      ensures var r := t.recs[b]; r.begin.Some? && r.count > 0 && t.start <= r.begin.value && r.begin.value + r.count <= |t.insts|
    {
      assert BlockRep(t, g, b);
    }
    forall k | t.start <= k < |t.insts|
      ensures Covered(t.recs, k)
    {
      assert InBlock(t.recs[t.owner[k]], k);
    }
    forall k, a, b | t.start <= k < |t.insts| && 0 <= a < b < |t.recs|
      ensures !(InBlock(t.recs[a], k) && InBlock(t.recs[b], k))
    {
      assert InBlock(t.recs[a], k) ==> t.owner[k] == a;
    }
  }

  lemma LoopsDone(t: Tab, g: Ctx)
    requires LoopsRep(t, g) && g.loops == []
    ensures t.pending == map[]
  {
    assert forall k :: k !in t.pending;
  }

  /** With no loop open, a block's rows spell its instructions. */
  lemma BlockCode(t: Tab, g: Ctx, ir: ModuleIr, b: BlockId)
    requires Rep(t, g) && g.loops == [] && b < |g.blocks| && g.blocks[b] != [] && ir.insts == t.insts
    requires forall i <- g.blocks[b] :: i.Constant? ==> i.v.Int? || i.v.Bool?
    ensures BlockIn(t.recs[b], |ir.insts|) && BlockInsts(ir, t.recs[b]) == Some(g.blocks[b])
    ensures SpellsBlock(RowsOf(ir, t.recs[b]), g.blocks[b])
  {
    hide Partition, LoopsRep, RowOf, InstOf;
    LoopsDone(t, g);
    assert BlockRep(t, g, b);
    var rows := RowsOf(ir, t.recs[b]);
    forall k | 0 <= k < |rows|
      ensures InstOf(rows[k]) == Some(g.blocks[b][k]) && rows[k] == RowOf(g.blocks[b][k])
    {
      assert RowRep(t, g, t.recs[b].begin.value + k, g.blocks[b][k]);
      assert g.blocks[b][k] in g.blocks[b];
      RowRoundTrip(g.blocks[b][k]);
    }
    InstsAre(rows, g.blocks[b]);
  }

  lemma CodeRep(t: Tab, g: Ctx, ir: ModuleIr)
    requires Rep(t, g) && g.loops == [] && ir.insts == t.insts
    requires forall b | 0 <= b < |g.blocks| :: g.blocks[b] != []
    requires forall b | 0 <= b < |g.blocks| :: forall i <- g.blocks[b] :: i.Constant? ==> i.v.Int? || i.v.Bool?
    ensures BlocksIn(ir, t.recs) && CodeOf(ir, t.recs) == Some(g.blocks) && Spells(ir, t.recs, g.blocks)
    ensures forall b | 0 <= b < |g.blocks| :: t.recs[b].blockId == b
  {
    hide BlockRep, BlockInsts, SpellsBlock, Partition, LoopsRep;
    forall b | 0 <= b < |g.blocks|
      ensures BlockIn(t.recs[b], |ir.insts|) && BlockInsts(ir, t.recs[b]) == Some(g.blocks[b]) && t.recs[b].blockId == b
      ensures SpellsBlock(RowsOf(ir, t.recs[b]), g.blocks[b])
    {
      BlockCode(t, g, ir, b);
      BlockId(t, g, b);
    }
    CodeIs(ir, t.recs, g.blocks);
  }

  lemma BlockId(t: Tab, g: Ctx, b: BlockId)
    requires Rep(t, g) && b < |g.blocks|
    ensures t.recs[b].blockId == b
  {
    hide RowRep, Partition, LoopsRep;
    assert BlockRep(t, g, b);
  }
}
