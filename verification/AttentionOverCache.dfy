/** Attention over the cache manager's sequences: swapping, forking and copying leave no mark on it. */
module AttentionOverCache {
  import opened Wrappers
  import opened PageTable
  import opened CacheStore
  import opened CacheAccounting
  import opened CacheRefinement
  import opened CacheViews
  import opened Softmax
  import opened AttentionSpec
  import CacheLifecycle
  import CacheWrites
  import CacheRuns

  /** `cache_view`: a sequence's tables over the pool. */
  function ViewOf(st: Store, sid: nat): CacheView
    requires sid in st.seqs
  {
    CacheView(st.seqs[sid].tables, st.pool)
  }

  lemma ViewIsDense(st: Store, sid: nat)
    requires MemoryInv(st) && sid in st.seqs
    ensures forall l :: 0 <= l < |st.seqs[sid].tables| ==> Dense(st.seqs[sid].tables[l])
    ensures Abs(st).seqs.Keys == st.seqs.Keys && Abs(st).seqs[sid].blocks == Blocks(st.pool, st.seqs[sid].tables)
  {
    TablesOkOf(st, sid);
    CacheLifecycle.AbsShows(st, sid, "");
    assert forall l :: 0 <= l < |st.seqs[sid].tables| ==> TableOk(st.pool, st.seqs[sid].tables[l]);
  }

  lemma EntryFrameExists(st: Store, sid: nat, l: nat, i: nat)
    requires MemoryInv(st) && sid in st.seqs && l < |st.seqs[sid].tables| && i < |st.seqs[sid].tables[l]|
    ensures st.seqs[sid].tables[l][i].slot.None? ==> st.seqs[sid].tables[l][i].physical < |st.pool.bytes|
  {
    CacheWrites.EntryIsCounted(st, sid, l, i);
  }

  /** Block i of table l is mapped and not in swap. */
  ghost predicate MappedResident(v: CacheView, l: nat, i: nat) {
    l < |v.tables| && i < |v.tables[l]| && v.tables[l][i].slot.None?
  }

  /** A kernel call fails for want of a block exactly when one it needs is unmapped or in swap. */
  lemma AttendsIffResident(st: Store, sid: nat, eb: nat, p: Params)
    requires MemoryInv(st) && sid in st.seqs
    ensures var v := ViewOf(st, sid);
            var l := TableOfLayer(v, p.layer);
            CanAttend(v, eb, p) <==>
            && ArgsOk(v, eb, p) && Stored(v, p)
            && forall i :: 0 <= i < LogicalBlocks(v, p) ==> MappedResident(v, l, i)
  {
    hide *;
    var v := ViewOf(st, sid);
    var l := TableOfLayer(v, p.layer);
    CanAttendIs(v, eb, p);
    if ValidView(v) {
      forall i: nat
        ensures BlockFrame(v, i, l).Some? <==> MappedResident(v, l, i)
      {
        FrameIffResident(st, sid, l, i);
      }
    } else {
      NotValidNotOk(v, eb, p);
    }
  }

  lemma DenseLookupIs(t: Table, index: nat)
    requires Dense(t)
    ensures Lookup(t, index) == if index < |t| && t[index].slot.None? then Some(t[index].physical) else None
  {
    hide Dense, LowerBound;
    DenseLowerBound(t, index);
  }

  lemma BlockFrameIs(v: CacheView, index: nat, layer: nat)
    requires ValidView(v) && layer < |v.tables|
    ensures BlockFrame(v, index, layer).Some? <==>
            Lookup(v.tables[layer], index).Some? && Lookup(v.tables[layer], index).value < |v.pool.bytes|
  {
    hide ValidView, Lookup;
  }

  lemma NoTableNoFrame(v: CacheView, index: nat, layer: nat)
    ensures layer >= |v.tables| ==> BlockFrame(v, index, layer).None?
  {}

  lemma FrameIffResident(st: Store, sid: nat, l: nat, i: nat)
    requires MemoryInv(st) && sid in st.seqs && ValidView(ViewOf(st, sid))
    ensures var v := ViewOf(st, sid);
            BlockFrame(v, i, l).Some? <==> MappedResident(v, l, i)
  {
    hide *;
    var v := ViewOf(st, sid);
    ViewFields(st, sid);
    ViewIsDense(st, sid);
    MappedResidentIs(v, l, i);
    NoTableNoFrame(v, i, l);
    if l < |v.tables| {
      BlockFrameIs(v, i, l);
      DenseLookupIs(v.tables[l], i);
      if i < |v.tables[l]| {
        EntryFrameExists(st, sid, l, i);
      }
    }
  }

  lemma MappedResidentIs(v: CacheView, l: nat, i: nat)
    ensures MappedResident(v, l, i) <==> l < |v.tables| && i < |v.tables[l]| && v.tables[l][i].slot.None?
  {}

  lemma CanAttendIs(v: CacheView, eb: nat, p: Params)
    ensures CanAttend(v, eb, p) <==>
            && ArgsOk(v, eb, p) && Stored(v, p)
            && forall i :: 0 <= i < LogicalBlocks(v, p) ==> BlockFrame(v, i, TableOfLayer(v, p.layer)).Some?
  {
    hide ArgsOk, Stored, BlockFrame, LogicalBlocks, TableOfLayer;
  }

  lemma NotValidNotOk(v: CacheView, eb: nat, p: Params)
    ensures ArgsOk(v, eb, p) ==> ValidView(v)
  {}

  /**
    Two states of the cache in which a sequence reads the same give the same attention: after an
    eviction and a restore, a fork, a copy-on-write elsewhere, or any frame permutation.
   */
  lemma SameReadingSameAttention(st: Store, st': Store, sid: nat, sid': nat, eb: nat, p: Params, e: Exp, query: seq<real>)
    requires CacheRuns.Inv(st) && CacheRuns.Inv(st') && sid in st.seqs && sid' in st'.seqs
    requires sid in Abs(st).seqs && sid' in Abs(st').seqs && Abs(st').seqs[sid'].blocks == Abs(st).seqs[sid].blocks
    requires var v, v' := ViewOf(st, sid), ViewOf(st', sid');
             Shape(v') == Shape(v) && WellSized(v) && WellSized(v') && CanAttend(v, eb, p) && CanAttend(v', eb, p)
    requires ExpLaws(e) && |query| == p.numQueryHeads * Shape(ViewOf(st, sid)).headDim
    ensures Output(ViewOf(st', sid'), eb, p, e, query, p.numQueryHeads) == Output(ViewOf(st, sid), eb, p, e, query, p.numQueryHeads)
  {
    hide *;
    CacheRuns.InvParts(st);
    CacheRuns.InvParts(st');
    ViewIsDense(st, sid);
    ViewIsDense(st', sid');
    var v, v' := ViewOf(st, sid), ViewOf(st', sid');
    ViewFields(st, sid);
    ViewFields(st', sid');
    AttendShows(v, eb, p);
    AttendShows(v', eb, p);
    SameBlocksSameTokens(v, v', p);
    PagingIsTransparent(v, v', eb, p, e, query, p.numQueryHeads);
  }

  lemma ViewFields(st: Store, sid: nat)
    requires sid in st.seqs
    ensures ViewOf(st, sid) == CacheView(st.seqs[sid].tables, st.pool)
  {}

  lemma AttendShows(v: CacheView, eb: nat, p: Params)
    requires CanAttend(v, eb, p)
    ensures ValidView(v) && Stored(v, p) && Resolved(v, p)
  {}
}
