/**
  Sharing is invisible: each cache-manager call keeps the reference accounting and acts on
  what sequences read exactly as the private-copy store does.
 */
module CacheRefinement {
  import opened Arithmetic
  import opened SwapStore
  import opened FramePool
  import opened PageTable
  import opened CacheStore
  import opened CacheAccounting
  import opened CacheTables
  import opened PrivateStore
  import opened Sums

  // ---- The abstraction ------------------------------------------------------------------------

  ghost function AbsSeq(p: Pool, s: Sequence): PrivateSeq {
    PrivateSeq(s.request, Blocks(p, s.tables), s.key, s.hash)
  }

  ghost function FrameBytes(p: Pool, ids: seq<nat>): seq<Frame> {
    seq(|ids|, i requires 0 <= i < |ids| => Content(p, OnFrame(ids[i])))
  }

  ghost function AbsRecord(p: Pool, r: PrefixRecord): SavedPrefix {
    SavedPrefix(r.hash, r.tokens, r.users, FrameBytes(p, r.ids))
  }

  ghost function AbsRecords(p: Pool, rs: seq<PrefixRecord>): seq<SavedPrefix> {
    seq(|rs|, i requires 0 <= i < |rs| => AbsRecord(p, rs[i]))
  }

  ghost function AbsSeqs(p: Pool, seqs: map<nat, Sequence>): map<nat, PrivateSeq> {
    map sid | sid in seqs :: AbsSeq(p, seqs[sid])
  }

  ghost function AbsPrefixes(p: Pool, prefixes: map<string, seq<PrefixRecord>>): map<string, seq<SavedPrefix>> {
    map key | key in prefixes :: AbsRecords(p, prefixes[key])
  }

  ghost function Abs(st: Store): Private {
    Private(TableCount(st.pool), TokensPerBlock(st.pool),
            AbsSeqs(st.pool, st.seqs), AbsPrefixes(st.pool, st.prefixes))
  }

  // ---- What other holders see -------------------------------------------------------------------

  lemma {:induction false} PinsHold(rs: seq<PrefixRecord>, i: nat)
    requires i < |rs|
    ensures multiset(Frames(rs[i].ids)) <= Pins(rs)
  {
    if i > 0 {
      PinsHold(rs[1..], i - 1);
    }
  }

  lemma SameFrameBytes(p: Pool, q: Pool, ids: seq<nat>)
    requires SameContent(p, q, multiset(Frames(ids)))
    ensures FrameBytes(q, ids) == FrameBytes(p, ids)
  {
    forall i | 0 <= i < |ids|
      ensures Content(q, OnFrame(ids[i])) == Content(p, OnFrame(ids[i]))
    {
      assert Frames(ids)[i] in multiset(Frames(ids));
    }
  }

  lemma SameRecords(p: Pool, q: Pool, rs: seq<PrefixRecord>)
    requires SameContent(p, q, Pins(rs))
    ensures AbsRecords(q, rs) == AbsRecords(p, rs)
  {
    forall i | 0 <= i < |rs|
      ensures AbsRecord(q, rs[i]) == AbsRecord(p, rs[i])
    {
      PinsHold(rs, i);
      SameFrameBytes(p, q, rs[i].ids);
    }
  }

  lemma SamePrefixes(p: Pool, q: Pool, prefixes: map<string, seq<PrefixRecord>>)
    requires SameContent(p, q, SumMap(PrefixHolds(prefixes)))
    ensures AbsPrefixes(q, prefixes) == AbsPrefixes(p, prefixes)
  {
    forall key | key in prefixes
      ensures AbsRecords(q, prefixes[key]) == AbsRecords(p, prefixes[key])
    {
      SumMapHolds(PrefixHolds(prefixes), key);
      SameRecords(p, q, prefixes[key]);
    }
  }

  lemma SameOthers(st: Store, sid: nat, q: Pool)
    requires SameContent(st.pool, q, Rest(st, sid))
    ensures AbsSeqs(q, st.seqs - {sid}) == AbsSeqs(st.pool, st.seqs) - {sid}
    ensures AbsPrefixes(q, st.prefixes) == AbsPrefixes(st.pool, st.prefixes)
  {
    forall other | other in st.seqs && other != sid
      ensures AbsSeq(q, st.seqs[other]) == AbsSeq(st.pool, st.seqs[other])
    {
      RestHoldsOthers(st, sid, other);
      SameBlocks(st.pool, q, st.seqs[other].tables);
    }
    SamePrefixes(st.pool, q, st.prefixes);
  }

  lemma AbsAfterPut(st: Store, sid: nat, s: Sequence, q: Pool)
    requires SameContent(st.pool, q, Rest(st, sid)) && SameLayout(st.pool, q)
    ensures Abs(st.(pool := q, seqs := st.seqs[sid := s]))
         == Abs(st).(seqs := Abs(st).seqs[sid := AbsSeq(q, s)])
  {
    SameOthers(st, sid, q);
    var m, m' := AbsSeqs(st.pool, st.seqs), AbsSeqs(q, st.seqs[sid := s]);
    forall k | k in m'
      ensures m'[k] == m[sid := AbsSeq(q, s)][k]
    {
      if k != sid {
        assert k in AbsSeqs(q, st.seqs - {sid});
      }
    }
    assert m' == m[sid := AbsSeq(q, s)];
  }

  /** One holder's move, written back, keeps the accounting and only that sequence's reading. */
  lemma PutMoved(st: Store, sid: nat, s: Sequence, q: Pool)
    requires MemoryInv(st)
    requires Move(st.pool, Own(st, sid), q, HeldBy(s.tables), Rest(st, sid))
    requires TablesOk(q, s.tables)
    ensures var st' := st.(pool := q, seqs := st.seqs[sid := s]);
            MemoryInv(st') && Abs(st') == Abs(st).(seqs := Abs(st).seqs[sid := AbsSeq(q, s)])
  {
    MemoryInvAfterPut(st, sid, s, q);
    AbsAfterPut(st, sid, s, q);
  }

  /** The same bytes behind other tables read the same. */
  lemma PutMovedUnseen(st: Store, sid: nat, tables: seq<Table>, q: Pool)
    requires MemoryInv(st) && sid in st.seqs
    requires Move(st.pool, Own(st, sid), q, HeldBy(tables), Rest(st, sid))
    requires TablesOk(q, tables)
    requires Blocks(q, tables) == Blocks(st.pool, st.seqs[sid].tables)
    ensures var st' := st.(pool := q, seqs := st.seqs[sid := st.seqs[sid].(tables := tables)]);
            MemoryInv(st') && Abs(st') == Abs(st)
  {
    var s := st.seqs[sid].(tables := tables);
    PutMoved(st, sid, s, q);
    assert AbsSeq(q, s) == AbsSeq(st.pool, st.seqs[sid]);
    AbsPutSelf(st, sid);
  }

  lemma AbsPutSelf(st: Store, sid: nat)
    requires sid in st.seqs
    ensures Abs(st).(seqs := Abs(st).seqs[sid := AbsSeq(st.pool, st.seqs[sid])]) == Abs(st)
  {
    assert Abs(st).seqs[sid := AbsSeq(st.pool, st.seqs[sid])] == Abs(st).seqs;
  }

  lemma OwnMoveStarts(st: Store, sid: nat)
    requires MemoryInv(st)
    ensures Accounted(st.pool, Rest(st, sid) + Own(st, sid))
  {
    HeldSplits(st, sid);
  }

  // ---- Create and fork -----------------------------------------------------------------------------

  lemma {:induction false} FlatOfEmpties(n: nat)
    ensures Flat(seq(n, _ => [])) == []
  {
    if n > 0 {
      var tables: seq<Table> := seq(n, _ => []);
      assert tables[1..] == seq(n - 1, _ => []);
      FlatOfEmpties(n - 1);
      assert Wheres(tables[0]) == [];
    }
  }

  /** The request index plays no part in the accounting or the reading. */
  lemma IndexIsInvisible(st: Store, index: map<nat, seq<nat>>)
    ensures MemoryInv(st.(byRequest := index)) <==> MemoryInv(st)
    ensures Abs(st.(byRequest := index)) == Abs(st)
  {}

  lemma CreateRefines(st: Store, sid: nat, request: nat)
    requires MemoryInv(st)
    ensures var (st', ok) := CreateSequence(st, sid, request);
            && MemoryInv(st') && (ok <==> sid !in st.seqs)
            && Abs(st') == if ok then PCreate(Abs(st), sid, request) else Abs(st)
  {
    if sid !in st.seqs {
      var tables: seq<Table> := seq(TableCount(st.pool), _ => []);
      var s := Sequence(request, tables, "", 0);
      FlatOfEmpties(TableCount(st.pool));
      OwnMoveStarts(st, sid);
      MoveNothing(st.pool, HeldBy(tables), Rest(st, sid));
      PutMoved(st, sid, s, st.pool);
      assert Blocks(st.pool, tables) == seq(TableCount(st.pool), _ => []);
      IndexIsInvisible(st.(seqs := st.seqs[sid := s]), Index(st.byRequest, request, sid));
    }
  }

  lemma {:induction false} ForkSharesReferences(p: Pool, tables: seq<Table>, child: nat)
    ensures Flat(ForkTables(tables, child)) == Flat(tables)
    ensures Blocks(p, ForkTables(tables, child)) == Blocks(p, tables)
  {
    if tables != [] {
      ForkSharesReferences(p, tables[1..], child);
      assert ForkTables(tables, child)[1..] == ForkTables(tables[1..], child);
      assert Wheres(Fork(tables[0], child)) == Wheres(tables[0]);
      assert forall l :: 0 <= l < |tables| ==> TableBlocks(p, Fork(tables[l], child)) == TableBlocks(p, tables[l]);
    }
  }

  lemma {:induction false} ResidentReferences(tables: seq<Table>)
    requires AllResident(tables)
    ensures forall r :: r in Flat(tables) ==> r.OnFrame?
    ensures Flat(tables) == Frames(FlatPhysicals(tables))
  {
    if tables != [] {
      assert AllResident(tables[1..]) by {
        assert forall l, i :: 0 <= l < |tables[1..]| && 0 <= i < |tables[1..][l]| ==> tables[1..][l][i] == tables[l + 1][i];
      }
      ResidentReferences(tables[1..]);
      assert Wheres(tables[0]) == Frames(Physicals(tables[0]));
    }
  }

  lemma RetainMoves(p: Pool, rs: seq<Res>, held: multiset<Res>)
    requires Accounted(p, held) && multiset(rs) <= held && forall r :: r in rs ==> r.OnFrame?
    ensures var q := RetainAll(p, rs);
            && Accounted(q, held + multiset(rs))
            && (forall r :: Content(q, r) == Content(p, r)) && SameLayout(p, q)
  {
    assert forall r :: r in rs ==> r in multiset(rs);
    RetainAllAccounted(p, held, rs);
  }

  lemma ForkRefines(st: Store, parent: nat, child: nat, request: nat)
    requires MemoryInv(st)
    ensures var (st', ok) := ForkSequence(st, parent, child, request);
            && MemoryInv(st')
            && (ok <==> parent in st.seqs && child !in st.seqs && AllResident(st.seqs[parent].tables))
            && Abs(st') == if ok then PFork(Abs(st), parent, child, request) else Abs(st)
  {
    var (st', ok) := ForkSequence(st, parent, child, request);
    if ok {
      var tables := st.seqs[parent].tables;
      var forked := ForkTables(tables, child);
      ForkSharesReferences(st.pool, tables, child);
      ResidentReferences(tables);
      HeldSplits(st, parent);
      RetainMoves(st.pool, Flat(forked), Held(st));
      var q := RetainAll(st.pool, Flat(forked));
      assert Rest(st, child) == Held(st) by {
        HeldSplits(st, child);
      }
      ForkedTablesOk(st.pool, q, tables, child);
      var s := Sequence(request, forked, "", 0);
      MemoryInvAfterPut(st, child, s, q);
      AbsAfterPut(st, child, s, q);
      SameBlocks(st.pool, q, forked);
      IndexIsInvisible(st.(pool := q, seqs := st.seqs[child := s]), Index(st.byRequest, request, child));
    }
  }

  lemma ForkedTablesOk(p: Pool, q: Pool, tables: seq<Table>, child: nat)
    requires TablesOk(p, tables) && SameLayout(p, q)
    ensures TablesOk(q, ForkTables(tables, child))
  {
    ForkSharesReferences(p, tables, child);
    forall l | 0 <= l < |tables|
      ensures TableOk(q, Fork(tables[l], child))
    {
      assert TableOk(p, tables[l]);
    }
  }

  // ---- Reserve -------------------------------------------------------------------------------------

  lemma GrownTablesOk(p: Pool, q: Pool, tables: seq<Table>, tables': seq<Table>, sid: nat, count: nat, others: multiset<Res>)
    requires TablesOk(p, tables) && SameLayout(p, q) && TokensPerBlock(p) > 0
    requires |tables'| == |tables|
    requires forall l :: 0 <= l < |tables| ==> Grown(tables[l], tables'[l], sid, TokensPerBlock(p), count)
    requires Renews(HeldBy(tables), HeldBy(tables'), others)
    ensures TablesOk(q, tables')
  {
    RenewsKeepsNoRepeats(Flat(tables), Flat(tables'), others);
    forall l | 0 <= l < |tables'|
      ensures TableOk(q, tables'[l]) && |tables'[l]| == |tables'[0]|
    {
      assert TableOk(p, tables[l]) && Grown(tables[l], tables'[l], sid, TokensPerBlock(p), count);
      assert Grown(tables[0], tables'[0], sid, TokensPerBlock(p), count);
      GrownTableOk(p, q, tables[l], tables'[l], sid, count);
    }
  }

  lemma GrownTableOk(p: Pool, q: Pool, t: Table, t': Table, sid: nat, count: nat)
    requires TableOk(p, t) && SameLayout(p, q) && TokensPerBlock(p) > 0
    requires Grown(t, t', sid, TokensPerBlock(p), count)
    ensures TableOk(q, t')
  {
    forall i | 0 <= i < |t'|
      ensures t'[i].logical.count == TokensPerBlock(q)
    {
      if i < |t| {
        assert t'[i] == t[i];
      }
    }
  }

  lemma ReserveIs(st: Store, sid: nat, tokens: nat)
    requires ValidPool(st.pool)
    ensures var (st', ok) := ReserveTokens(st, sid, tokens);
            var tpb := TokensPerBlock(st.pool);
            && (ok <==> sid in st.seqs && tpb > 0 && CeilDiv(tokens, tpb) * |st.seqs[sid].tables| <= |st.pool.free|)
            && (!ok ==> st' == st)
            && (ok ==>
                  var (q, tables') := GrowTables(st.pool, st.seqs[sid].tables, sid, tpb, CeilDiv(tokens, tpb));
                  st' == st.(pool := q, seqs := st.seqs[sid := st.seqs[sid].(tables := tables')]))
  {
    hide ValidPool, GrowTables, CeilDiv;
  }

  lemma TablesAreDense(p: Pool, tables: seq<Table>)
    requires TablesOk(p, tables)
    ensures |tables| == TableCount(p) && forall l :: 0 <= l < |tables| ==> Dense(tables[l])
  {
    assert forall l :: 0 <= l < |tables| ==> TableOk(p, tables[l]);
  }

  lemma OwnIs(st: Store, sid: nat)
    requires sid in st.seqs
    ensures Own(st, sid) == HeldBy(st.seqs[sid].tables)
  {}

  /** A sequence whose blocks were all kept, with more behind them. */
  lemma GrowsFrom(a: Private, sid: nat, p: Pool, q: Pool, s: Sequence, tables': seq<Table>, count: nat)
    requires sid in a.seqs && a.seqs[sid] == AbsSeq(p, s) && Blocks(q, s.tables) == Blocks(p, s.tables)
    requires |tables'| == |s.tables|
    requires forall l :: 0 <= l < |s.tables| ==>
               && |Blocks(q, tables')[l]| == |Blocks(q, s.tables)[l]| + count
               && Blocks(q, s.tables)[l] <= Blocks(q, tables')[l]
    ensures PGrows(a, sid, count, a.(seqs := a.seqs[sid := AbsSeq(q, s.(tables := tables'))]))
  {
    hide TableBlocks;
  }

  lemma ReserveRefines(st: Store, sid: nat, tokens: nat)
    requires MemoryInv(st)
    ensures var (st', ok) := ReserveTokens(st, sid, tokens);
            var tpb := TokensPerBlock(st.pool);
            && MemoryInv(st')
            && (ok <==> sid in st.seqs && tpb > 0
                        && |st.pool.free| >= CeilDiv(tokens, tpb) * TableCount(st.pool))
            && (if ok then PGrows(Abs(st), sid, CeilDiv(tokens, tpb), Abs(st')) else st' == st)
            && (ok ==> |st'.pool.free| == |st.pool.free| - CeilDiv(tokens, tpb) * TableCount(st.pool))
  {
    hide *;
    PoolIsValid(st);
    ReserveIs(st, sid, tokens);
    if sid in st.seqs {
      TablesOkOf(st, sid);
      TablesAreDense(st.pool, st.seqs[sid].tables);
    }
    if ReserveTokens(st, sid, tokens).1 {
      var s, tpb := st.seqs[sid], TokensPerBlock(st.pool);
      var count := CeilDiv(tokens, tpb);
      OwnMoveStarts(st, sid);
      OwnIs(st, sid);
      GrowTablesMove(st.pool, s.tables, sid, tpb, count, Rest(st, sid));
      GrowTablesGrow(st.pool, s.tables, sid, tpb, count);
      var (q, tables') := GrowTables(st.pool, s.tables, sid, tpb, count);
      MoveShows(st.pool, Own(st, sid), q, HeldBy(tables'), Rest(st, sid));
      GrownTablesOk(st.pool, q, s.tables, tables', sid, count, Rest(st, sid));
      PutMoved(st, sid, s.(tables := tables'), q);
      SameBlocks(st.pool, q, s.tables);
      GrownBlocks(q, s.tables, tables', sid, tpb, count);
      AbsAt(st, sid);
      GrowsFrom(Abs(st), sid, st.pool, q, s, tables', count);
    }
  }

  lemma MoveShows(p: Pool, before: multiset<Res>, q: Pool, after: multiset<Res>, others: multiset<Res>)
    requires Move(p, before, q, after, others)
    ensures SameLayout(p, q) && Renews(before, after, others)
  {}

  lemma AbsAt(st: Store, sid: nat)
    requires sid in st.seqs
    ensures sid in Abs(st).seqs && Abs(st).seqs[sid] == AbsSeq(st.pool, st.seqs[sid])
  {}

  lemma GrownBlocks(q: Pool, tables: seq<Table>, tables': seq<Table>, sid: nat, tpb: nat, count: nat)
    requires |tables'| == |tables|
    requires forall l :: 0 <= l < |tables| ==> Grown(tables[l], tables'[l], sid, tpb, count)
    ensures forall l :: 0 <= l < |tables| ==>
              && |Blocks(q, tables')[l]| == |Blocks(q, tables)[l]| + count
              && Blocks(q, tables)[l] <= Blocks(q, tables')[l]
  {
    forall l | 0 <= l < |tables|
      ensures TableBlocks(q, tables[l]) <= TableBlocks(q, tables'[l])
    {
      assert Grown(tables[l], tables'[l], sid, tpb, count);
      assert forall i :: 0 <= i < |tables[l]| ==> tables'[l][i] == tables[l][i];
    }
  }
}
