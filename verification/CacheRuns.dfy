/**
  Whole runs of the cache manager: the invariant every call keeps, the private-copy store
  every run follows, frozen prefixes, and no leak once every sequence is released.
 */
module CacheRuns {
  import opened Arithmetic
  import opened SwapStore
  import opened FramePool
  import opened PageTable
  import opened CacheStore
  import opened CacheAccounting
  import opened CacheTables
  import opened PrivateStore
  import opened CacheRefinement
  import opened CacheWrites
  import opened CacheLifecycle
  import opened CachePrefixes
  import opened CacheSharing

  // ---- The request index ---------------------------------------------------------------------------

  ghost predicate Distinct(ids: seq<nat>) {
    forall i, j :: 0 <= i < j < |ids| ==> ids[i] != ids[j]
  }

  ghost predicate Lists(seqs: map<nat, Sequence>, request: nat, ids: seq<nat>) {
    && Distinct(ids)
    && forall sid :: sid in ids <==> sid in seqs && seqs[sid].request == request
  }

  /** The index lists, without repetition, exactly the sequences of each request that has any. */
  ghost predicate IndexInv(st: Store) {
    && (forall r :: r in st.byRequest ==> st.byRequest[r] != [] && Lists(st.seqs, r, st.byRequest[r]))
    && (forall sid :: sid in st.seqs ==> st.seqs[sid].request in st.byRequest)
  }

  lemma SequencesForLists(st: Store, request: nat)
    requires IndexInv(st)
    ensures Lists(st.seqs, request, SequencesFor(st, request))
  {}

  lemma ListsUnderSameKeys(seqs: map<nat, Sequence>, seqs': map<nat, Sequence>, request: nat, ids: seq<nat>)
    requires SameKeys(seqs, seqs') && Lists(seqs, request, ids)
    ensures Lists(seqs', request, ids)
  {}

  lemma IndexInvUnderSameKeys(st: Store, st': Store)
    requires IndexInv(st) && SameKeys(st.seqs, st'.seqs) && st'.byRequest == st.byRequest
    ensures IndexInv(st')
  {
    forall r | r in st.byRequest
      ensures st.byRequest[r] != [] && Lists(st'.seqs, r, st.byRequest[r])
    {
      ListsUnderSameKeys(st.seqs, st'.seqs, r, st.byRequest[r]);
    }
  }

  lemma IndexAdds(st: Store, st': Store, sid: nat, s: Sequence)
    requires IndexInv(st) && sid !in st.seqs
    requires st'.seqs == st.seqs[sid := s] && st'.byRequest == Index(st.byRequest, s.request, sid)
    ensures IndexInv(st')
  {
    forall r | r in st'.byRequest
      ensures st'.byRequest[r] != [] && Lists(st'.seqs, r, st'.byRequest[r])
    {
      if r == s.request {
        var ids := SequencesFor(st, r);
        SequencesForLists(st, r);
        assert st'.byRequest[r] == ids + [sid];
        assert sid !in ids;
      } else {
        assert Lists(st.seqs, r, st.byRequest[r]);
      }
    }
  }

  lemma {:induction false} WithoutRemoves(ids: seq<nat>, sid: nat)
    ensures forall x :: x in Without(ids, sid) <==> x in ids && x != sid
    ensures Distinct(ids) ==> Distinct(Without(ids, sid))
    ensures sid !in ids ==> Without(ids, sid) == ids
  {
    if ids != [] {
      WithoutRemoves(ids[1..], sid);
      assert ids == [ids[0]] + ids[1..];
      if Distinct(ids) {
        assert Distinct(ids[1..]);
        assert ids[0] !in ids[1..];
        DistinctCons(ids[0], Without(ids[1..], sid));
      }
    }
  }

  lemma DistinctCons(x: nat, ids: seq<nat>)
    requires Distinct(ids) && x !in ids
    ensures Distinct([x] + ids)
  {}

  lemma IndexRemoves(st: Store, st': Store, sid: nat)
    requires IndexInv(st) && sid in st.seqs
    requires st'.seqs == st.seqs - {sid} && st'.byRequest == Unindex(st.byRequest, st.seqs[sid].request, sid)
    ensures IndexInv(st')
  {
    var request := st.seqs[sid].request;
    WithoutRemoves(st.byRequest[request], sid);
    var left := Without(st.byRequest[request], sid);
    assert Lists(st.seqs, request, st.byRequest[request]);
    assert Lists(st'.seqs, request, left);
    forall r | r in st'.byRequest
      ensures st'.byRequest[r] != [] && Lists(st'.seqs, r, st'.byRequest[r])
    {
      if r != request {
        assert Lists(st.seqs, r, st.byRequest[r]);
      }
    }
  }

  // ---- One call ---------------------------------------------------------------------------------------

  datatype Op =
    | Create(sid: nat, request: nat)
    | ForkFrom(parent: nat, child: nat, request: nat)
    | Reserve(sid: nat, tokens: nat)
    | Write(sid: nat, token: nat, layer: nat, content: Frame)
    | Evict(sid: nat)
    | Restore(sid: nat)
    | EvictRequest(request: nat)
    | RestoreRequest(request: nat)
    | Publish(sid: nat, key: string)
    | Attach(sid: nat, key: string)
    | ReleaseOne(sid: nat)
    | ReleaseWhole(request: nat)

  function Flag(r: (Store, bool)): (Store, nat) { (r.0, if r.1 then 1 else 0) }

  /** One public call: the store it leaves and what it returns. */
  function Step(st: Store, op: Op, hash: ContentHash): (r: (Store, nat))
    requires ValidPool(st.pool)
    ensures ValidPool(r.0.pool)
  {
    match op
    case Create(sid, request) => Flag(CreateSequence(st, sid, request))
    case ForkFrom(parent, child, request) => Flag(ForkSequence(st, parent, child, request))
    case Reserve(sid, tokens) => Flag(ReserveTokens(st, sid, tokens))
    case Write(sid, token, layer, content) => Flag(WriteBlock(st, sid, token, layer, content))
    case Evict(sid) => SwapOutSequence(st, sid)
    case Restore(sid) => Flag(SwapInSequence(st, sid))
    case EvictRequest(request) => SwapOutRequest(st, request)
    case RestoreRequest(request) => Flag(SwapInRequest(st, request))
    case Publish(sid, key) => Flag(PublishPrefix(st, sid, key, hash))
    case Attach(sid, key) => AttachPrefix(st, sid, key)
    case ReleaseOne(sid) => (ReleaseSequence(st, sid), 1)
    case ReleaseWhole(request) => (ReleaseRequest(st, request), 1)
  }

  ghost predicate Enumerates(a: Private, request: nat, ids: seq<nat>) {
    && Distinct(ids)
    && forall sid :: sid in ids <==> sid in a.seqs && a.seqs[sid].request == request
  }

  /**
    What a call with this result does to a store of private copies.  Only the bytes of freshly
    reserved blocks are left open; when a call succeeds is the business of CacheSupply.
   */
  ghost predicate PrivateStep(a: Private, op: Op, result: nat, a': Private, hash: ContentHash) {
    match op
    case Create(sid, request) =>
      && (result > 0 <==> sid !in a.seqs)
      && a' == if result > 0 then PCreate(a, sid, request) else a
    case ForkFrom(parent, child, request) =>
      if result > 0 then parent in a.seqs && child !in a.seqs && a' == PFork(a, parent, child, request) else a' == a
    case Reserve(sid, tokens) =>
      if result > 0 then a.tpb > 0 && PGrows(a, sid, CeilDiv(tokens, a.tpb), a') else a' == a
    case Write(sid, token, layer, content) =>
      if result > 0 then
        a.tpb > 0 && PHasBlock(a, sid, layer, token / a.tpb) && a' == PWrite(a, sid, layer, token / a.tpb, content)
      else a' == a
    case Evict(_) => a' == a
    case Restore(_) => a' == a
    case EvictRequest(_) => a' == a
    case RestoreRequest(_) => a' == a
    case Publish(sid, key) =>
      if result > 0 then sid in a.seqs && a.seqs[sid].blocks != [] && a' == PPublish(a, sid, key, hash) else a' == a
    case Attach(sid, key) =>
      if result > 0 then PAttaches(a, sid, key, result, a') else a' == a
    case ReleaseOne(sid) => a' == PRelease(a, sid)
    case ReleaseWhole(request) => exists ids :: Enumerates(a, request, ids) && a' == PReleaseEach(a, ids)
  }

  ghost predicate Inv(st: Store) {
    MemoryInv(st) && PrefixInv(st) && IndexInv(st)
  }

  /** The one discipline clients keep: a sequence is not published under a second key. */
  ghost predicate Disciplined(st: Store, op: Op) {
    op.Publish? ==> NoSecondKey(st, op.sid, op.key)
  }

  // ---- Each call keeps the invariant -------------------------------------------------------------------

  lemma InvUnderSameKeys(st: Store, st': Store)
    requires Inv(st) && MemoryInv(st') && SameKeys(st.seqs, st'.seqs) && SameLayout(st.pool, st'.pool)
    requires st'.prefixes == st.prefixes && st'.byRequest == st.byRequest
    ensures Inv(st')
  {
    hide *;
    InvParts(st);
    PrefixInvUnderSameKeys(st, st');
    IndexInvUnderSameKeys(st, st');
    InvFrom(st');
  }

  lemma InvParts(st: Store)
    requires Inv(st)
    ensures MemoryInv(st) && PrefixInv(st) && IndexInv(st) && ValidPool(st.pool)
  {}

  lemma InvFrom(st: Store)
    requires MemoryInv(st) && PrefixInv(st) && IndexInv(st)
    ensures Inv(st)
  {}

  lemma SameKeysAfterTables(st: Store, sid: nat, tables: seq<Table>)
    requires sid in st.seqs
    requires st.seqs[sid].tables != [] && st.seqs[sid].tables[0] != [] ==> tables != [] && tables[0] != []
    ensures SameKeys(st.seqs, st.seqs[sid := st.seqs[sid].(tables := tables)])
  {}

  lemma CreateInv(st: Store, sid: nat, request: nat)
    requires Inv(st)
    ensures Inv(CreateSequence(st, sid, request).0)
  {
    CreateRefines(st, sid, request);
    if sid !in st.seqs {
      var st' := CreateSequence(st, sid, request).0;
      var s := st'.seqs[sid];
      PrefixInvAfterAdd(st, sid, s, st.pool);
      PrefixInvUnderSameKeys(st.(seqs := st.seqs[sid := s]), st');
      IndexAdds(st, st', sid, s);
    }
  }

  lemma ForkInv(st: Store, parent: nat, child: nat, request: nat)
    requires Inv(st)
    ensures Inv(ForkSequence(st, parent, child, request).0)
    ensures SameLayout(st.pool, ForkSequence(st, parent, child, request).0.pool)
  {
    ForkRefines(st, parent, child, request);
    var (st', ok) := ForkSequence(st, parent, child, request);
    if ok {
      var s := st'.seqs[child];
      var tables := st.seqs[parent].tables;
      ForkLayout(st, parent, child);
      assert st' == st.(pool := st'.pool, seqs := st.seqs[child := s], byRequest := Index(st.byRequest, request, child));
      assert s.request == request && s.key == "";
      hide *;
      InvParts(st);
      PrefixInvAfterAdd(st, child, s, st'.pool);
      PrefixIgnoresIndex(st.(pool := st'.pool, seqs := st.seqs[child := s]), st'.byRequest);
      IndexAdds(st, st', child, s);
      InvFrom(st');
    }
  }

  lemma PrefixIgnoresIndex(st: Store, index: map<nat, seq<nat>>)
    requires PrefixInv(st)
    ensures PrefixInv(st.(byRequest := index))
  {}

  lemma ForkLayout(st: Store, parent: nat, child: nat)
    requires MemoryInv(st) && parent in st.seqs && AllResident(st.seqs[parent].tables)
    ensures SameLayout(st.pool, RetainAll(st.pool, Flat(ForkTables(st.seqs[parent].tables, child))))
  {
    ForkSharesReferences(st.pool, st.seqs[parent].tables, child);
    ResidentReferences(st.seqs[parent].tables);
    HeldSplits(st, parent);
    RetainMoves(st.pool, Flat(st.seqs[parent].tables), Held(st));
  }

  lemma ReserveInv(st: Store, sid: nat, tokens: nat)
    requires Inv(st)
    ensures Inv(ReserveTokens(st, sid, tokens).0)
  {
    ReserveRefines(st, sid, tokens);
    var (st', ok) := ReserveTokens(st, sid, tokens);
    if ok {
      ReserveLayout(st, sid, tokens);
      SameKeysAfterTables(st, sid, st'.seqs[sid].tables);
      hide *;
      InvUnderSameKeys(st, st');
    }
  }

  lemma ReserveLayout(st: Store, sid: nat, tokens: nat)
    requires MemoryInv(st) && ReserveTokens(st, sid, tokens).1
    ensures var st' := ReserveTokens(st, sid, tokens).0;
            && sid in st.seqs && st' == st.(pool := st'.pool, seqs := st.seqs[sid := st.seqs[sid].(tables := st'.seqs[sid].tables)])
            && SameLayout(st.pool, st'.pool)
            && (st.seqs[sid].tables[0] != [] ==> st'.seqs[sid].tables != [] && st'.seqs[sid].tables[0] != [])
  {
    var tables, tpb := st.seqs[sid].tables, TokensPerBlock(st.pool);
    var count := CeilDiv(tokens, tpb);
    TablesOkOf(st, sid);
    OwnMoveStarts(st, sid);
    assert forall l :: 0 <= l < |tables| ==> TableOk(st.pool, tables[l]);
    GrowTablesMove(st.pool, tables, sid, tpb, count, Rest(st, sid));
    GrowTablesGrow(st.pool, tables, sid, tpb, count);
    assert Grown(tables[0], GrowTables(st.pool, tables, sid, tpb, count).1[0], sid, tpb, count);
  }

  lemma WriteInv(st: Store, sid: nat, token: nat, layer: nat, content: Frame)
    requires Inv(st)
    ensures Inv(EnsureTokenWritable(st, sid, token, layer).0)
    ensures Inv(WriteBlock(st, sid, token, layer, content).0)
  {
    hide *;
    InvParts(st);
    WriteRefines(st, sid, token, layer, content);
    EnsureWritableRefines(st, sid, token, layer);
    WriteChangesEntries(st, sid, token, layer, content);
    InvUnderSameKeys(st, EnsureTokenWritable(st, sid, token, layer).0);
    InvUnderSameKeys(st, WriteBlock(st, sid, token, layer, content).0);
  }

  lemma WriteChangesEntries(st: Store, sid: nat, token: nat, layer: nat, content: Frame)
    requires MemoryInv(st)
    ensures var st1, st2 := EnsureTokenWritable(st, sid, token, layer).0, WriteBlock(st, sid, token, layer, content).0;
            && SameKeys(st.seqs, st1.seqs) && st1.prefixes == st.prefixes && st1.byRequest == st.byRequest
            && SameKeys(st.seqs, st2.seqs) && st2.prefixes == st.prefixes && st2.byRequest == st.byRequest
            && SameLayout(st.pool, st2.pool)
  {
    EnsureWritableRefines(st, sid, token, layer);
    hide MemoryInv, Abs, Exclusive, Writable;
    EnsureKeepsKeys(st, sid, token, layer);
  }

  lemma KeysThemselves(seqs: map<nat, Sequence>)
    ensures SameKeys(seqs, seqs)
  {}

  lemma PutEntryKeepsBooks(st: Store, p: Pool, sid: nat, layer: nat, i: nat, e: Entry)
    requires sid in st.seqs && layer < |st.seqs[sid].tables| && i < |st.seqs[sid].tables[layer]|
    ensures PutEntry(st, p, sid, layer, i, e).prefixes == st.prefixes && PutEntry(st, p, sid, layer, i, e).byRequest == st.byRequest
  {}

  lemma EnsureKeepsKeys(st: Store, sid: nat, token: nat, layer: nat)
    requires ValidPool(st.pool)
    ensures var st1 := EnsureTokenWritable(st, sid, token, layer).0;
            SameKeys(st.seqs, st1.seqs) && st1.prefixes == st.prefixes && st1.byRequest == st.byRequest
  {
    hide SameKeys, PutEntry, ValidPool, Find, Allocate, Release, CopyBlock;
    KeysThemselves(st.seqs);
    forall p, i, e | sid in st.seqs && layer < |st.seqs[sid].tables| && 0 <= i < |st.seqs[sid].tables[layer]|
      ensures SameKeys(st.seqs, PutEntry(st, p, sid, layer, i, e).seqs)
      ensures PutEntry(st, p, sid, layer, i, e).prefixes == st.prefixes && PutEntry(st, p, sid, layer, i, e).byRequest == st.byRequest
    {
      PutEntryKeepsKeys(st, p, sid, layer, i, e);
      PutEntryKeepsBooks(st, p, sid, layer, i, e);
    }
  }

  lemma PutEntryKeepsKeys(st: Store, p: Pool, sid: nat, layer: nat, i: nat, e: Entry)
    requires sid in st.seqs && layer < |st.seqs[sid].tables| && i < |st.seqs[sid].tables[layer]|
    ensures SameKeys(st.seqs, PutEntry(st, p, sid, layer, i, e).seqs)
  {}

  lemma EvictInv(st: Store, sid: nat)
    requires Inv(st)
    ensures Inv(SwapOutSequence(st, sid).0)
    ensures SameKeys(st.seqs, SwapOutSequence(st, sid).0.seqs)
  {
    SwapOutRefines(st, sid);
    if sid in st.seqs {
      TablesOkOf(st, sid);
      var st' := SwapOutSequence(st, sid).0;
      assert |Blocks(st'.pool, st'.seqs[sid].tables)| == |Blocks(st.pool, st.seqs[sid].tables)| by {
        AbsShows(st, sid, "");
        AbsShows(st', sid, "");
      }
      SameReadingSameSizes(st, st', sid);
      SameKeysAfterTables(st, sid, st'.seqs[sid].tables);
      hide *;
      InvUnderSameKeys(st, st');
    }
  }

  lemma SameReadingSameSizes(st: Store, st': Store, sid: nat)
    requires Abs(st') == Abs(st) && sid in st.seqs && sid in st'.seqs
    ensures |st'.seqs[sid].tables| == |st.seqs[sid].tables|
    ensures forall l :: 0 <= l < |st.seqs[sid].tables| ==> |st'.seqs[sid].tables[l]| == |st.seqs[sid].tables[l]|
  {
    AbsShows(st, sid, "");
    AbsShows(st', sid, "");
    var b := Blocks(st.pool, st.seqs[sid].tables);
    assert b == Blocks(st'.pool, st'.seqs[sid].tables);
    forall l | 0 <= l < |st.seqs[sid].tables|
      ensures |st'.seqs[sid].tables[l]| == |st.seqs[sid].tables[l]|
    {
      assert |b[l]| == |st.seqs[sid].tables[l]|;
      assert |Blocks(st'.pool, st'.seqs[sid].tables)[l]| == |st'.seqs[sid].tables[l]|;
    }
  }

  lemma SameKeysOfItself(st: Store)
    ensures SameKeys(st.seqs, st.seqs)
  {}

  lemma RestoredShape(st: Store, sid: nat)
    requires ValidPool(st.pool) && SwapInSequence(st, sid).0 != st
    ensures var st' := SwapInSequence(st, sid).0;
            && sid in st.seqs && sid in st'.seqs
            && st' == st.(pool := st'.pool, seqs := st.seqs[sid := st.seqs[sid].(tables := st'.seqs[sid].tables)])
  {
    hide SwapInTables, SlotCountAll;
  }

  lemma RestoreInv(st: Store, sid: nat)
    requires Inv(st)
    ensures Inv(SwapInSequence(st, sid).0)
    ensures SameKeys(st.seqs, SwapInSequence(st, sid).0.seqs)
  {
    hide Inv, Abs, MemoryInv;
    InvParts(st);
    SwapInRefines(st, sid);
    var (st', ok) := SwapInSequence(st, sid);
    if ok && st' != st {
      RestoredShape(st, sid);
      TablesOkOf(st, sid);
      SameReadingSameSizes(st, st', sid);
      SameKeysAfterTables(st, sid, st'.seqs[sid].tables);
      hide *;
      InvUnderSameKeys(st, st');
    } else {
      SameKeysOfItself(st);
    }
  }

  lemma ReleaseInv(st: Store, sid: nat)
    requires Inv(st)
    ensures Inv(ReleaseSequence(st, sid))
    ensures ReleaseSequence(st, sid).seqs == st.seqs - {sid}
  {
    if sid in st.seqs {
      ReleaseParts(st, sid);
      hide *;
      InvParts(st);
      DropRefines(st, sid);
      DropKeepsPrefixes(st, sid);
      ReleaseRefines(st, sid);
      var st1, st' := DropPrefixUser(st, sid), ReleaseSequence(st, sid);
      SameLayoutTransitive(st1.pool, st.pool, st'.pool);
      PrefixInvAfterRemove(st1, sid, st'.pool);
      PrefixIgnoresIndex(st1.(pool := st'.pool, seqs := st1.seqs - {sid}), st'.byRequest);
      IndexRemoves(st, st', sid);
      InvFrom(st');
    }
  }

  lemma SameLayoutTransitive(q: Pool, p: Pool, r: Pool)
    requires SameLayout(p, q) && SameLayout(p, r)
    ensures SameLayout(q, r)
  {}

  lemma ReleaseParts(st: Store, sid: nat)
    requires MemoryInv(st) && PrefixInv(st) && sid in st.seqs
    ensures var st1, st' := DropPrefixUser(st, sid), ReleaseSequence(st, sid);
            && st' == st1.(pool := st'.pool, seqs := st1.seqs - {sid},
                           byRequest := Unindex(st.byRequest, st.seqs[sid].request, sid))
            && st1.seqs - {sid} == st.seqs - {sid}
  {
    DropKeepsPrefixes(st, sid);
  }
}
