/** The cache manager's main results, over every call and every run. */
module CacheTheorems {
  import opened Arithmetic
  import opened SwapStore
  import opened FramePool
  import opened CacheStore
  import opened CacheAccounting
  import opened PrivateStore
  import opened CacheRefinement
  import opened CacheWrites
  import opened CacheLifecycle
  import opened CachePrefixes
  import opened CacheSharing
  import opened CacheRuns
  import opened CacheSupply
  import opened Sums

  // ---- Whole requests ---------------------------------------------------------------------------------

  ghost predicate AllLive(st: Store, ids: seq<nat>) {
    Distinct(ids) && forall sid :: sid in ids ==> sid in st.seqs
  }

  lemma AllLiveTail(st: Store, ids: seq<nat>)
    requires AllLive(st, ids) && ids != []
    ensures AllLive(st, ids[1..]) && ids[0] !in ids[1..] && ids[0] in st.seqs
  {}

  lemma {:induction false} SlotsNeededAgree(st: Store, st': Store, ids: seq<nat>)
    requires st'.seqs.Keys == st.seqs.Keys
    requires forall sid :: sid in ids && sid in st.seqs ==> st'.seqs[sid] == st.seqs[sid]
    ensures SlotsNeeded(st', ids) == SlotsNeeded(st, ids)
  {
    if ids != [] {
      SlotsNeededAgree(st, st', ids[1..]);
    }
  }

  /** Bookkeeping other than tables stays put. */
  ghost predicate SameBooks(st: Store, st': Store) {
    && SameKeys(st.seqs, st'.seqs) && st'.byRequest == st.byRequest && st'.prefixes == st.prefixes
    && SameLayout(st.pool, st'.pool)
  }

  lemma SameBooksTransitive(a: Store, b: Store, c: Store)
    requires SameBooks(a, b) && SameBooks(b, c)
    ensures SameBooks(a, c)
  {}

  lemma {:induction false} EvictEach(st: Store, ids: seq<nat>)
    requires Inv(st) && AllLive(st, ids)
    ensures var (st', n) := SwapOutEach(st, ids);
            && Inv(st') && Abs(st') == Abs(st) && SameBooks(st, st')
            && |st'.pool.free| == |st.pool.free| + n
            && SlotsNeeded(st', ids) == SlotsNeeded(st, ids) + n
            && forall sid :: sid in st.seqs && sid !in ids ==> st'.seqs[sid] == st.seqs[sid]
    decreases |ids|
  {
    if ids != [] {
      AllLiveTail(st, ids);
      SwapOutRefines(st, ids[0]);
      EvictInv(st, ids[0]);
      var (st1, n1) := SwapOutSequence(st, ids[0]);
      SlotsNeededAgree(st, st1, ids[1..]);
      assert SameBooks(st, st1);
      hide Inv, Abs, MemoryInv, SameBooks, SwapOutSequence;
      EvictEach(st1, ids[1..]);
      var (st2, n2) := SwapOutEach(st1, ids[1..]);
      SameBooksTransitive(st, st1, st2);
      assert st2.seqs[ids[0]] == st1.seqs[ids[0]] && ids[0] in st2.seqs by {
        SameBooksKeys(st1, st2);
      }
    }
  }

  lemma SameBooksKeys(st: Store, st': Store)
    requires SameBooks(st, st')
    ensures st'.seqs.Keys == st.seqs.Keys
  {}

  lemma {:induction false} RestoreEach(st: Store, ids: seq<nat>)
    requires Inv(st) && AllLive(st, ids) && SlotsNeeded(st, ids) <= |st.pool.free|
    ensures var (st', ok) := SwapInEach(st, ids);
            && ok && Inv(st') && Abs(st') == Abs(st) && SameBooks(st, st')
            && |st'.pool.free| == |st.pool.free| - SlotsNeeded(st, ids)
            && SlotsNeeded(st', ids) == 0
            && forall sid :: sid in st.seqs && sid !in ids ==> st'.seqs[sid] == st.seqs[sid]
    decreases |ids|
  {
    if ids != [] {
      AllLiveTail(st, ids);
      SwapInRefines(st, ids[0]);
      RestoreInv(st, ids[0]);
      var (st1, ok1) := SwapInSequence(st, ids[0]);
      SlotsNeededAgree(st, st1, ids[1..]);
      assert SameBooks(st, st1);
      hide Inv, Abs, MemoryInv, SameBooks, SwapInSequence;
      RestoreEach(st1, ids[1..]);
      var (st2, _) := SwapInEach(st1, ids[1..]);
      SameBooksTransitive(st, st1, st2);
      SameBooksKeys(st1, st2);
    }
  }

  lemma RequestIsLive(st: Store, request: nat)
    requires Inv(st)
    ensures AllLive(st, SequencesFor(st, request))
    ensures Enumerates(Abs(st), request, SequencesFor(st, request))
  {
    SequencesForLists(st, request);
    AbsShows(st, 0, "");
    assert forall sid :: sid in st.seqs ==> Abs(st).seqs[sid].request == st.seqs[sid].request;
  }

  /**
    Restoring a request is all-or-nothing: it succeeds exactly when its swapped blocks fit the
    free frames, leaves nothing swapped and every reading as it was; otherwise nothing changes.
   */
  lemma RestoreRequestAllOrNothing(st: Store, request: nat)
    requires Inv(st)
    ensures var ids := SequencesFor(st, request);
            var (st', ok) := SwapInRequest(st, request);
            && (ok <==> SlotsNeeded(st, ids) <= |st.pool.free|)
            && (!ok ==> st' == st)
            && Inv(st') && Abs(st') == Abs(st) && SameBooks(st, st')
            && (ok ==> SlotsNeeded(st', ids) == 0)
  {
    hide Inv, Abs, SameBooks, AllLive, Enumerates;
    InvParts(st);
    SameBooksRefl(st);
    RequestIsLive(st, request);
    if SlotsNeeded(st, SequencesFor(st, request)) <= |st.pool.free| {
      RestoreEach(st, SequencesFor(st, request));
    }
  }

  lemma SameBooksRefl(st: Store)
    ensures SameBooks(st, st)
  {}

  lemma EvictRequestRefines(st: Store, request: nat)
    requires Inv(st)
    ensures var ids := SequencesFor(st, request);
            var (st', n) := SwapOutRequest(st, request);
            && Inv(st') && Abs(st') == Abs(st) && SameBooks(st, st')
            && |st'.pool.free| == |st.pool.free| + n
            && SlotsNeeded(st', ids) == SlotsNeeded(st, ids) + n
  {
    RequestIsLive(st, request);
    EvictEach(st, SequencesFor(st, request));
  }

  /**
    Evicting a request and restoring it at once succeeds exactly when the blocks it already had
    in swap would have fit before; a fully resident request therefore always comes back, and
    every sequence then reads what it read.
   */
  lemma SwapRoundTrip(st: Store, request: nat)
    requires Inv(st)
    ensures var ids := SequencesFor(st, request);
            var st1 := SwapOutRequest(st, request).0;
            var (st2, ok) := SwapInRequest(st1, request);
            && (ok <==> SlotsNeeded(st, ids) <= |st.pool.free|)
            && Inv(st2) && Abs(st2) == Abs(st)
            && (ok ==> SlotsNeeded(st2, ids) == 0)
  {
    EvictRequestRefines(st, request);
    var st1 := SwapOutRequest(st, request).0;
    RestoreRequestAllOrNothing(st1, request);
    assert SequencesFor(st1, request) == SequencesFor(st, request);
  }

  lemma ReleaseEachUnfolds(st: Store, ids: seq<nat>)
    requires ValidPool(st.pool)
    ensures ReleaseEach(st, ids) == if ids == [] then st else ReleaseEach(ReleaseSequence(st, ids[0]), ids[1..])
    ensures PReleaseEach(Abs(st), ids) == if ids == [] then Abs(st) else PReleaseEach(PRelease(Abs(st), ids[0]), ids[1..])
  {
    hide ValidPool, Abs, ReleaseSequence, PRelease;
  }

  lemma {:induction false} ReleaseEachRefines(st: Store, ids: seq<nat>)
    requires Inv(st)
    ensures Inv(ReleaseEach(st, ids)) && Abs(ReleaseEach(st, ids)) == PReleaseEach(Abs(st), ids)
    ensures forall sid :: sid in ReleaseEach(st, ids).seqs <==> sid in st.seqs && sid !in ids
    decreases |ids|
  {
    hide *;
    InvParts(st);
    ReleaseEachUnfolds(st, ids);
    if ids != [] {
      ReleaseRefines(st, ids[0]);
      ReleaseInv(st, ids[0]);
      ReleaseEachRefines(ReleaseSequence(st, ids[0]), ids[1..]);
      assert ids == [ids[0]] + ids[1..];
    }
  }

  // ---- Sharing is invisible -----------------------------------------------------------------------------

  lemma StepIs(st: Store, op: Op, hash: ContentHash)
    requires ValidPool(st.pool)
    ensures op.Create? ==> Step(st, op, hash) == Flag(CreateSequence(st, op.sid, op.request))
    ensures op.ForkFrom? ==> Step(st, op, hash) == Flag(ForkSequence(st, op.parent, op.child, op.request))
    ensures op.Reserve? ==> Step(st, op, hash) == Flag(ReserveTokens(st, op.sid, op.tokens))
    ensures op.Write? ==> Step(st, op, hash) == Flag(WriteBlock(st, op.sid, op.token, op.layer, op.content))
    ensures op.Evict? ==> Step(st, op, hash) == SwapOutSequence(st, op.sid)
    ensures op.Restore? ==> Step(st, op, hash) == Flag(SwapInSequence(st, op.sid))
    ensures op.EvictRequest? ==> Step(st, op, hash) == SwapOutRequest(st, op.request)
    ensures op.RestoreRequest? ==> Step(st, op, hash) == Flag(SwapInRequest(st, op.request))
    ensures op.Publish? ==> Step(st, op, hash) == Flag(PublishPrefix(st, op.sid, op.key, hash))
    ensures op.Attach? ==> Step(st, op, hash) == AttachPrefix(st, op.sid, op.key)
    ensures op.ReleaseOne? ==> Step(st, op, hash) == (ReleaseSequence(st, op.sid), 1)
    ensures op.ReleaseWhole? ==> Step(st, op, hash) == (ReleaseEach(st, SequencesFor(st, op.request)), 1)
  {
    hide CreateSequence, ForkSequence, ReserveTokens, WriteBlock, SwapOutSequence, SwapInSequence, SwapOutRequest, SwapInRequest,
         PublishPrefix, AttachPrefix, ReleaseSequence, ReleaseEach, ValidPool;
  }

  lemma FlagIs(r: (Store, bool))
    ensures Flag(r).0 == r.0 && (Flag(r).1 > 0 <==> r.1)
  {}

  lemma StepKeepsInv(st: Store, op: Op, hash: ContentHash)
    requires Inv(st) && Disciplined(st, op)
    ensures ValidPool(st.pool) && Inv(Step(st, op, hash).0)
  {
    hide *;
    InvParts(st);
    StepIs(st, op, hash);
    match op
    case Create(sid, request) => CreateInv(st, sid, request); FlagIs(CreateSequence(st, sid, request));
    case ForkFrom(parent, child, request) => ForkInv(st, parent, child, request); FlagIs(ForkSequence(st, parent, child, request));
    case Reserve(sid, tokens) => ReserveInv(st, sid, tokens); FlagIs(ReserveTokens(st, sid, tokens));
    case Write(sid, token, layer, content) => StepWrite(st, sid, token, layer, content, hash); FlagIs(WriteBlock(st, sid, token, layer, content));
    case Evict(sid) => EvictInv(st, sid);
    case Restore(sid) => RestoreInv(st, sid); FlagIs(SwapInSequence(st, sid));
    case EvictRequest(request) => EvictRequestRefines(st, request);
    case RestoreRequest(request) => RestoreRequestAllOrNothing(st, request); FlagIs(SwapInRequest(st, request));
    case Publish(sid, key) => StepPublish(st, sid, key, hash); FlagIs(PublishPrefix(st, sid, key, hash));
    case Attach(sid, key) => StepAttach(st, sid, key);
    case ReleaseOne(sid) => ReleaseInv(st, sid);
    case ReleaseWhole(request) => ReleaseEachRefines(st, SequencesFor(st, request));
  }

  lemma PrivateStepIs(a: Private, op: Op, result: nat, a': Private, hash: ContentHash)
    ensures op.Create? ==>
              (PrivateStep(a, op, result, a', hash) <==>
               (result > 0 <==> op.sid !in a.seqs) && a' == if result > 0 then PCreate(a, op.sid, op.request) else a)
    ensures op.ForkFrom? ==>
              (PrivateStep(a, op, result, a', hash) <==>
               if result > 0 then op.parent in a.seqs && op.child !in a.seqs && a' == PFork(a, op.parent, op.child, op.request)
               else a' == a)
    ensures op.Reserve? ==>
              (PrivateStep(a, op, result, a', hash) <==>
               if result > 0 then a.tpb > 0 && PGrows(a, op.sid, CeilDiv(op.tokens, a.tpb), a') else a' == a)
    ensures op.Write? ==>
              (PrivateStep(a, op, result, a', hash) <==>
               if result > 0 then
                 a.tpb > 0 && PHasBlock(a, op.sid, op.layer, op.token / a.tpb)
                 && a' == PWrite(a, op.sid, op.layer, op.token / a.tpb, op.content)
               else a' == a)
    ensures op.Evict? || op.Restore? || op.EvictRequest? || op.RestoreRequest? ==> (PrivateStep(a, op, result, a', hash) <==> a' == a)
    ensures op.Attach? ==>
              (PrivateStep(a, op, result, a', hash) <==> if result > 0 then PAttaches(a, op.sid, op.key, result, a') else a' == a)
    ensures op.ReleaseOne? ==> (PrivateStep(a, op, result, a', hash) <==> a' == PRelease(a, op.sid))
    ensures op.ReleaseWhole? ==>
              (PrivateStep(a, op, result, a', hash) <==> exists ids :: Enumerates(a, op.request, ids) && a' == PReleaseEach(a, ids))
  {
    hide PCreate, PFork, PGrows, PHasBlock, PWrite, PPublish, PAttaches, PRelease, PReleaseEach, Enumerates, CeilDiv;
  }

  lemma AbsNumbers(st: Store)
    ensures Abs(st).tpb == TokensPerBlock(st.pool) && Abs(st).tables == TableCount(st.pool) && Abs(st).seqs.Keys == st.seqs.Keys
  {
    hide AbsPrefixes, AbsSeq;
  }

  /** Every call keeps the invariant and does to readings what the private-copy store does. */
  lemma StepRefinesPrivateCopies(st: Store, op: Op, hash: ContentHash)
    requires Inv(st) && Disciplined(st, op)
    ensures Inv(Step(st, op, hash).0)
    ensures PrivateStep(Abs(st), op, Step(st, op, hash).1, Abs(Step(st, op, hash).0), hash)
  {
    hide *;
    StepKeepsInv(st, op, hash);
    StepIs(st, op, hash);
    InvParts(st);
    AbsNumbers(st);
    PrivateStepIs(Abs(st), op, Step(st, op, hash).1, Abs(Step(st, op, hash).0), hash);
    match op
    case Create(sid, request) => CreateRefines(st, sid, request); FlagIs(CreateSequence(st, sid, request));
    case ForkFrom(parent, child, request) =>
      ForkRefines(st, parent, child, request);
      FlagIs(ForkSequence(st, parent, child, request));
    case Reserve(sid, tokens) => ReserveRefines(st, sid, tokens); FlagIs(ReserveTokens(st, sid, tokens));
    case Write(sid, token, layer, content) =>
      StepWrite(st, sid, token, layer, content, hash);
      FlagIs(WriteBlock(st, sid, token, layer, content));
    case Evict(sid) => SwapOutRefines(st, sid);
    case Restore(sid) => SwapInRefines(st, sid); FlagIs(SwapInSequence(st, sid));
    case EvictRequest(request) => EvictRequestRefines(st, request);
    case RestoreRequest(request) => RestoreRequestAllOrNothing(st, request); FlagIs(SwapInRequest(st, request));
    case Publish(sid, key) => StepPublish(st, sid, key, hash); FlagIs(PublishPrefix(st, sid, key, hash));
    case Attach(sid, key) => StepAttach(st, sid, key);
    case ReleaseOne(sid) => ReleaseRefines(st, sid);
    case ReleaseWhole(request) =>
      RequestIsLive(st, request);
      ReleaseEachRefines(st, SequencesFor(st, request));
  }

  lemma StepWrite(st: Store, sid: nat, token: nat, layer: nat, content: Frame, hash: ContentHash)
    requires Inv(st)
    ensures ValidPool(st.pool) && Inv(WriteBlock(st, sid, token, layer, content).0)
    ensures PrivateStep(Abs(st), Write(sid, token, layer, content), Flag(WriteBlock(st, sid, token, layer, content)).1,
                        Abs(WriteBlock(st, sid, token, layer, content).0), hash)
  {
    hide *;
    InvParts(st);
    AbsNumbers(st);
    WriteInv(st, sid, token, layer, content);
    WriteRefines(st, sid, token, layer, content);
    WritableHasBlocks(st, sid, token, layer);
    FlagIs(WriteBlock(st, sid, token, layer, content));
    PrivateStepIs(Abs(st), Write(sid, token, layer, content), Flag(WriteBlock(st, sid, token, layer, content)).1,
                  Abs(WriteBlock(st, sid, token, layer, content).0), hash);
  }

  lemma StepPublish(st: Store, sid: nat, key: string, hash: ContentHash)
    requires Inv(st) && Disciplined(st, Publish(sid, key))
    ensures Inv(PublishPrefix(st, sid, key, hash).0)
    ensures PrivateStep(Abs(st), Publish(sid, key), Flag(PublishPrefix(st, sid, key, hash)).1,
                        Abs(PublishPrefix(st, sid, key, hash).0), hash)
  {
    InvParts(st);
    assert NoSecondKey(st, sid, key);
    PublishStepIs(Abs(st), sid, key, Flag(PublishPrefix(st, sid, key, hash)).1, Abs(PublishPrefix(st, sid, key, hash).0), hash);
    FlagIs(PublishPrefix(st, sid, key, hash));
    hide *;
    PublishRefines(st, sid, key, hash);
    PublishKeepsPrefixesIff(st, sid, key, hash);
    PublishKeepsIndex(st, sid, key, hash);
    InvFrom(PublishPrefix(st, sid, key, hash).0);
  }

  /** A publication leaves the books sound exactly under the one-key discipline. */
  lemma PublishSoundIff(st: Store, sid: nat, key: string, hash: ContentHash)
    requires Inv(st)
    ensures ValidPool(st.pool) && (Inv(PublishPrefix(st, sid, key, hash).0) <==> Disciplined(st, Publish(sid, key)))
  {
    hide *;
    InvParts(st);
    DisciplinedIs(st, sid, key);
    PublishKeepsPrefixesIff(st, sid, key, hash);
    if Disciplined(st, Publish(sid, key)) {
      StepPublish(st, sid, key, hash);
    } else {
      InvHasPrefixes(PublishPrefix(st, sid, key, hash).0);
    }
  }

  lemma DisciplinedIs(st: Store, sid: nat, key: string)
    ensures Disciplined(st, Publish(sid, key)) <==> NoSecondKey(st, sid, key)
  {}

  lemma InvHasPrefixes(st: Store)
    ensures Inv(st) ==> PrefixInv(st)
  {}

  lemma PublishStepIs(a: Private, sid: nat, key: string, result: nat, a': Private, hash: ContentHash)
    ensures PrivateStep(a, Publish(sid, key), result, a', hash) <==>
            if result > 0 then sid in a.seqs && a.seqs[sid].blocks != [] && a' == PPublish(a, sid, key, hash) else a' == a
  {}

  lemma PublishKeepsIndex(st: Store, sid: nat, key: string, hash: ContentHash)
    requires MemoryInv(st) && IndexInv(st)
    ensures IndexInv(PublishPrefix(st, sid, key, hash).0)
  {
    PublishIs(st, sid, key, hash);
    var st' := PublishPrefix(st, sid, key, hash).0;
    hide MemoryInv, PublishPrefix;
    IndexIgnoresKeys(st, st', sid);
  }

  lemma IndexIgnoresKeys(st: Store, st': Store, sid: nat)
    requires IndexInv(st) && st'.byRequest == st.byRequest && st'.seqs.Keys == st.seqs.Keys
    requires forall k :: k in st.seqs ==> st'.seqs[k].request == st.seqs[k].request
    ensures IndexInv(st')
  {
    forall r | r in st.byRequest
      ensures Lists(st'.seqs, r, st.byRequest[r])
    {
      assert Lists(st.seqs, r, st.byRequest[r]);
    }
  }

  lemma StepAttach(st: Store, sid: nat, key: string)
    requires Inv(st)
    ensures var (st', tokens) := AttachPrefix(st, sid, key);
            && Inv(st')
            && if tokens > 0 then PAttaches(Abs(st), sid, key, tokens, Abs(st')) else Abs(st') == Abs(st)
  {
    hide *;
    InvParts(st);
    AttachRefines(st, sid, key);
    AttachKeepsIndex(st, sid, key);
    InvFrom(AttachPrefix(st, sid, key).0);
  }

  lemma AttachKeepsIndex(st: Store, sid: nat, key: string)
    requires MemoryInv(st) && PrefixInv(st) && IndexInv(st)
    ensures IndexInv(AttachPrefix(st, sid, key).0)
  {
    AttachShape(st, sid, key);
    AttachUnfolds(st, sid, key);
    var st' := AttachPrefix(st, sid, key).0;
    hide MemoryInv, PrefixInv, IndexInv, AttachPrefix, CanAttach, RecordOk;
    if CanAttach(st, sid, key) {
      IndexIgnoresKeys(st, st', sid);
    }
  }

  // ---- When calls succeed -----------------------------------------------------------------------------------

  lemma RestoreAcceptedByAny(a: Private, s: Supply, request: nat, ids: seq<nat>)
    requires Enumerates(a, request, ids)
    ensures Accepts(a, s, RestoreRequest(request)) <==> CountOfEach(s, ids, Away) <= s.free
  {
    forall other | Enumerates(a, request, other)
      ensures CountOfEach(s, other, Away) == CountOfEach(s, ids, Away)
    {
      CountOfAnyOrder(s, other, ids, Away);
    }
  }

  lemma RestoreAccepted(st: Store, request: nat)
    requires Inv(st)
    ensures Accepts(Abs(st), SupplyOf(st), RestoreRequest(request)) <==> SlotsNeeded(st, SequencesFor(st, request)) <= |st.pool.free|
  {
    hide *;
    RequestIsLive(st, request);
    AwayOfEachIs(st, SequencesFor(st, request));
    RestoreAcceptedByAny(Abs(st), SupplyOf(st), request, SequencesFor(st, request));
    SupplyFree(st);
  }

  lemma SupplyFree(st: Store)
    ensures SupplyOf(st).free == |st.pool.free|
  {}

  lemma WriteAccepted(st: Store, sid: nat, token: nat, layer: nat, content: Frame)
    requires MemoryInv(st)
    ensures Accepts(Abs(st), SupplyOf(st), Write(sid, token, layer, content)) <==> Writable(st, sid, token, layer) && |content| == st.pool.width
  {
    hide MemoryInv, Count;
    var tpb := TokensPerBlock(st.pool);
    if tpb > 0 && sid in st.seqs {
      assert SupplyOf(st).places[sid] == PlacesOf(st.pool, st.seqs[sid].tables);
    }
  }

  lemma AttachAccepted(st: Store, sid: nat, key: string)
    ensures Accepts(Abs(st), SupplyOf(st), Attach(sid, key)) <==> CanAttach(st, sid, key)
  {
    hide AbsSeqs, AbsPrefixes;
    AbsShows(st, sid, key);
  }

  lemma PublishAcceptedIs(a: Private, s: Supply, sid: nat, key: string)
    ensures Accepts(a, s, Publish(sid, key)) <==>
            && key != "" && sid in a.seqs && a.seqs[sid].blocks != [] && a.seqs[sid].blocks[0] != []
            && (a.seqs[sid].key == key || CountOf(s, sid, Away) == 0)
  {
    hide CountOf;
  }

  lemma AbsSizes(st: Store, sid: nat)
    requires sid in st.seqs && st.seqs[sid].tables != []
    ensures sid in Abs(st).seqs && Abs(st).seqs[sid].key == st.seqs[sid].key
    ensures Abs(st).seqs[sid].blocks != [] && (Abs(st).seqs[sid].blocks[0] == [] <==> st.seqs[sid].tables[0] == [])
  {
    hide Abs;
    AbsShows(st, sid, "");
  }

  lemma PublishAccepted(st: Store, sid: nat, key: string)
    requires MemoryInv(st)
    ensures sid in st.seqs ==> st.seqs[sid].tables != []
    ensures Accepts(Abs(st), SupplyOf(st), Publish(sid, key)) <==>
            key != "" && sid in st.seqs && st.seqs[sid].tables[0] != []
            && (st.seqs[sid].key == key || AllResident(st.seqs[sid].tables))
  {
    hide *;
    PublishAcceptedIs(Abs(st), SupplyOf(st), sid, key);
    AbsShows(st, sid, "");
    AwayOfIs(st, sid);
    if sid in st.seqs {
      FirstTable(st, sid);
      AbsSizes(st, sid);
    }
  }

  lemma PlainAccepted(st: Store, op: Op)
    requires op.Create? || op.ForkFrom? || op.Reserve? || op.Restore?
    ensures op.Create? ==> (Accepts(Abs(st), SupplyOf(st), op) <==> op.sid !in st.seqs)
    ensures op.ForkFrom? ==>
              (Accepts(Abs(st), SupplyOf(st), op) <==>
               op.parent in st.seqs && op.child !in st.seqs && AllResident(st.seqs[op.parent].tables))
    ensures op.Reserve? ==>
              (Accepts(Abs(st), SupplyOf(st), op) <==>
               && op.sid in st.seqs && TokensPerBlock(st.pool) > 0
               && CeilDiv(op.tokens, TokensPerBlock(st.pool)) * TableCount(st.pool) <= |st.pool.free|)
    ensures op.Restore? ==>
              (Accepts(Abs(st), SupplyOf(st), op) <==> op.sid in st.seqs && SlotCountAll(st.seqs[op.sid].tables) <= |st.pool.free|)
  {
    hide AllResident, SlotCountAll, AbsSeqs, AbsPrefixes;
    AbsShows(st, 0, "");
    AwayOfIs(st, if op.ForkFrom? then op.parent else if op.Restore? then op.sid else 0);
  }

  /** Every call answers as the private copies and the supply say: there is no other refusal. */
  lemma StepAnswers(st: Store, op: Op, hash: ContentHash)
    requires Inv(st)
    ensures ValidPool(st.pool)
    ensures AnswersAs(Abs(st), SupplyOf(st), op, Step(st, op, hash).1, SupplyOf(Step(st, op, hash).0))
  {
    hide *;
    InvParts(st);
    AnswersAsIs(st, op, hash);
    StepIs(st, op, hash);
    match op
    case Create(sid, request) => PlainAccepted(st, op); CreateRefines(st, sid, request); FlagIs(CreateSequence(st, sid, request));
    case ForkFrom(parent, child, request) =>
      PlainAccepted(st, op);
      ForkRefines(st, parent, child, request);
      FlagIs(ForkSequence(st, parent, child, request));
    case Reserve(sid, tokens) => PlainAccepted(st, op); ReserveRefines(st, sid, tokens); FlagIs(ReserveTokens(st, sid, tokens));
    case Write(sid, token, layer, content) =>
      WriteAccepted(st, sid, token, layer, content);
      WriteRefines(st, sid, token, layer, content);
      FlagIs(WriteBlock(st, sid, token, layer, content));
    case Evict(sid) => EvictAnswers(st, sid, hash);
    case Restore(sid) =>
      PlainAccepted(st, op);
      SwapInRefines(st, sid);
      CanRestoreIs(st, sid);
      FlagIs(SwapInSequence(st, sid));
    case EvictRequest(request) => EvictRequestAnswers(st, request, hash);
    case RestoreRequest(request) =>
      RestoreAccepted(st, request);
      RestoreRequestAllOrNothing(st, request);
      FlagIs(SwapInRequest(st, request));
    case Publish(sid, key) => PublishAccepted(st, sid, key); PublishRefines(st, sid, key, hash); FlagIs(PublishPrefix(st, sid, key, hash));
    case Attach(sid, key) => AttachAccepted(st, sid, key); AttachRefines(st, sid, key);
    case ReleaseOne(sid) =>
    case ReleaseWhole(request) =>
  }

  lemma CanRestoreIs(st: Store, sid: nat)
    ensures sid in st.seqs ==> (CanRestore(st, sid) <==> SlotCountAll(st.seqs[sid].tables) <= |st.pool.free|)
  {
    hide SlotCountAll;
  }

  lemma AnswersAsIs(st: Store, op: Op, hash: ContentHash)
    requires ValidPool(st.pool)
    ensures !op.Evict? && !op.EvictRequest? ==>
              (AnswersAs(Abs(st), SupplyOf(st), op, Step(st, op, hash).1, SupplyOf(Step(st, op, hash).0)) <==>
               (Step(st, op, hash).1 > 0 <==> Accepts(Abs(st), SupplyOf(st), op)))
    ensures op.ReleaseOne? || op.ReleaseWhole? ==> Accepts(Abs(st), SupplyOf(st), op)
  {
    hide Step, Abs, ValidPool, SupplyOf;
  }

  lemma EvictAnswers(st: Store, sid: nat, hash: ContentHash)
    requires MemoryInv(st)
    ensures ValidPool(st.pool)
    ensures AnswersAs(Abs(st), SupplyOf(st), Evict(sid), Step(st, Evict(sid), hash).1, SupplyOf(Step(st, Evict(sid), hash).0))
  {
    hide MemoryInv, Abs, SupplyOf, ValidPool, SwapOutSequence, Evicts, CountOf;
    PoolIsValid(st);
    SequenceEvictions(st, sid);
  }

  lemma EvictRequestAnswers(st: Store, request: nat, hash: ContentHash)
    requires Inv(st)
    ensures ValidPool(st.pool)
    ensures AnswersAs(Abs(st), SupplyOf(st), EvictRequest(request),
                      Step(st, EvictRequest(request), hash).1, SupplyOf(Step(st, EvictRequest(request), hash).0))
  {
    hide Inv, MemoryInv, Abs, SupplyOf, ValidPool, SwapOutEach, Evicts, CountOfEach, Enumerates, SequencesFor;
    InvParts(st);
    RequestIsLive(st, request);
    EachEvictions(st, SequencesFor(st, request));
  }

  // ---- Runs -----------------------------------------------------------------------------------------------

  function Run(st: Store, ops: seq<Op>, hash: ContentHash): (r: Store)
    requires ValidPool(st.pool)
    ensures ValidPool(r.pool)
    decreases |ops|
  {
    if ops == [] then st else Run(Step(st, ops[0], hash).0, ops[1..], hash)
  }

  function Results(st: Store, ops: seq<Op>, hash: ContentHash): seq<nat>
    requires ValidPool(st.pool)
    decreases |ops|
  {
    if ops == [] then [] else
      var (st1, result) := Step(st, ops[0], hash);
      [result] + Results(st1, ops[1..], hash)
  }

  ghost predicate DisciplinedRun(st: Store, ops: seq<Op>, hash: ContentHash)
    requires ValidPool(st.pool)
    decreases |ops|
  {
    ops != [] ==> Disciplined(st, ops[0]) && DisciplinedRun(Step(st, ops[0], hash).0, ops[1..], hash)
  }

  /** Room and places before each call and after the last. */
  ghost function Supplies(st: Store, ops: seq<Op>, hash: ContentHash): (r: seq<Supply>)
    requires ValidPool(st.pool)
    ensures |r| == |ops| + 1
    decreases |ops|
  {
    [SupplyOf(st)] + if ops == [] then [] else Supplies(Step(st, ops[0], hash).0, ops[1..], hash)
  }

  /** The private-copy store answers the same calls, under the same supply, with the same results. */
  ghost predicate PrivateRun(a: Private, ops: seq<Op>, supplies: seq<Supply>, results: seq<nat>, a': Private, hash: ContentHash)
    decreases |ops|
  {
    |results| == |ops| && |supplies| == |ops| + 1 &&
    if ops == [] then a' == a
    else
      && AnswersAs(a, supplies[0], ops[0], results[0], supplies[1])
      && exists a1 :: PrivateStep(a, ops[0], results[0], a1, hash) && PrivateRun(a1, ops[1..], supplies[1..], results[1..], a', hash)
  }

  lemma FreshStoreInv(p: Pool)
    requires ValidPool(p) && forall f :: 0 <= f < |p.infos| ==> p.infos[f].refs == 0
    requires p.swap.Some? ==> p.swap.value.slots == map[]
    ensures Inv(EmptyStore(p))
    ensures Abs(EmptyStore(p)).seqs == map[] && Abs(EmptyStore(p)).prefixes == map[]
  {
    var st := EmptyStore(p);
    assert SequenceHolds(st.seqs) == map[] && PrefixHolds(st.prefixes) == map[];
    assert Held(st) == multiset{};
  }

  lemma RunUnfolds(st: Store, ops: seq<Op>, hash: ContentHash)
    requires ValidPool(st.pool) && ops != []
    ensures var (st1, result) := Step(st, ops[0], hash);
            && Run(st, ops, hash) == Run(st1, ops[1..], hash)
            && |Results(st, ops, hash)| == |ops|
            && Results(st, ops, hash)[0] == result && Results(st, ops, hash)[1..] == Results(st1, ops[1..], hash)
            && Supplies(st, ops, hash)[0] == SupplyOf(st) && Supplies(st, ops, hash)[1] == SupplyOf(st1)
            && Supplies(st, ops, hash)[1..] == Supplies(st1, ops[1..], hash)
    ensures DisciplinedRun(st, ops, hash) ==> Disciplined(st, ops[0]) && DisciplinedRun(Step(st, ops[0], hash).0, ops[1..], hash)
  {
    hide Step, SupplyOf, Disciplined, ValidPool;
    ResultsSize(Step(st, ops[0], hash).0, ops[1..], hash);
  }

  lemma {:induction false} ResultsSize(st: Store, ops: seq<Op>, hash: ContentHash)
    requires ValidPool(st.pool)
    ensures |Results(st, ops, hash)| == |ops|
    decreases |ops|
  {
    hide Step, ValidPool;
    if ops != [] {
      ResultsSize(Step(st, ops[0], hash).0, ops[1..], hash);
    }
  }

  lemma PrivateRunStep(a: Private, a1: Private, ops: seq<Op>, supplies: seq<Supply>, results: seq<nat>, a': Private, hash: ContentHash)
    requires ops != [] && |results| == |ops| && |supplies| == |ops| + 1
    requires AnswersAs(a, supplies[0], ops[0], results[0], supplies[1])
    requires PrivateStep(a, ops[0], results[0], a1, hash) && PrivateRun(a1, ops[1..], supplies[1..], results[1..], a', hash)
    ensures PrivateRun(a, ops, supplies, results, a', hash)
  {
    hide AnswersAs, PrivateStep;
  }

  lemma NothingRun(st: Store, hash: ContentHash)
    requires ValidPool(st.pool)
    ensures Run(st, [], hash) == st && PrivateRun(Abs(st), [], Supplies(st, [], hash), Results(st, [], hash), Abs(st), hash)
  {
    hide Abs, ValidPool;
  }

  /**
    Main result: over every disciplined run, what every sequence reads is what private copies would
    hold, and every refusal is one the private copies and the room left explain.
   */
  lemma {:induction false} SharingIsInvisible(st: Store, ops: seq<Op>, hash: ContentHash)
    requires Inv(st) && ValidPool(st.pool) && DisciplinedRun(st, ops, hash)
    ensures Inv(Run(st, ops, hash))
    ensures PrivateRun(Abs(st), ops, Supplies(st, ops, hash), Results(st, ops, hash), Abs(Run(st, ops, hash)), hash)
    decreases |ops|
  {
    hide *;
    if ops == [] {
      NothingRun(st, hash);
    } else {
      RunUnfolds(st, ops, hash);
      StepRefinesPrivateCopies(st, ops[0], hash);
      StepAnswers(st, ops[0], hash);
      var st1 := Step(st, ops[0], hash).0;
      SharingIsInvisible(st1, ops[1..], hash);
      PrivateRunStep(Abs(st), Abs(st1), ops, Supplies(st, ops, hash), Results(st, ops, hash), Abs(Run(st, ops, hash)), hash);
    }
  }

  // ---- Reference conservation and leak freedom ----------------------------------------------------------------

  /** How often a sequence's resident entries map a frame, and a record pins it, add up to its count. */
  lemma ReferencesAreConserved(st: Store, frame: nat)
    requires Inv(st) && frame < |st.pool.infos|
    ensures st.pool.infos[frame].refs
         == SumMap(SequenceHolds(st.seqs))[OnFrame(frame)] + SumMap(PrefixHolds(st.prefixes))[OnFrame(frame)]
    ensures frame in st.pool.free <==> Held(st)[OnFrame(frame)] == 0
  {
    assert Held(st)[OnFrame(frame)] == Count(st.pool, OnFrame(frame));
  }

  /** Live swap slots and swapped-out entries correspond one to one. */
  lemma SlotsMatchSwappedEntries(st: Store, slot: nat)
    requires Inv(st)
    ensures Held(st)[InSlot(slot)] == if st.pool.swap.Some? && slot in st.pool.swap.value.slots then 1 else 0
  {
    assert Held(st)[InSlot(slot)] == Count(st.pool, InSlot(slot));
  }

  /** Once every sequence is released no frame, slot, pin or index entry is left. */
  lemma NothingLeaks(st: Store)
    requires Inv(st) && st.seqs == map[]
    ensures st.prefixes == map[] && st.byRequest == map[]
    ensures |st.pool.free| == |st.pool.infos|
    ensures forall f :: 0 <= f < |st.pool.infos| ==> st.pool.infos[f].state == Free
    ensures st.pool.swap.Some? ==> st.pool.swap.value.slots == map[]
  {
    forall key
      ensures key !in st.prefixes
    {
      RecordHasHolder(st, key);
    }
    forall r
      ensures r !in st.byRequest
    {
      RequestHasSequence(st, r);
    }
    assert SequenceHolds(st.seqs) == map[] && PrefixHolds(st.prefixes) == map[];
    assert Held(st) == multiset{};
    AllFree(st.pool);
  }

  lemma RecordHasHolder(st: Store, key: string)
    requires PrefixInv(st)
    ensures key in st.prefixes ==> exists sid :: sid in st.seqs
  {
    if key in st.prefixes {
      var rs := st.prefixes[key];
      assert RecordsOk(st.pool, st.seqs, key, rs) && Counted(st.seqs, key, rs[0]);
      var sid :| sid in Holders(st.seqs, key, rs[0].hash);
    }
  }

  lemma RequestHasSequence(st: Store, request: nat)
    requires IndexInv(st)
    ensures request in st.byRequest ==> exists sid :: sid in st.seqs
  {
    if request in st.byRequest {
      assert Lists(st.seqs, request, st.byRequest[request]);
      assert st.byRequest[request][0] in st.byRequest[request];
    }
  }

  lemma AllFree(p: Pool)
    requires Accounted(p, multiset{})
    ensures |p.free| == |p.infos|
    ensures forall f :: 0 <= f < |p.infos| ==> p.infos[f].state == Free
    ensures p.swap.Some? ==> p.swap.value.slots == map[]
  {
    forall f | 0 <= f < |p.infos|
      ensures p.infos[f].state == Free
    {
      assert Count(p, OnFrame(f)) == 0;
    }
    StatisticsAgree(p);
    AllInState(p.infos);
    if p.swap.Some? {
      forall k
        ensures k !in p.swap.value.slots
      {
        assert Count(p, InSlot(k)) == 0;
      }
    }
  }

  lemma {:induction false} AllInState(infos: seq<Info>)
    requires forall f :: 0 <= f < |infos| ==> infos[f].state == Free
    ensures StateCount(infos, Free) == |infos|
  {
    if infos != [] {
      AllInState(infos[..|infos| - 1]);
    }
  }

  /** Every run that ends with no sequence ends with an empty pool. */
  lemma DrainedRunLeaksNothing(st: Store, ops: seq<Op>, hash: ContentHash)
    requires Inv(st) && ValidPool(st.pool) && DisciplinedRun(st, ops, hash)
    requires Run(st, ops, hash).seqs == map[]
    ensures |Run(st, ops, hash).pool.free| == |Run(st, ops, hash).pool.infos|
    ensures Run(st, ops, hash).pool.swap.Some? ==> Run(st, ops, hash).pool.swap.value.slots == map[]
  {
    SharingIsInvisible(st, ops, hash);
    NothingLeaks(Run(st, ops, hash));
  }
}
