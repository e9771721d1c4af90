/** What scheduling does to the cache: round trips, refusals and readings. */
module SchedulerCache {
  import opened Arithmetic
  import opened FramePool
  import opened CacheStore
  import opened CacheAccounting
  import opened CacheRefinement
  import opened CacheLifecycle
  import opened CachePrefixes
  import opened CacheSharing
  import opened SchedulerModel
  import opened SchedulerLedger
  import opened SchedulerPlans
  import CacheRuns
  import CacheSupply
  import CacheTheorems

  // ---- Preempt, then resume --------------------------------------------------------------------

  /**
    Preempting a request and resuming it at once succeeds exactly when the blocks it already had
    in swap fit the free frames, so always for a resident request.  Either way every sequence
    reads what it read; on success nothing of the request is left in swap, the ledger and the
    other queues are as before and the request is back, at the end of the active queue, in
    Prefill exactly when prefill is left.
   */
  lemma PreemptThenResume(s: Sched, i: nat, reason: string)
    requires Books(s) && CacheRuns.Inv(s.store) && i < |s.active|
    ensures ValidPool(s.store.pool)
    ensures var id := s.active[i].id;
            var ids := SequencesFor(s.store, id);
            var s1 := Preempt(s, id, reason).0;
            var (s2, ok) := Resume(s1, id);
            && (ok <==> SlotsNeeded(s.store, ids) <= |s.store.pool.free|)
            && CacheRuns.Inv(s2.store) && Abs(s2.store) == Abs(s.store)
            && (ok ==>
                  && SlotsNeeded(s2.store, ids) == 0
                  && s2 == s.(active := Removed(s.active, i) + [s.active[i].(state := if s.active[i].remaining > 0 then Prefill else Decode)],
                              store := s2.store)
                  && (s.active[i].prompt > 0 ==> s2.active == Removed(s.active, i) + [s.active[i]]))
  {
    hide *;
    var r := s.active[i];
    var id := r.id;
    BooksShow(s, id);
    FindIsExact(s.active, i);
    PreemptIs(s, id, reason, i);
    PreemptKeepsBooks(s, id, reason);
    var s1 := Preempt(s, id, reason).0;
    var last := |s.preempted|;
    StoppedShows(s1, last);
    FindIsExact(s1.preempted, last);
    ResumeIs(s1, id, last);
    CacheTheorems.SwapRoundTrip(s.store, id);
    RoundTripFields(s, i);
    RemovedLast(s.preempted, s1.preempted[last]);
    var s2 := Resume(s1, id).0;
    if Resume(s1, id).1 {
      assert s1.info - {id} == s.info - {id} == s.info;
      assert s2 == s.(active := s2.active, store := s2.store);
    }
  }

  /**
    What a preemption records: its reason, and how many frames it freed, which is the lesser of the
    request's unshared resident blocks and the swap slots left; so many more of its blocks are in swap.
   */
  lemma PreemptionRecord(s: Sched, i: nat, reason: string)
    requires Books(s) && CacheRuns.Inv(s.store) && i < |s.active|
    ensures ValidPool(s.store.pool)
    ensures var id := s.active[i].id;
            var s', ids := Preempt(s, id, reason).0, SequencesFor(s.store, id);
            var n := Min(CacheSupply.CountOfEach(CacheSupply.SupplyOf(s.store), ids, CacheSupply.Alone), CacheSupply.Room(s.store.pool));
            && s'.info == s.info[id := PreemptionInfo(reason, n)] && FreeFrames(s') == FreeFrames(s) + n
            && SlotsNeeded(s'.store, ids) == SlotsNeeded(s.store, ids) + n
  {
    hide *;
    var id := s.active[i].id;
    BooksShow(s, id);
    FindIsExact(s.active, i);
    PreemptIs(s, id, reason, i);
    CacheRuns.InvParts(s.store);
    CacheTheorems.RequestIsLive(s.store, id);
    LiveIsDistinct(s.store, SequencesFor(s.store, id));
    CacheSupply.EachEvictions(s.store, SequencesFor(s.store, id));
    SwapOutRequestIs(s.store, id);
    CacheSupply.EvictsShows(s.store, CacheSupply.CountOfEach(CacheSupply.SupplyOf(s.store), SequencesFor(s.store, id), CacheSupply.Alone), SwapOutRequest(s.store, id).1,
                SwapOutRequest(s.store, id).0);
    CacheTheorems.EvictRequestRefines(s.store, id);
    FreeFramesAre(s);
    FreeFramesAre(Preempt(s, id, reason).0);
  }

  lemma LiveIsDistinct(st: Store, ids: seq<nat>)
    requires CacheTheorems.AllLive(st, ids)
    ensures CacheRuns.Distinct(ids)
  {}

  lemma SwapOutRequestIs(st: Store, request: nat)
    requires ValidPool(st.pool)
    ensures SwapOutRequest(st, request) == SwapOutEach(st, SequencesFor(st, request))
  {}

  lemma FreeFramesAre(s: Sched)
    ensures FreeFrames(s) == |s.store.pool.free|
  {}

  lemma StoppedShows(s: Sched, i: nat)
    requires Books(s) && i < |s.preempted|
    ensures Ids(s.preempted)[s.preempted[i].id] <= 1
  {
    UniqueQueues(s, s.preempted[i].id);
  }

  lemma RemovedLast(q: seq<Request>, r: Request)
    ensures Removed(q + [r], |q|) == q
  {}

  /** An active request is on the ledger, has no preemption record, and its state follows its prefill. */
  lemma RoundTripFields(s: Sched, i: nat)
    requires Books(s) && i < |s.active|
    ensures var r := s.active[i];
            && r.id !in s.info
            && Discharge(s.held, r.lifetime) + r.lifetime == s.held
            && (r.prompt > 0 ==> r.state == if r.remaining > 0 then Prefill else Decode)
  {
    UniqueQueues(s, s.active[i].id);
    IdIn(s.active, s.active[i].id);
    LifetimeWithin(s.active, i);
    assert RunningOk(s.active[i]);
  }

  // ---- Pinning and letting go again -----------------------------------------------------------------

  lemma RetainThenRelease(p: Pool, f: nat)
    requires ValidPool(p) && f < |p.infos| && p.infos[f].refs > 0
    ensures Release(Retain(p, f), f) == p
  {}

  lemma RetainCommutes(p: Pool, f: nat, g: nat)
    requires ValidPool(p) && f < |p.infos| && p.infos[f].refs > 1
    ensures Retain(Release(p, f), g) == Release(Retain(p, g), f)
  {
    if g < |p.infos| && p.infos[g].refs > 0 {
      if f != g {
        assert p.infos[f := p.infos[f].(refs := p.infos[f].refs - 1, state := StateFor(p.infos[f].refs - 1))][g := p.infos[g].(refs := p.infos[g].refs + 1, state := Shared)]
            == p.infos[g := p.infos[g].(refs := p.infos[g].refs + 1, state := Shared)][f := p.infos[f].(refs := p.infos[f].refs - 1, state := StateFor(p.infos[f].refs - 1))];
      }
    }
  }

  lemma {:induction false} ReleaseBeforeRetains(p: Pool, f: nat, rs: seq<Res>)
    requires ValidPool(p) && f < |p.infos| && p.infos[f].refs > 1
    ensures Release(RetainAll(p, rs), f) == RetainAll(Release(p, f), rs)
    decreases |rs|
  {
    if rs != [] && rs[0].OnFrame? {
      RetainCommutes(p, f, rs[0].frame);
      ReleaseBeforeRetains(Retain(p, rs[0].frame), f, rs[1..]);
    } else if rs != [] {
      ReleaseBeforeRetains(p, f, rs[1..]);
    }
  }

  /** Taking references to frames in use and dropping them again leaves the pool untouched. */
  lemma {:induction false} RetainThenFree(p: Pool, rs: seq<Res>)
    requires ValidPool(p) && forall r :: r in rs ==> r.OnFrame? && Count(p, r) > 0
    ensures FreeAll(RetainAll(p, rs), rs) == p
    decreases |rs|
  {
    if rs != [] {
      var f := rs[0].frame;
      assert Count(p, rs[0]) > 0;
      ReleaseBeforeRetains(Retain(p, f), f, rs[1..]);
      RetainThenRelease(p, f);
      hide Retain, Release, ValidPool;
      RetainThenFree(p, rs[1..]);
    }
  }

  // ---- Refusals -------------------------------------------------------------------------------------

  lemma UnindexOnly(m: map<nat, seq<nat>>, request: nat, sid: nat)
    requires request !in m
    ensures Unindex(Index(m, request, sid), request, sid) == m
    ensures request in Index(m, request, sid) && Index(m, request, sid)[request] == [sid]
  {
    assert [sid][1..] == [] && [] + [sid] == [sid];
    assert Without([sid], sid) == Without([], sid) == [];
    assert m[request := [sid]] - {request} == m;
  }

  lemma ReleaseOnly(st: Store, request: nat, sid: nat)
    requires ValidPool(st.pool) && request in st.byRequest && st.byRequest[request] == [sid]
    ensures ReleaseRequest(st, request) == ReleaseSequence(st, sid)
  {
    hide ReleaseSequence;
    assert [sid][1..] == [];
    var st1 := ReleaseSequence(st, sid);
    assert ReleaseEach(st1, []) == st1;
    assert ReleaseEach(st, [sid]) == ReleaseEach(st1, []);
  }

  lemma CreateIs(st: Store, c: Request)
    requires c.root !in st.seqs
    ensures CreateSequence(st, c.root, c.id)
         == (st.(seqs := st.seqs[c.root := Sequence(c.id, seq(TableCount(st.pool), _ => []), "", 0)],
                 byRequest := Index(st.byRequest, c.id, c.root)), true)
  {}

  lemma PutThenRemove<T>(m: map<nat, T>, k: nat, a: T, b: T)
    requires k !in m
    ensures m[k := a] - {k} == m && m[k := a][k := b] - {k} == m
  {}

  lemma ReleaseIs(st: Store, sid: nat)
    requires ValidPool(st.pool) && sid in st.seqs
    ensures var st1 := DropPrefixUser(st, sid);
            ReleaseSequence(st, sid) == st1.(pool := FreeAll(st1.pool, Flat(st.seqs[sid].tables)), seqs := st1.seqs - {sid},
                                             byRequest := Unindex(st1.byRequest, st.seqs[sid].request, sid))
  {
    hide DropPrefixUser, FreeAll, Flat, Unindex;
  }

  /** Undoing a bare creation restores the store. */
  lemma UndoCreate(st: Store, c: Request)
    requires ValidPool(st.pool) && c.root !in st.seqs && c.id !in st.byRequest
    ensures ReleaseRequest(CreateSequence(st, c.root, c.id).0, c.id) == st
  {
    hide CreateSequence, Index, Unindex, ReleaseSequence, ReleaseRequest;
    var st1 := CreateSequence(st, c.root, c.id).0;
    CreateIs(st, c);
    UnindexOnly(st.byRequest, c.id, c.root);
    ReleaseOnly(st1, c.id, c.root);
    ReleaseIs(st1, c.root);
    FlatOfEmpties(TableCount(st.pool));
    PutThenRemove(st.seqs, c.root, st1.seqs[c.root], st1.seqs[c.root]);
  }

  lemma PinnedInUse(st: Store, key: string)
    requires MemoryInv(st) && key in st.prefixes && st.prefixes[key] != []
    ensures forall r :: r in Frames(st.prefixes[key][0].ids) ==> r.OnFrame? && Count(st.pool, r) > 0
  {
    HeldSplitsAtKey(st, key);
    PinsHold(st.prefixes[key], 0);
    var ids := Frames(st.prefixes[key][0].ids);
    forall r | r in ids
      ensures Count(st.pool, r) > 0
    {
      assert r in multiset(ids);
      assert Held(st)[r] > 0;
    }
  }

  /** What attaching leaves to undo: one more user of the record, and its frames retained. */
  lemma AttachThenDrop(st: Store, sid: nat, key: string)
    requires MemoryInv(st) && PrefixInv(st) && CanAttach(st, sid, key)
    ensures ValidPool(st.pool)
    ensures var st2 := AttachPrefix(st, sid, key).0;
            && sid in st2.seqs && st2.byRequest == st.byRequest
            && st2.seqs[sid].request == st.seqs[sid].request
            && DropPrefixUser(st2, sid) == st2.(seqs := st2.seqs[sid := st2.seqs[sid].(key := "", hash := 0)], prefixes := st.prefixes)
            && st2 == st.(pool := st2.pool, seqs := st.seqs[sid := st2.seqs[sid]], prefixes := st2.prefixes)
            && Flat(st2.seqs[sid].tables) == Frames(st.prefixes[key][0].ids)
            && st2.pool == RetainAll(st.pool, Frames(st.prefixes[key][0].ids))
  {
    hide *;
    AttachShape(st, sid, key);
    AttachUnfolds(st, sid, key);
    CanAttachShows(st, sid, key);
    UsersPositive(st, key);
    var rs := st.prefixes[key];
    var record := rs[0];
    var st2 := AttachPrefix(st, sid, key).0;
    var k := |st.seqs[sid].tables|;
    AttachTablesFlat(record.ids, sid, TokensPerBlock(st.pool), |record.ids| / k, k);
    assert rs == [record];
    DropAfterJoin(st2, sid, key, record);
    assert st2.prefixes[key := rs] == st.prefixes;
  }

  /** The last of several users goes: the record has one fewer. */
  lemma DropAfterJoin(st: Store, sid: nat, key: string, record: PrefixRecord)
    requires ValidPool(st.pool) && sid in st.seqs && key != "" && st.seqs[sid].key == key && st.seqs[sid].hash == record.hash
    requires key in st.prefixes && st.prefixes[key] == [record.(users := record.users + 1)] && record.users > 0
    ensures DropPrefixUser(st, sid) == st.(seqs := st.seqs[sid := st.seqs[sid].(key := "", hash := 0)], prefixes := st.prefixes[key := [record]])
  {
    hide ValidPool, FreeAll, Frames;
    assert [record.(users := record.users + 1)][0 := record] == [record];
  }

  lemma UsersPositive(st: Store, key: string)
    requires PrefixInv(st) && key in st.prefixes
    ensures st.prefixes[key] != [] && st.prefixes[key][0].users > 0 && key != ""
  {
    assert RecordsOk(st.pool, st.seqs, key, st.prefixes[key]);
    assert Counted(st.seqs, key, st.prefixes[key][0]);
  }

  /** Undoing a creation that attached a prefix restores the store: users, pins and free list. */
  lemma UndoAttach(st: Store, c: Request)
    requires CacheRuns.Inv(st) && c.root !in st.seqs && c.id !in st.byRequest
    requires CanAttach(CreateSequence(st, c.root, c.id).0, c.root, c.key)
    ensures ValidPool(st.pool)
    ensures ReleaseRequest(AttachPrefix(CreateSequence(st, c.root, c.id).0, c.root, c.key).0, c.id) == st
  {
    hide *;
    CacheRuns.InvParts(st);
    CacheRuns.CreateInv(st, c.root, c.id);
    CreateIs(st, c);
    UnindexOnly(st.byRequest, c.id, c.root);
    var st1 := CreateSequence(st, c.root, c.id).0;
    CacheRuns.InvParts(st1);
    CanAttachShows(st1, c.root, c.key);
    AttachThenDrop(st1, c.root, c.key);
    var st2 := AttachPrefix(st1, c.root, c.key).0;
    ReleaseOnly(st2, c.id, c.root);
    ReleaseIs(st2, c.root);
    PinnedInUse(st1, c.key);
    var ids := Frames(st1.prefixes[c.key][0].ids);
    RetainThenFree(st1.pool, ids);
    PutThenRemove(st.seqs, c.root, st1.seqs[c.root], st2.seqs[c.root]);
    PutThenRemove(st.seqs, c.root, st1.seqs[c.root], st2.seqs[c.root].(key := "", hash := 0));
    var st3 := DropPrefixUser(st2, c.root);
    PutTwice(st.seqs, c.root, st1.seqs[c.root], st2.seqs[c.root], st2.seqs[c.root].(key := "", hash := 0));
  }

  lemma PutTwice<T>(m: map<nat, T>, k: nat, a: T, b: T, c: T)
    requires k !in m
    ensures m[k := a][k := b][k := c] - {k} == m
  {}

  /** The store after creating the root sequence and, where it fits, attaching the published prefix. */
  ghost function Started(st: Store, c: Request): (r: (Store, nat))
    requires ValidPool(st.pool)
    ensures ValidPool(r.0.pool)
  {
    var st1 := CreateSequence(st, c.root, c.id).0;
    var cached := if c.key == "" then 0 else PrefixTokenCount(st1, c.key);
    if 0 < cached <= c.prompt then AttachPrefix(st1, c.root, c.key) else (st1, 0)
  }

  lemma PlaceCases(st: Store, c: Request)
    requires ValidPool(st.pool)
    ensures var (st', ok) := Place(st, c);
            var (st2, attached) := Started(st, c);
            if c.root in st.seqs then (st', ok) == (st, false)
            else if !ok then st' == ReleaseRequest(st2, c.id)
            else st' == if c.prompt > attached then ReserveTokens(st2, c.root, c.prompt - attached).0 else st2
    ensures Place(st, c).1 <==>
            var (st2, attached) := Started(st, c);
            c.root !in st.seqs && (c.prompt > attached ==> ReserveTokens(st2, c.root, c.prompt - attached).1)
  {
    hide AttachPrefix, ReleaseRequest, GrowTables, ValidPool, PrefixTokenCount;
  }

  lemma StartedIs(st: Store, c: Request)
    requires CacheRuns.Inv(st) && c.root !in st.seqs
    ensures ValidPool(st.pool)
    ensures var st1 := CreateSequence(st, c.root, c.id).0;
            var (st2, attached) := Started(st, c);
            && CacheRuns.Inv(st1) && CacheRuns.Inv(st2) && st2.byRequest == st1.byRequest
            && ValidPool(st1.pool)
            && (attached == 0 ==> st2 == st1)
            && (attached > 0 ==> CanAttach(st1, c.root, c.key) && (st2, attached) == AttachPrefix(st1, c.root, c.key))
  {
    hide *;
    CacheRuns.InvParts(st);
    CacheRuns.CreateInv(st, c.root, c.id);
    var st1 := CreateSequence(st, c.root, c.id).0;
    CacheRuns.InvParts(st1);
    CacheTheorems.StepAttach(st1, c.root, c.key);
    AttachRefines(st1, c.root, c.key);
    AttachShape(st1, c.root, c.key);
    AttachUnfolds(st1, c.root, c.key);
    StartedCases(st, c);
  }

  lemma StartedCases(st: Store, c: Request)
    requires ValidPool(st.pool)
    ensures var st1 := CreateSequence(st, c.root, c.id).0;
            && ValidPool(st1.pool)
            && (Started(st, c) == (st1, 0) || Started(st, c) == AttachPrefix(st1, c.root, c.key))
  {
    hide AttachPrefix, PrefixTokenCount, ValidPool;
  }

  lemma InIndex(st: Store, request: nat)
    requires CacheRuns.Inv(st)
    ensures SequencesFor(st, request) == [] <==> request !in st.byRequest
    ensures forall sid :: sid in SequencesFor(st, request) ==> sid in st.seqs
  {
    CacheRuns.SequencesForLists(st, request);
  }

  lemma IndexedAfterCreate(st: Store, c: Request)
    requires c.root !in st.seqs
    ensures var st1 := CreateSequence(st, c.root, c.id).0;
            SequencesFor(st1, c.id) == SequencesFor(st, c.id) + [c.root]
  {}

  /**
    A placement that is refused restores the store exactly (tables, counts, free list,
    generations, prefix users, request index) unless the request already had sequences: those
    are released along with the new one.
   */
  lemma RefusedPlacementLeavesNoTrace(st: Store, c: Request)
    requires CacheRuns.Inv(st)
    ensures ValidPool(st.pool)
    ensures !Place(st, c).1 ==>
              (Place(st, c).0 == st <==> c.root in st.seqs || SequencesFor(st, c.id) == [])
  {
    hide *;
    CacheRuns.InvParts(st);
    PlaceCases(st, c);
    if c.root !in st.seqs && !Place(st, c).1 {
      StartedIs(st, c);
      InIndex(st, c.id);
      var (st2, attached) := Started(st, c);
      if SequencesFor(st, c.id) == [] {
        UndoCreate(st, c);
        if attached > 0 {
          UndoAttach(st, c);
        }
      } else {
        IndexedAfterCreate(st, c);
        SameIndexSameList(st2, CreateSequence(st, c.root, c.id).0, c.id);
        CacheTheorems.ReleaseEachRefines(st2, SequencesFor(st2, c.id));
        ReleaseRequestIs(st2, c.id);
        assert SequencesFor(st, c.id)[0] in SequencesFor(st, c.id);
        assert SequencesFor(st2, c.id)[0] == SequencesFor(st, c.id)[0];
      }
    }
  }

  lemma SameIndexSameList(st: Store, st': Store, request: nat)
    requires st.byRequest == st'.byRequest
    ensures SequencesFor(st, request) == SequencesFor(st', request)
  {}

  lemma ReleaseRequestIs(st: Store, request: nat)
    requires ValidPool(st.pool)
    ensures ReleaseRequest(st, request) == ReleaseEach(st, SequencesFor(st, request))
  {}

  /** The checks a candidate can fail before anything is created for it. */
  ghost predicate RefusedEarly(s: Sched, c: Request, plan: Plan) {
    || plan.scheduled >= s.cfg.maxBatch
    || s.held + LifetimeBlocksFor(s.store, c) > TotalFrames(s)
    || c.root in s.store.seqs
  }

  /**
    Main result on refusals: without a watermark, a refused candidate leaves the whole scheduler
    and the whole store as they were, exactly when it failed an early check or its request had
    no sequence before.
   */
  lemma RefusalLeavesNoTrace(s: Sched, c: Request, plan: Plan, admitted: nat)
    requires CacheRuns.Inv(s.store) && s.cfg.watermark == 0
    ensures ValidPool(s.store.pool)
    ensures TryAdmit(s, c, plan, admitted).2.None? ==>
              && TryAdmit(s, c, plan, admitted).1 == plan
              && (TryAdmit(s, c, plan, admitted).0 == s <==> RefusedEarly(s, c, plan) || SequencesFor(s.store, c.id) == [])
  {
    hide Place, LifetimeBlocksFor, ReclaimForAdmission, CacheRuns.Inv, SequencesFor, ValidPool, Started, PrefillChunk;
    CacheRuns.InvParts(s.store);
    RefusedPlacementLeavesNoTrace(s.store, c);
    PlaceCases(s.store, c);
    NoWatermarkNoReclaim(s, c, admitted);
  }

  lemma NoWatermarkNoReclaim(s: Sched, c: Request, admitted: nat)
    requires ValidPool(s.store.pool) && s.cfg.watermark == 0
    ensures ReclaimForAdmission(s, c.prompt, c.maxDecode, admitted) == s
  {}
}
