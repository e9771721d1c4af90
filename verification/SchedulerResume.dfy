/** What resuming does not check, and when it fails: the exact conditions, and short runs that meet them. */
module SchedulerResume {
  import opened Wrappers
  import opened Arithmetic
  import opened FramePool
  import opened PageTable
  import opened CacheStore
  import opened CacheAccounting
  import opened CacheRefinement
  import opened CacheWrites
  import opened CacheSupply
  import opened SchedulerModel
  import opened SchedulerLedger
  import opened SchedulerPlans
  import opened SchedulerRuns
  import opened SchedulerCache
  import opened SchedulerCapacity
  import opened SchedulerShortfalls
  import CacheLifecycle
  import CacheRuns
  import CacheShortfalls
  import CacheTheorems

  /**
    A successful resumption leaves the ledger within the pool, and the active queue within its
    limit, exactly when there was room for the request in each: it looks at neither.
   */
  lemma ResumeWithinLimitsIff(s: Sched, i: nat)
    requires Books(s) && CacheRuns.Inv(s.store) && i < |s.preempted|
    ensures ValidPool(s.store.pool)
    ensures var r := s.preempted[i];
            var (s', ok) := Resume(s, r.id);
            && (ok <==> SlotsNeeded(s.store, SequencesFor(s.store, r.id)) <= |s.store.pool.free|)
            && (ok ==>
                  && (s'.held <= TotalFrames(s') <==> s.held + r.lifetime <= TotalFrames(s))
                  && (|s'.active| <= s'.cfg.maxActive <==> |s.active| < s.cfg.maxActive))
  {
    hide *;
    var r := s.preempted[i];
    CacheRuns.InvParts(s.store);
    StoppedShows(s, i);
    FindIsExact(s.preempted, i);
    ResumeIs(s, r.id, i);
    CacheTheorems.RestoreRequestAllOrNothing(s.store, r.id);
    BooksKeepLayout(s.store, Resume(s, r.id).0.store);
    TotalIs(s);
    TotalIs(Resume(s, r.id).0);
  }

  lemma BooksKeepLayout(st: Store, st': Store)
    ensures CacheTheorems.SameBooks(st, st') ==>
              SameLayout(st.pool, st'.pool) && |st'.pool.infos| == |st.pool.infos|
              && st'.seqs.Keys == st.seqs.Keys && st'.byRequest == st.byRequest && st'.prefixes == st.prefixes
  {}

  // ---- Admitting a candidate that fits ---------------------------------------------------------------

  /** The only candidate, without a prefix key, when ledger, pool and budget have room for it. */
  lemma AdmitsBare(s: Sched)
    requires CacheRuns.Inv(s.store) && s.cfg.watermark == 0 && s.cfg.maxBatch > 0
    requires |s.pending| == 1 && |s.active| < s.cfg.maxActive
    requires s.pending[0].key == "" && s.pending[0].prompt > 0 && s.pending[0].root !in s.store.seqs
    requires s.held + LifetimeBlocksFor(s.store, s.pending[0]) <= TotalFrames(s)
    requires TokensPerBlock(s.store.pool) > 0
    requires CeilDiv(s.pending[0].prompt, TokensPerBlock(s.store.pool)) * TableCount(s.store.pool) <= |s.store.pool.free|
    ensures ValidPool(s.store.pool)
    ensures var c, s' := s.pending[0], ScheduleNext(s).0;
            && s'.pending == [] && s'.cfg == s.cfg && s'.preempted == s.preempted
            && s'.held == s.held + LifetimeBlocksFor(s.store, c)
            && s'.active == s.active + [c.(lifetime := LifetimeBlocksFor(s.store, c), state := Prefill,
                                           remaining := if c.remaining == 0 then c.prompt else c.remaining)]
            && s'.store == ReserveTokens(CreateSequence(s.store, c.root, c.id).0, c.root, c.prompt).0
            && CacheRuns.Inv(s'.store)
  {
    hide *;
    var c := s.pending[0];
    CacheRuns.InvParts(s.store);
    StartedBare(s.store, c);
    PlaceCases(s.store, c);
    CacheRuns.CreateInv(s.store, c.root, c.id);
    CreateKeepsPool(s.store, c);
    var st1 := CreateSequence(s.store, c.root, c.id).0;
    CacheRuns.InvParts(st1);
    CreateIs(s.store, c);
    ReserveRefines(st1, c.root, c.prompt);
    CacheRuns.ReserveInv(st1, c.root, c.prompt);
    PlanIsEmpty();
    AttemptOutcome(s, c, EmptyPlan, 0);
    OneAttempt(s);
    var (s1, _, r) := TryAdmit(s, c, EmptyPlan, 0);
    MoveIs(s1, 0, r.value);
    NothingLeft(s1, r.value);
  }

  /** A new sequence of one block: what it leaves of the pool, and of everyone else's tables. */
  lemma OneMoreBlock(st: Store, sid: nat, request: nat, tokens: nat)
    requires CacheRuns.Inv(st) && sid !in st.seqs && TokensPerBlock(st.pool) > 0
    requires CeilDiv(tokens, TokensPerBlock(st.pool)) * TableCount(st.pool) <= |st.pool.free|
    ensures ValidPool(st.pool)
    ensures var st1 := CreateSequence(st, sid, request).0;
            var (st', ok) := ReserveTokens(st1, sid, tokens);
            && ok && CacheRuns.Inv(st1) && CacheRuns.Inv(st') && SameLayout(st.pool, st'.pool)
            && |st'.pool.free| == |st.pool.free| - CeilDiv(tokens, TokensPerBlock(st.pool)) * TableCount(st.pool)
            && (forall other :: other in st.seqs ==> other in st'.seqs && st'.seqs[other] == st.seqs[other])
            && (forall r :: r != request ==> SequencesFor(st', r) == SequencesFor(st, r))
  {
    hide *;
    CacheRuns.InvParts(st);
    CacheRuns.CreateInv(st, sid, request);
    var st1 := CreateSequence(st, sid, request).0;
    CreatedBeside(st, sid, request);
    CacheRuns.InvParts(st1);
    ReserveRefines(st1, sid, tokens);
    CacheRuns.ReserveInv(st1, sid, tokens);
    CacheRuns.ReserveLayout(st1, sid, tokens);
    ListsAgree(st1, ReserveTokens(st1, sid, tokens).0);
  }

  lemma CreatedBeside(st: Store, sid: nat, request: nat)
    requires sid !in st.seqs
    ensures var st1 := CreateSequence(st, sid, request).0;
            && st1.pool == st.pool && st1.seqs.Keys == st.seqs.Keys + {sid}
            && (forall other :: other in st.seqs ==> st1.seqs[other] == st.seqs[other])
            && (forall r :: r != request ==> SequencesFor(st1, r) == SequencesFor(st, r))
  {}

  lemma ListsAgree(st: Store, st': Store)
    ensures st'.byRequest == st.byRequest ==> forall r :: SequencesFor(st', r) == SequencesFor(st, r)
  {}

  lemma OnlySlots(st: Store, request: nat, sid: nat)
    requires SequencesFor(st, request) == [sid]
    ensures SlotsNeeded(st, SequencesFor(st, request)) == if sid in st.seqs then SlotCountAll(st.seqs[sid].tables) else 0
  {
    assert [sid][1..] == [];
    assert SlotsNeeded(st, []) == 0;
  }

  // ---- Two long requests, one resumed beside the other ---------------------------------------------------

  /** A request for one token of prompt that declares as many as the pool can hold. */
  function Long(p: Pool, id: nat): Request
    requires TokensPerBlock(p) > 0 && WholePool(p) > 0
  {
    Request(id, id, 1, WholePool(p) - 1, "", Pending, 0, 0, 0)
  }

  function WholeLifetime(p: Pool): nat
    requires TokensPerBlock(p) > 0
  {
    CeilDiv(WholePool(p), TokensPerBlock(p)) * TableCount(p)
  }

  lemma LongIs(s: Sched, p: Pool, id: nat)
    requires TokensPerBlock(p) > 0 && WholePool(p) > 0 && s.pending == [] && SameLayout(p, s.store.pool)
    ensures var s1 := Enqueue(s, Long(p, id));
            && |s1.pending| == 1 && s1 == s.(pending := s1.pending)
            && s1.pending[0].id == id && s1.pending[0].root == id && s1.pending[0].key == "" && s1.pending[0].prompt == 1
            && LifetimeBlocksFor(s1.store, s1.pending[0]) == WholeLifetime(p)
            && TokensPerBlock(s.store.pool) == TokensPerBlock(p) && TableCount(s.store.pool) == TableCount(p)
            && TotalFrames(s1) == |p.infos|
  {
    hide WholePool, CeilDiv, TokensPerBlock, TableCount;
    SameShapeNumbers(p, s.store.pool);
  }

  /** The state once a long request has been submitted and scheduled with nothing else on the ledger. */
  lemma LongAdmitted(s: Sched, p: Pool, id: nat)
    requires CacheRuns.Inv(s.store) && s.cfg.watermark == 0 && s.cfg.maxBatch > 0 && s.cfg.maxActive == 1
    requires TokensPerBlock(p) > 0 && TableCount(p) <= |p.infos| && SameLayout(p, s.store.pool)
    requires s.pending == [] && s.active == [] && s.held == 0 && id !in s.store.seqs && TableCount(p) <= |s.store.pool.free|
    ensures ValidPool(s.store.pool) && WholePool(p) > 0
    ensures var s' := ScheduleNext(Enqueue(s, Long(p, id))).0;
            && s'.pending == [] && s'.cfg == s.cfg && s'.preempted == s.preempted && s'.held == WholeLifetime(p)
            && |s'.active| == 1 && s'.active[0].id == id && s'.active[0].lifetime == WholeLifetime(p)
            && s'.store == ReserveTokens(CreateSequence(s.store, id, id).0, id, 1).0 && CacheRuns.Inv(s'.store)
  {
    hide *;
    WholePoolNeeds(p);
    WholeLifetimeIs(p);
    CacheRuns.InvParts(s.store);
    LongIs(s, p, id);
    CacheShortfalls.OneToken(TokensPerBlock(p));
    AdmitsBare(Enqueue(s, Long(p, id)));
  }

  lemma WholeLifetimeIs(p: Pool)
    requires TokensPerBlock(p) > 0
    ensures WholeLifetime(p) == CeilDiv(WholePool(p), TokensPerBlock(p)) * TableCount(p)
  {}

  /** The one active request steps back: its lifetime leaves the ledger, its blocks may leave the pool. */
  lemma OnlyOneStepsBack(s: Sched, id: nat, reason: string)
    requires CacheRuns.Inv(s.store) && |s.active| == 1 && s.active[0].id == id && s.held == s.active[0].lifetime && s.preempted == []
    requires SequencesFor(s.store, id) == [id] && id in s.store.seqs && AllResident(s.store.seqs[id].tables)
    ensures ValidPool(s.store.pool)
    ensures var s' := Preempt(s, id, reason).0;
            && CacheRuns.Inv(s'.store) && SameLayout(s.store.pool, s'.store.pool) && s'.store.seqs.Keys == s.store.seqs.Keys
            && s'.pending == s.pending && s'.cfg == s.cfg && s'.active == [] && s'.held == 0
            && |s'.preempted| == 1 && s'.preempted[0].id == id && s'.preempted[0].lifetime == s.active[0].lifetime
            && SequencesFor(s'.store, id) == [id]
            && |s'.store.pool.free| == |s.store.pool.free| + SlotsNeeded(s'.store, [id])
  {
    hide *;
    CacheRuns.InvParts(s.store);
    FirstFound(s.active, id);
    PreemptIs(s, id, reason, 0);
    DischargeIs(s.held, s.active[0].lifetime);
    CacheTheorems.EvictRequestRefines(s.store, id);
    var s' := Preempt(s, id, reason).0;
    BooksKeepLayout(s.store, s'.store);
    ListsAgree(s.store, s'.store);
    OnlySlots(s.store, id, id);
    NoneSwappedIffResident(s.store.seqs[id].tables);
    RemovedOnly(s.active);
  }

  lemma FirstFound(q: seq<Request>, id: nat)
    requires q != [] && q[0].id == id
    ensures FindRequest(q, id) == Some(0)
  {}

  lemma RemovedOnly(q: seq<Request>)
    requires |q| == 1
    ensures Removed(q, 0) == []
  {}

  /**
    Submit a long request, schedule, preempt it, submit another, schedule, and resume the first:
    two requests are active where one is allowed, and the ledger holds more than the pool.
   */
  lemma ResumeOvercommits(cfg: Config, p: Pool, reason: string, hash: ContentHash)
    requires CacheShortfalls.Unused(p) && TokensPerBlock(p) > 0 && 2 * TableCount(p) <= |p.infos|
    requires cfg.watermark == 0 && cfg.maxActive == 1 && cfg.maxBatch > 0
    ensures ValidPool(p) && WholePool(p) > 0
    ensures var s0 := Sched(cfg, [], [], [], map[], 0, EmptyStore(p));
            var s := Run(s0, [Submit(Long(p, 1)), Schedule, Evict(1, reason), Submit(Long(p, 2))], hash);
            var s' := Step(Step(s, Schedule, hash), Restore(1), hash);
            |s'.active| == 2 > s'.cfg.maxActive && s'.held > TotalFrames(s')
  {
    hide *;
    CacheShortfalls.UnusedIsFree(p);
    WholePoolNeeds(p);
    WholeLifetimeIs(p);
    var s0 := Sched(cfg, [], [], [], map[], 0, EmptyStore(p));
    FreshShape(p);
    LongAdmitted(s0, p, 1);
    CacheShortfalls.OneBlock(p, 1, 1);
    EnqueueKeepsPool(s0, Long(p, 1));
    var s1 := ScheduleNext(Enqueue(s0, Long(p, 1))).0;
    IndexedOnce(s1.store, 1, 1);
    OnlyOneStepsBack(s1, 1, reason);
    var s2 := Preempt(s1, 1, reason).0;
    LayoutChain(p, s1.store.pool, s2.store.pool);
    LongAdmitted(s2, p, 2);
    SecondBeside(s2.store, p);
    EnqueueKeepsPool(s2, Long(p, 2));
    var s3 := ScheduleNext(Enqueue(s2, Long(p, 2))).0;
    RestoresTheFirst(s3);
    RunIsCalls(s0, Long(p, 1), Long(p, 2), reason, hash);
    TotalIs(Resume(s3, 1).0);
    SameShapeNumbers(p, s2.store.pool);
    SameShapeNumbers(s2.store.pool, s3.store.pool);
    SameShapeNumbers(s3.store.pool, Resume(s3, 1).0.store.pool);
  }

  lemma FreshShape(p: Pool)
    ensures SameLayout(p, EmptyStore(p).pool) && EmptyStore(p).seqs == map[]
  {}

  lemma IndexedOnce(st: Store, request: nat, sid: nat)
    requires st.byRequest == map[request := [sid]]
    ensures SequencesFor(st, request) == [sid]
  {}

  lemma LayoutChain(p: Pool, q: Pool, r: Pool)
    requires SameLayout(p, q) && SameLayout(q, r)
    ensures SameLayout(p, r)
  {}

  lemma SecondBeside(st: Store, p: Pool)
    requires CacheRuns.Inv(st) && st.seqs.Keys == {1} && SequencesFor(st, 1) == [1] && SameLayout(p, st.pool)
    requires TokensPerBlock(p) > 0 && TableCount(p) <= |st.pool.free|
    ensures ValidPool(st.pool)
    ensures var st' := ReserveTokens(CreateSequence(st, 2, 2).0, 2, 1).0;
            && SameLayout(st.pool, st'.pool) && SequencesFor(st', 1) == [1]
            && |st'.pool.free| == |st.pool.free| - TableCount(p)
            && SlotsNeeded(st', [1]) == SlotsNeeded(st, [1])
  {
    hide *;
    SameShapeNumbers(p, st.pool);
    CacheShortfalls.OneToken(TokensPerBlock(p));
    OneMoreBlock(st, 2, 2, 1);
    CreatedBeside(st, 2, 2);
    CacheRuns.InvParts(st);
    OnlySlots(st, 1, 1);
    OnlySlots(ReserveTokens(CreateSequence(st, 2, 2).0, 2, 1).0, 1, 1);
  }

  lemma RestoresTheFirst(s: Sched)
    requires CacheRuns.Inv(s.store) && |s.preempted| == 1 && s.preempted[0].id == 1
    requires SlotsNeeded(s.store, SequencesFor(s.store, 1)) <= |s.store.pool.free|
    ensures ValidPool(s.store.pool)
    ensures var s' := Resume(s, 1).0;
            && |s'.active| == |s.active| + 1 && s'.held == s.held + s.preempted[0].lifetime && s'.cfg == s.cfg
            && SameLayout(s.store.pool, s'.store.pool)
  {
    hide *;
    CacheRuns.InvParts(s.store);
    FirstFound(s.preempted, 1);
    ResumeIs(s, 1, 0);
    CacheTheorems.RestoreRequestAllOrNothing(s.store, 1);
    BooksKeepLayout(s.store, Resume(s, 1).0.store);
  }

  lemma RunIsCalls(s: Sched, a: Request, b: Request, reason: string, hash: ContentHash)
    requires ValidPool(s.store.pool)
    ensures var s1 := ScheduleNext(Enqueue(s, a)).0;
            var s2 := Preempt(s1, 1, reason).0;
            && Run(s, [Submit(a), Schedule, Evict(1, reason), Submit(b)], hash) == Enqueue(s2, b)
            && Step(Enqueue(s2, b), Schedule, hash) == ScheduleNext(Enqueue(s2, b)).0
            && Step(ScheduleNext(Enqueue(s2, b)).0, Restore(1), hash) == Resume(ScheduleNext(Enqueue(s2, b)).0, 1).0
  {
    hide *;
    RunOfFour(s, Submit(a), Schedule, Evict(1, reason), Submit(b), hash);
    SubmitAndSchedule(s, a, hash);
    var s1 := ScheduleNext(Enqueue(s, a)).0;
    StepsAre(s1, a, 1, reason, hash);
    var s2 := Preempt(s1, 1, reason).0;
    PreemptedPool(s1, 1, reason);
    SubmitAndSchedule(s2, b, hash);
    RestoreStepIs(ScheduleNext(Enqueue(s2, b)).0, 1, hash);
  }

  lemma EnqueueKeepsPool(s: Sched, r: Request)
    ensures Enqueue(s, r).store == s.store
  {}

  lemma RestoreStepIs(s: Sched, id: nat, hash: ContentHash)
    requires ValidPool(s.store.pool)
    ensures Step(s, Restore(id), hash) == Resume(s, id).0
  {
    hide Resume, ValidPool;
  }

  // ---- A request in swap that no longer fits -----------------------------------------------------------------

  lemma {:induction false} EachAlone(rows: seq<seq<Place>>)
    requires forall l :: 0 <= l < |rows| ==> rows[l] == [Alone]
    ensures CountInAll(rows, Alone) == |rows|
  {
    if rows != [] {
      EachAlone(rows[1..]);
      assert [Alone][1..] == [];
      assert CountIn([], Alone) == 0;
      assert CountIn([Alone], Alone) == 1;
    }
  }

  lemma NobodyElse(st: Store, sid: nat)
    requires st.seqs.Keys == {sid} && st.prefixes == map[]
    ensures Rest(st, sid) == multiset{}
  {
    assert SequenceHolds(st.seqs) - {sid} == map[];
    assert PrefixHolds(st.prefixes) == map[];
  }

  lemma AloneHere(st: Store, sid: nat, l: nat, i: nat)
    requires MemoryInv(st) && st.seqs.Keys == {sid} && st.prefixes == map[]
    requires l < |st.seqs[sid].tables| && i < |st.seqs[sid].tables[l]| && st.seqs[sid].tables[l][i].slot.None?
    ensures PlaceOf(st.pool, st.seqs[sid].tables[l][i]) == Alone
  {
    hide MemoryInv, Count, Rest, Own;
    EntryIsCounted(st, sid, l, i);
    HeldSplits(st, sid);
    NobodyElse(st, sid);
    MemoryAccounts(st);
    var r := Where(st.seqs[sid].tables[l][i]);
    assert Held(st)[r] == Count(st.pool, r);
    hide Held, Accounted;
  }

  lemma LonelyRow(st: Store, sid: nat, l: nat)
    requires MemoryInv(st) && st.seqs.Keys == {sid} && st.prefixes == map[] && AllResident(st.seqs[sid].tables)
    requires l < |st.seqs[sid].tables| && |st.seqs[sid].tables[l]| == 1
    ensures RowOf(st.pool, st.seqs[sid].tables[l]) == [Alone]
  {
    hide MemoryInv, PlaceOf;
    AloneHere(st, sid, l, 0);
  }

  lemma AloneRows(p: Pool, tables: seq<Table>)
    requires forall l :: 0 <= l < |tables| ==> RowOf(p, tables[l]) == [Alone]
    ensures CountInAll(PlacesOf(p, tables), Alone) == |tables|
  {
    hide RowOf, CountInAll;
    EachAlone(PlacesOf(p, tables));
  }

  lemma TableSizes(st: Store, sid: nat)
    requires MemoryInv(st) && sid in st.seqs
    ensures var tables := st.seqs[sid].tables; |tables| == TableCount(st.pool) && forall l :: 0 <= l < |tables| ==> |tables[l]| == |tables[0]|
  {}

  /** The only sequence, one resident block per table: every block is its own. */
  lemma LonelyCount(st: Store, sid: nat)
    requires MemoryInv(st) && st.seqs.Keys == {sid} && st.prefixes == map[]
    requires st.seqs[sid].tables != [] && |st.seqs[sid].tables[0]| == 1 && AllResident(st.seqs[sid].tables)
    ensures CountOf(SupplyOf(st), sid, Alone) == TableCount(st.pool)
  {
    hide *;
    CountOfIs(st, sid, Alone);
    TableSizes(st, sid);
    forall l | 0 <= l < |st.seqs[sid].tables|
      ensures RowOf(st.pool, st.seqs[sid].tables[l]) == [Alone]
    {
      LonelyRow(st, sid, l);
    }
    AloneRows(st.pool, st.seqs[sid].tables);
  }

  /** Evicting it empties the pool into swap, when the backend has the room. */
  lemma LonelyEvicted(st: Store, sid: nat)
    requires CacheRuns.Inv(st) && st.seqs.Keys == {sid} && st.prefixes == map[] && SequencesFor(st, sid) == [sid]
    requires st.seqs[sid].tables != [] && |st.seqs[sid].tables[0]| == 1 && AllResident(st.seqs[sid].tables)
    requires TableCount(st.pool) <= Room(st.pool)
    ensures ValidPool(st.pool)
    ensures var st' := SwapOutSequence(st, sid).0;
            && CacheRuns.Inv(st') && SameLayout(st.pool, st'.pool) && st'.seqs.Keys == {sid} && SequencesFor(st', sid) == [sid]
            && |st'.pool.free| == |st.pool.free| + TableCount(st.pool) && SlotsNeeded(st', [sid]) == TableCount(st.pool)
  {
    hide *;
    CacheRuns.InvParts(st);
    CacheRuns.EvictInv(st, sid);
    CacheLifecycle.SwapOutRefines(st, sid);
    SequenceEvictions(st, sid);
    LonelyCount(st, sid);
    var (st', n) := SwapOutSequence(st, sid);
    EvictsShows(st, TableCount(st.pool), n, st');
    MinIs(TableCount(st.pool), Room(st.pool));
    NoneSwappedIffResident(st.seqs[sid].tables);
    ListsAgree(st, st');
    OnlySlots(st', sid, sid);
  }

  /** What the shared pool looks like with one evicted sequence and a newcomer that took the rest. */
  lemma NewcomerTakesAll(st: Store, p: Pool)
    requires CacheRuns.Inv(st) && st.seqs.Keys == {1} && SequencesFor(st, 1) == [1] && SameLayout(p, st.pool)
    requires TokensPerBlock(p) > 0 && TableCount(p) <= |p.infos| == |st.pool.free| && SlotsNeeded(st, [1]) == TableCount(p)
    ensures ValidPool(st.pool)
    ensures var st1 := CreateSequence(st, 7, 7).0;
            var st' := ReserveTokens(st1, 7, WholePool(p)).0;
            && CacheRuns.Inv(st1) && CacheRuns.Inv(st') && SequencesFor(st', 1) == [1]
            && SlotsNeeded(st', [1]) > |st'.pool.free|
  {
    hide *;
    SameShapeNumbers(p, st.pool);
    WholePoolNeeds(p);
    OneMoreBlock(st, 7, 7, WholePool(p));
    CreatedBeside(st, 7, 7);
    CacheRuns.InvParts(st);
    OnlySlots(st, 1, 1);
    OnlySlots(ReserveTokens(CreateSequence(st, 7, 7).0, 7, WholePool(p)).0, 1, 1);
  }

  /** A small request submitted and scheduled on an unused pool. */
  lemma SmallAdmitted(cfg: Config, p: Pool, id: nat)
    requires CacheShortfalls.Unused(p) && TokensPerBlock(p) > 0 && TableCount(p) <= |p.infos|
    requires cfg.watermark == 0 && cfg.maxActive > 0 && cfg.maxBatch > 0
    ensures ValidPool(p)
    ensures var s0 := Sched(cfg, [], [], [], map[], 0, EmptyStore(p));
            var s' := ScheduleNext(Enqueue(s0, Small(id))).0;
            && Books(s') && |s'.active| == 1 && s'.active[0].id == id && s'.preempted == []
            && s'.store == ReserveTokens(CreateSequence(EmptyStore(p), id, id).0, id, 1).0
  {
    hide *;
    CacheShortfalls.UnusedIsFree(p);
    FreshIsWithinCapacity(cfg, p);
    var s0 := Sched(cfg, [], [], [], map[], 0, EmptyStore(p));
    TotalIs(s0);
    FreshShape(p);
    SubmitAndAdmit(s0, id);
    SmallIs(s0, id);
    var s1 := Enqueue(s0, Small(id));
    CacheShortfalls.OneToken(TokensPerBlock(p));
    SmallLifetime(s1.store, s1.pending[0]);
    TotalIs(s1);
    AdmitsBare(s1);
    CapacityShows(ScheduleNext(s1).0);
  }

  /**
    A client evicts an admitted request's sequence and hands the frames to another one.  Preempting
    the request and resuming it at once then fails: it stays preempted.
   */
  lemma ResumeFailsAfterPreempt(cfg: Config, p: Pool, reason: string, hash: ContentHash)
    requires CacheShortfalls.Unused(p) && TokensPerBlock(p) > 0 && TableCount(p) <= |p.infos| && TableCount(p) <= Room(p)
    requires cfg.watermark == 0 && cfg.maxActive > 0 && cfg.maxBatch > 0
    ensures ValidPool(p)
    ensures var s0 := Sched(cfg, [], [], [], map[], 0, EmptyStore(p));
            var s1 := Run(s0, [Submit(Small(1)), Schedule, Client(CacheRuns.Evict(1)), Client(CacheRuns.Create(7, 7))], hash);
            var s := Step(s1, Client(CacheRuns.Reserve(7, WholePool(p))), hash);
            var s' := Step(Step(s, Evict(1, reason), hash), Restore(1), hash);
            IdsOf(s.active) == [1] && s'.active == [] && IdsOf(s'.preempted) == [1]
  {
    hide *;
    CacheShortfalls.UnusedIsFree(p);
    SmallAdmitted(cfg, p, 1);
    CacheShortfalls.OneBlock(p, 1, 1);
    var s0 := Sched(cfg, [], [], [], map[], 0, EmptyStore(p));
    EnqueueKeepsPool(s0, Small(1));
    var s1 := ScheduleNext(Enqueue(s0, Small(1))).0;
    IndexedOnce(s1.store, 1, 1);
    SameShapeNumbers(p, s1.store.pool);
    RoomIsSwap(p, s1.store.pool);
    LonelyEvicted(s1.store, 1);
    var st2 := SwapOutSequence(s1.store, 1).0;
    LayoutChain(p, s1.store.pool, st2.pool);
    NewcomerTakesAll(st2, p);
    CreatedBeside(st2, 7, 7);
    var st3 := CreateSequence(st2, 7, 7).0;
    CacheRuns.InvParts(st3);
    var st4 := ReserveTokens(st3, 7, WholePool(p)).0;
    CacheRuns.InvParts(st4);
    ClientCallsAre(s0, s1, p, hash);
    BooksOnStore(s1, st4);
    FailsToResume(s1.(store := st4), reason, hash);
  }

  lemma RoomIsSwap(p: Pool, q: Pool)
    requires q.swap == p.swap
    ensures Room(q) == Room(p)
  {}

  lemma ClientCallsAre(s0: Sched, s1: Sched, p: Pool, hash: ContentHash)
    requires ValidPool(s0.store.pool) && TokensPerBlock(p) > 0 && s1 == ScheduleNext(Enqueue(s0, Small(1))).0
    ensures ValidPool(s1.store.pool)
    ensures var s := Run(s0, [Submit(Small(1)), Schedule, Client(CacheRuns.Evict(1)), Client(CacheRuns.Create(7, 7))], hash);
            var st3 := CreateSequence(SwapOutSequence(s1.store, 1).0, 7, 7).0;
            && ValidPool(st3.pool) && s == s1.(store := st3)
            && Step(s, Client(CacheRuns.Reserve(7, WholePool(p))), hash) == s1.(store := ReserveTokens(st3, 7, WholePool(p)).0)
  {
    hide *;
    SubmitAndSchedule(s0, Small(1), hash);
    RunOfFour(s0, Submit(Small(1)), Schedule, Client(CacheRuns.Evict(1)), Client(CacheRuns.Create(7, 7)), hash);
    ClientEvicts(s1, 1, hash);
    var st2 := SwapOutSequence(s1.store, 1).0;
    EvictedPool(s1.store, 1);
    ClientCreates(s1.(store := st2), 7, 7, hash);
    ClientReserves(s1.(store := CreateSequence(st2, 7, 7).0), 7, WholePool(p), hash);
  }

  lemma SubmitAndSchedule(s: Sched, r: Request, hash: ContentHash)
    requires ValidPool(s.store.pool)
    ensures Step(s, Submit(r), hash) == Enqueue(s, r) && ValidPool(Enqueue(s, r).store.pool)
    ensures Step(Enqueue(s, r), Schedule, hash) == ScheduleNext(Enqueue(s, r)).0
    ensures ValidPool(ScheduleNext(Enqueue(s, r)).0.store.pool)
  {
    hide *;
    EnqueueKeepsPool(s, r);
    StepsAre(s, r, 1, "", hash);
    StepsAre(Enqueue(s, r), r, 1, "", hash);
    ScheduledPool(Enqueue(s, r));
  }

  lemma ClientEvicts(s: Sched, sid: nat, hash: ContentHash)
    requires ValidPool(s.store.pool)
    ensures Step(s, Client(CacheRuns.Evict(sid)), hash) == s.(store := SwapOutSequence(s.store, sid).0)
  {
    hide *;
    ClientStepIs(s, CacheRuns.Evict(sid), hash);
    CacheTheorems.StepIs(s.store, CacheRuns.Evict(sid), hash);
  }

  lemma ClientCreates(s: Sched, sid: nat, request: nat, hash: ContentHash)
    requires ValidPool(s.store.pool)
    ensures Step(s, Client(CacheRuns.Create(sid, request)), hash) == s.(store := CreateSequence(s.store, sid, request).0)
    ensures ValidPool(CreateSequence(s.store, sid, request).0.pool)
  {
    hide *;
    ClientStepIs(s, CacheRuns.Create(sid, request), hash);
    CacheTheorems.StepIs(s.store, CacheRuns.Create(sid, request), hash);
    CacheTheorems.FlagIs(CreateSequence(s.store, sid, request));
    CreatedPool(s.store, sid, request);
  }

  lemma CreatedPool(st: Store, sid: nat, request: nat)
    ensures CreateSequence(st, sid, request).0.pool == st.pool
  {}

  lemma ClientReserves(s: Sched, sid: nat, tokens: nat, hash: ContentHash)
    requires ValidPool(s.store.pool)
    ensures Step(s, Client(CacheRuns.Reserve(sid, tokens)), hash) == s.(store := ReserveTokens(s.store, sid, tokens).0)
  {
    hide *;
    ClientStepIs(s, CacheRuns.Reserve(sid, tokens), hash);
    CacheTheorems.StepIs(s.store, CacheRuns.Reserve(sid, tokens), hash);
    CacheTheorems.FlagIs(ReserveTokens(s.store, sid, tokens));
  }

  lemma ScheduledPool(s: Sched)
    requires ValidPool(s.store.pool)
    ensures ValidPool(ScheduleNext(s).0.store.pool)
  {}

  lemma EvictedPool(st: Store, sid: nat)
    requires ValidPool(st.pool)
    ensures ValidPool(SwapOutSequence(st, sid).0.pool)
  {}

  /** By the exact condition of the round trip. */
  lemma FailsToResume(s: Sched, reason: string, hash: ContentHash)
    requires Books(s) && CacheRuns.Inv(s.store) && |s.active| == 1 && s.active[0].id == 1 && s.preempted == []
    requires SlotsNeeded(s.store, SequencesFor(s.store, 1)) > |s.store.pool.free|
    ensures ValidPool(s.store.pool)
    ensures var s' := Step(Step(s, Evict(1, reason), hash), Restore(1), hash);
            IdsOf(s.active) == [1] && s'.active == [] && IdsOf(s'.preempted) == [1]
  {
    hide *;
    CacheRuns.InvParts(s.store);
    StepsAre(s, Small(1), 1, reason, hash);
    PreemptThenResume(s, 0, reason);
    FirstFound(s.active, 1);
    PreemptIs(s, 1, reason, 0);
    RemovedOnly(s.active);
    var s1 := Preempt(s, 1, reason).0;
    PreemptedPool(s, 1, reason);
    RestoreStepIs(s1, 1, hash);
    FirstFound(s1.preempted, 1);
    ResumeIs(s1, 1, 0);
    OnlyId(s.active, 1);
    OnlyId(s1.preempted, 1);
  }

  lemma PreemptedPool(s: Sched, id: nat, reason: string)
    requires ValidPool(s.store.pool)
    ensures ValidPool(Preempt(s, id, reason).0.store.pool)
  {}

  lemma OnlyId(q: seq<Request>, id: nat)
    requires |q| == 1 && q[0].id == id
    ensures IdsOf(q) == [id]
  {}
}
