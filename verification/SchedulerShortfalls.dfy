/** What the scheduler does not keep, at states that short runs reach. */
module SchedulerShortfalls {
  import opened Wrappers
  import opened Arithmetic
  import opened FramePool
  import opened CacheStore
  import opened CacheRefinement
  import opened SchedulerModel
  import opened SchedulerLedger
  import opened SchedulerPlans
  import opened SchedulerRuns
  import opened SchedulerCache
  import opened SchedulerCapacity
  import SchedulerNoStall
  import CacheRuns
  import CacheShortfalls
  import CacheTheorems

  // ---- Preempt, then cancel --------------------------------------------------------------------------

  /**
    Cancelling a request right after it was preempted keeps the books exactly when it held nothing
    or less was left on the ledger than it held.
   */
  lemma PreemptThenCancelIff(s: Sched, i: nat, reason: string)
    requires Books(s) && i < |s.active|
    ensures ValidPool(s.store.pool)
    ensures var id, lifetime := s.active[i].id, s.active[i].lifetime;
            var s1 := Preempt(s, id, reason).0;
            Books(s1) && (Books(Cancel(s1, id)) <==> lifetime == 0 || s.held < 2 * lifetime)
  {
    hide *;
    var r := s.active[i];
    BooksShow(s, r.id);
    FindIsExact(s.active, i);
    PreemptIs(s, r.id, reason, i);
    PreemptKeepsBooks(s, r.id, reason);
    var s1 := Preempt(s, r.id, reason).0;
    var last := |s.preempted|;
    StoppedShows(s1, last);
    FindIsExact(s1.preempted, last);
    BooksParts(s);
    LifetimeWithin(s.active, i);
    DischargeIs(s.held, r.lifetime);
    CancelKeepsBooksIff(s1, r.id);
  }

  // ---- Reaching an admission -----------------------------------------------------------------------------

  /** With one candidate waiting, a scheduling call is one admission attempt. */
  lemma OneAttempt(s: Sched)
    requires ValidPool(s.store.pool) && |s.pending| == 1 && |s.active| < s.cfg.maxActive
    ensures var (s1, _, r) := TryAdmit(s, s.pending[0], EmptyPlan, 0);
            s1.pending == s.pending && ScheduleNext(s).0 == if r.Some? then MoveToActive(s1, 0, r.value) else s1
  {
    hide TryAdmit, ValidPool, PlanPrefill, PlanDecode;
    var (s1, plan1, r) := TryAdmit(s, s.pending[0], EmptyPlan, 0);
    if r.Some? {
      var s2 := MoveToActive(s1, 0, r.value);
      assert s2.pending == [];
      assert AdmitLoop(s2, plan1) == (s2, plan1, []);
    } else {
      assert Scan(s1, plan1, 1) == (s1, plan1, None);
    }
  }

  /** Within capacity, a candidate the ledger has room for joins the active queue. */
  lemma AdmitsTheOne(s: Sched)
    requires Capacity(s) && |s.pending| == 1 && |s.active| < s.cfg.maxActive && s.cfg.maxBatch > 0
    requires s.held + LifetimeBlocksFor(s.store, s.pending[0]) <= TotalFrames(s) && s.pending[0].root !in s.store.seqs
    ensures ValidPool(s.store.pool)
    ensures var c, s' := s.pending[0], ScheduleNext(s).0;
            && Capacity(s') && s'.pending == [] && s'.cfg == s.cfg && |s'.active| == |s.active| + 1
            && s'.active[..|s.active|] == s.active
            && s'.active[|s.active|].id == c.id && s'.active[|s.active|].lifetime == LifetimeBlocksFor(s.store, c)
            && s'.held == s.held + LifetimeBlocksFor(s.store, c)
            && s'.store.seqs.Keys == s.store.seqs.Keys + {c.root}
            && SameLayout(s.store.pool, s'.store.pool)
  {
    hide *;
    var c := s.pending[0];
    CapacityShows(s);
    CapacityWaiting(s, 0);
    OneAttempt(s);
    PlanIsEmpty();
    AdmissionIsExact(s, 0, EmptyPlan, 0);
    AttemptOutcome(s, c, EmptyPlan, 0);
    PlacementFits(s, c);
    var (s1, _, r) := TryAdmit(s, c, EmptyPlan, 0);
    MoveIs(s1, 0, r.value);
    NothingLeft(s1, r.value);
    KeysAfterPut(s.store.seqs, c.root, s1.store.seqs[c.root]);
  }

  lemma PlanIsEmpty()
    ensures EmptyPlan.scheduled == 0
  {}

  lemma NothingLeft(s: Sched, c: Request)
    requires |s.pending| == 1
    ensures MoveToActive(s, 0, c).pending == []
  {}

  lemma KeysAfterPut(m: map<nat, Sequence>, k: nat, v: Sequence)
    ensures m[k := v].Keys == m.Keys + {k}
  {}

  // ---- Two requests, one preempted and cancelled ----------------------------------------------------------

  /** A request for one token of prompt, whose root sequence carries its own id. */
  function Small(id: nat): Request {
    Request(id, id, 1, 0, "", Pending, 0, 0, 0)
  }

  lemma SmallLifetime(st: Store, r: Request)
    requires TokensPerBlock(st.pool) > 0 && r.prompt == 1 && r.maxDecode == 0 && r.key == ""
    ensures LifetimeBlocksFor(st, r) == TableCount(st.pool)
  {
    CacheShortfalls.OneToken(TokensPerBlock(st.pool));
  }

  /** Submits a small request to a scheduler within capacity, and schedules. */
  lemma SubmitAndAdmit(s: Sched, id: nat)
    requires Capacity(s) && s.pending == [] && |s.active| < s.cfg.maxActive && s.cfg.maxBatch > 0
    requires id !in TrackedIds(s) && id !in s.store.seqs && s.held + TableCount(s.store.pool) <= TotalFrames(s)
    ensures ValidPool(s.store.pool)
    ensures var s' := ScheduleNext(Enqueue(s, Small(id))).0;
            && Capacity(s') && s'.pending == [] && s'.cfg == s.cfg && |s'.active| == |s.active| + 1
            && s'.active[..|s.active|] == s.active
            && s'.active[|s.active|].id == id && s'.active[|s.active|].lifetime == TableCount(s.store.pool)
            && s'.held == s.held + TableCount(s.store.pool)
            && s'.store.seqs.Keys == s.store.seqs.Keys + {id}
            && SameLayout(s.store.pool, s'.store.pool)
  {
    hide *;
    CapacityShows(s);
    SmallIs(s, id);
    SchedulerNoStall.SubmitCapacity(s, Small(id));
    var s1 := Enqueue(s, Small(id));
    SmallLifetime(s1.store, s1.pending[0]);
    TotalIs(s);
    TotalIs(s1);
    AdmitsTheOne(s1);
  }

  lemma SmallIs(s: Sched, id: nat)
    requires s.pending == []
    ensures Small(id).key == "" && Small(id).id == id
    ensures var s1 := Enqueue(s, Small(id));
            && |s1.pending| == 1 && s1.store == s.store && s1.active == s.active && s1.held == s.held && s1.cfg == s.cfg
            && s1.pending[0].id == id && s1.pending[0].root == id && s1.pending[0].key == ""
            && s1.pending[0].prompt == 1 && s1.pending[0].maxDecode == 0
  {}

  lemma TotalIs(s: Sched)
    ensures TotalFrames(s) == |s.store.pool.infos|
  {}

  lemma RunOfFour(s: Sched, a: Call, b: Call, c: Call, d: Call, hash: ContentHash)
    requires ValidPool(s.store.pool)
    ensures Run(s, [a, b, c, d], hash) == Step(Step(Step(Step(s, a, hash), b, hash), c, hash), d, hash)
  {
    hide Step, ValidPool;
    var s1 := Step(s, a, hash);
    var s2 := Step(s1, b, hash);
    var s3 := Step(s2, c, hash);
    assert [a, b, c, d][1..] == [b, c, d] && [b, c, d][1..] == [c, d] && [c, d][1..] == [d] && [d][1..] == [];
    assert Run(s3, [d], hash) == Run(Step(s3, d, hash), [], hash);
    assert Run(s2, [c, d], hash) == Run(s3, [d], hash);
    assert Run(s1, [b, c, d], hash) == Run(s2, [c, d], hash);
  }

  lemma StepsAre(s: Sched, r: Request, id: nat, reason: string, hash: ContentHash)
    requires ValidPool(s.store.pool)
    ensures Step(s, Submit(r), hash) == Enqueue(s, r) && Step(s, Schedule, hash) == ScheduleNext(s).0
    ensures Step(s, Evict(id, reason), hash) == Preempt(s, id, reason).0 && Step(s, Abort(id), hash) == Cancel(s, id)
  {
    hide Enqueue, ScheduleNext, Preempt, Cancel, ValidPool;
  }

  lemma FreshIsWithinCapacity(cfg: Config, p: Pool)
    requires CacheShortfalls.Unused(p) && TokensPerBlock(p) > 0 && cfg.watermark == 0
    ensures var s := Sched(cfg, [], [], [], map[], 0, EmptyStore(p));
            && Capacity(s) && TrackedIds(s) == multiset{} && s.store.seqs == map[] && s.store.pool == p
  {
    hide CacheRuns.Inv, Capacity, Books, TrackedIds;
    CacheShortfalls.UnusedIsFree(p);
    CacheRuns.InvParts(EmptyStore(p));
    FreshBooks(cfg, EmptyStore(p));
    SchedulerNoStall.FreshCapacity(cfg, EmptyStore(p));
  }

  lemma OnlyTracked(s: Sched, id: nat, other: nat)
    requires Capacity(s) && s.pending == [] && |s.active| == 1 && s.active[0].id == id && other != id
    ensures other !in TrackedIds(s)
  {
    hide Books, Capacity, CacheRuns.Inv;
    CapacityShows(s);
    assert IdsOf(s.active) == [id] && IdsOf(s.pending) == [] && IdsOf(s.preempted) == [];
  }

  /**
    Submit two small requests, schedule each, preempt the first and cancel it: the ledger then
    holds less than the request still active.
   */
  lemma DoubleSubtractionIsReachable(cfg: Config, p: Pool, reason: string, hash: ContentHash)
    requires CacheShortfalls.Unused(p) && TokensPerBlock(p) > 0 && 2 * TableCount(p) <= |p.infos|
    requires cfg.watermark == 0 && cfg.maxActive >= 2 && cfg.maxBatch > 0
    ensures ValidPool(p)
    ensures var s0 := Sched(cfg, [], [], [], map[], 0, EmptyStore(p));
            var s := Run(s0, [Submit(Small(1)), Schedule, Submit(Small(2)), Schedule], hash);
            && Books(s) && !Books(Step(Step(s, Evict(1, reason), hash), Abort(1), hash))
  {
    hide *;
    CacheShortfalls.UnusedIsFree(p);
    FreshIsWithinCapacity(cfg, p);
    var s0 := Sched(cfg, [], [], [], map[], 0, EmptyStore(p));
    TotalIs(s0);
    SubmitAndAdmit(s0, 1);
    StepsAre(s0, Small(1), 1, reason, hash);
    SmallIs(s0, 1);
    StepsAre(Enqueue(s0, Small(1)), Small(1), 1, reason, hash);
    var s1 := ScheduleNext(Enqueue(s0, Small(1))).0;
    OnlyTracked(s1, 1, 2);
    CapacityShows(s1);
    SameShapeNumbers(p, s1.store.pool);
    TotalIs(s1);
    SubmitAndAdmit(s1, 2);
    StepsAre(s1, Small(2), 1, reason, hash);
    SmallIs(s1, 2);
    StepsAre(Enqueue(s1, Small(2)), Small(2), 1, reason, hash);
    var s2 := ScheduleNext(Enqueue(s1, Small(2))).0;
    RunOfFour(s0, Submit(Small(1)), Schedule, Submit(Small(2)), Schedule, hash);
    CapacityShows(s2);
    assert s2.active[0] == s2.active[..1][0];
    StepsAre(s2, Small(1), 1, reason, hash);
    PreemptThenCancelIff(s2, 0, reason);
    var s3 := Preempt(s2, 1, reason).0;
    BooksParts(s3);
    StepsAre(s3, Small(1), 1, reason, hash);
    TablesPositive(p);
  }

  lemma TablesPositive(p: Pool)
    ensures TableCount(p) > 0
  {}

  // ---- A refusal that releases an earlier sequence ------------------------------------------------------------

  /** As many tokens as the pool can ever hold. */
  function WholePool(p: Pool): nat
    requires TokensPerBlock(p) > 0
  {
    |p.infos| / TableCount(p) * TokensPerBlock(p)
  }

  lemma WholePoolNeeds(p: Pool)
    requires TokensPerBlock(p) > 0 && TableCount(p) <= |p.infos|
    ensures WholePool(p) > 0
    ensures |p.infos| - TableCount(p) < CeilDiv(WholePool(p), TokensPerBlock(p)) * TableCount(p) <= |p.infos|
  {
    var tpb, tables, total := TokensPerBlock(p), TableCount(p), |p.infos|;
    var n := total / tables;
    assert total == n * tables + total % tables;
    WholeBlocks(n, tpb);
    MulMonotone(1, n, tpb);
  }

  /** A request for the whole pool. */
  function Greedy(p: Pool): Request
    requires TokensPerBlock(p) > 0
  {
    Request(1, 1, WholePool(p), 0, "", Pending, 0, 0, 0)
  }

  lemma GreedyIs(s: Sched, p: Pool)
    requires TokensPerBlock(p) > 0 && s.pending == []
    ensures var s1, c := Enqueue(s, Greedy(p)), Enqueue(s, Greedy(p)).pending[0];
            && |s1.pending| == 1 && s1 == s.(pending := [c])
            && c.id == 1 && c.root == 1 && c.prompt == WholePool(p) && c.maxDecode == 0 && c.key == ""
    ensures TokensPerBlock(s.store.pool) == TokensPerBlock(p) && TableCount(s.store.pool) == TableCount(p) ==>
              LifetimeBlocksFor(s.store, Enqueue(s, Greedy(p)).pending[0]) == CeilDiv(WholePool(p), TokensPerBlock(p)) * TableCount(p)
  {
    hide WholePool, CeilDiv, TokensPerBlock, TableCount;
  }

  /** The placement of a request that cannot reserve releases all of its sequences. */
  lemma RefusedPlacementReleases(st: Store, c: Request, sid: nat)
    requires CacheRuns.Inv(st) && c.key == "" && c.root !in st.seqs && c.prompt > 0 && TokensPerBlock(st.pool) > 0
    requires CeilDiv(c.prompt, TokensPerBlock(st.pool)) * TableCount(st.pool) > |st.pool.free| && sid in SequencesFor(st, c.id)
    ensures ValidPool(st.pool) && !Place(st, c).1 && sid !in Place(st, c).0.seqs
  {
    hide *;
    CacheRuns.InvParts(st);
    StartedBare(st, c);
    PlaceCases(st, c);
    CacheRuns.CreateInv(st, c.root, c.id);
    var st1 := CreateSequence(st, c.root, c.id).0;
    CacheRuns.InvParts(st1);
    CreateKeepsPool(st, c);
    ReserveRefines(st1, c.root, c.prompt);
    IndexedAfterCreate(st, c);
    ReleaseRequestIs(st1, c.id);
    CacheTheorems.ReleaseEachRefines(st1, SequencesFor(st1, c.id));
  }

  lemma CreateKeepsPool(st: Store, c: Request)
    ensures CreateSequence(st, c.root, c.id).0.pool == st.pool
  {}

  /** One scheduling call on such a candidate. */
  lemma RefusedScheduleReleases(s: Sched, sid: nat)
    requires CacheRuns.Inv(s.store) && s.cfg.watermark == 0 && s.cfg.maxBatch > 0 && |s.active| < s.cfg.maxActive
    requires |s.pending| == 1 && s.pending[0].key == "" && s.pending[0].prompt > 0 && s.pending[0].root !in s.store.seqs
    requires TokensPerBlock(s.store.pool) > 0 && s.held + LifetimeBlocksFor(s.store, s.pending[0]) <= TotalFrames(s)
    requires CeilDiv(s.pending[0].prompt, TokensPerBlock(s.store.pool)) * TableCount(s.store.pool) > |s.store.pool.free|
    requires sid in SequencesFor(s.store, s.pending[0].id)
    ensures ValidPool(s.store.pool)
    ensures var s' := ScheduleNext(s).0;
            s'.active == s.active && sid !in s'.store.seqs
  {
    hide *;
    CacheRuns.InvParts(s.store);
    var c := s.pending[0];
    RefusedPlacementReleases(s.store, c, sid);
    OneAttempt(s);
    AttemptOutcome(s, c, EmptyPlan, 0);
    RefusalLeavesNoTrace(s, c, EmptyPlan, 0);
    NotRefusedEarly(s, c);
    TryAdmitCases(s, c, EmptyPlan, 0);
    NoWatermarkNoReclaim(s, c, 0);
    SomethingListed(s.store, c.id, sid);
  }

  lemma SomethingListed(st: Store, request: nat, sid: nat)
    requires sid in SequencesFor(st, request)
    ensures SequencesFor(st, request) != []
  {}

  lemma NotRefusedEarly(s: Sched, c: Request)
    requires s.cfg.maxBatch > 0 && s.held + LifetimeBlocksFor(s.store, c) <= TotalFrames(s) && c.root !in s.store.seqs
    ensures !RefusedEarly(s, c, EmptyPlan)
  {
    hide LifetimeBlocksFor;
  }

  lemma RunOfThree(s: Sched, a: Call, b: Call, c: Call, hash: ContentHash)
    requires ValidPool(s.store.pool)
    ensures Run(s, [a, b, c], hash) == Step(Step(Step(s, a, hash), b, hash), c, hash)
  {
    hide Step, ValidPool;
    var s1 := Step(s, a, hash);
    var s2 := Step(s1, b, hash);
    assert [a, b, c][1..] == [b, c] && [b, c][1..] == [c] && [c][1..] == [];
    assert Run(s2, [c], hash) == Run(Step(s2, c, hash), [], hash);
    assert Run(s1, [b, c], hash) == Run(s2, [c], hash);
  }

  lemma ClientStepIs(s: Sched, op: CacheRuns.Op, hash: ContentHash)
    requires ValidPool(s.store.pool)
    ensures Step(s, Client(op), hash) == s.(store := CacheRuns.Step(s.store, op, hash).0)
  {
    hide CacheRuns.Step, ValidPool;
  }

  /**
    A client creates a sequence for request 1 and reserves a block for it; request 1 is then
    submitted, wanting the whole pool.  Its admission is refused, and the client's sequence is gone.
   */
  lemma RefusalReleasesEarlierSequence(cfg: Config, p: Pool, hash: ContentHash)
    requires CacheShortfalls.Unused(p) && TokensPerBlock(p) > 0 && TableCount(p) <= |p.infos|
    requires cfg.watermark == 0 && cfg.maxActive > 0 && cfg.maxBatch > 0
    ensures ValidPool(p)
    ensures var s0 := Sched(cfg, [], [], [], map[], 0, EmptyStore(p));
            var s := Run(s0, [Client(CacheRuns.Create(7, 1)), Client(CacheRuns.Reserve(7, 1)), Submit(Greedy(p))], hash);
            var s' := Step(s, Schedule, hash);
            7 in s.store.seqs && s'.active == [] && 7 !in s'.store.seqs
  {
    hide *;
    CacheShortfalls.UnusedIsFree(p);
    CacheShortfalls.OneBlock(p, 7, 1);
    var s0 := Sched(cfg, [], [], [], map[], 0, EmptyStore(p));
    var st0 := EmptyStore(p);
    var st1 := CreateSequence(st0, 7, 1).0;
    SmallFields(7);
    CreateKeepsPool(st0, Small(7).(id := 1));
    var st2 := ReserveTokens(st1, 7, 1).0;
    ClientStepIs(s0, CacheRuns.Create(7, 1), hash);
    CacheTheorems.StepIs(st0, CacheRuns.Create(7, 1), hash);
    CacheTheorems.FlagIs(CreateSequence(st0, 7, 1));
    var s1 := s0.(store := st1);
    ClientStepIs(s1, CacheRuns.Reserve(7, 1), hash);
    CacheTheorems.StepIs(st1, CacheRuns.Reserve(7, 1), hash);
    CacheTheorems.FlagIs(ReserveTokens(st1, 7, 1));
    CacheRuns.InvParts(st2);
    var s2 := s1.(store := st2);
    StepsAre(s2, Greedy(p), 1, "", hash);
    RunOfThree(s0, Client(CacheRuns.Create(7, 1)), Client(CacheRuns.Reserve(7, 1)), Submit(Greedy(p)), hash);
    SameShapeNumbers(p, st2.pool);
    WholePoolNeeds(p);
    GreedyIs(s2, p);
    var s := Enqueue(s2, Greedy(p));
    TotalIs(s);
    ListedIs(st2, 1, 7);
    StepsAre(s, Greedy(p), 1, "", hash);
    RefusedScheduleReleases(s, 7);
  }

  lemma SmallFields(id: nat)
    ensures Small(id).(id := 1).root == id && Small(id).(id := 1).id == 1
  {}

  lemma ListedIs(st: Store, request: nat, sid: nat)
    requires st.byRequest == map[request := [sid]]
    ensures sid in SequencesFor(st, request)
  {}
}
