/**
  What the ledger does not see: the frames of a shared prefix are charged to its publisher alone,
  and leave the ledger with it while others still map them.
 */
module PrefixShortfalls {
  import opened Wrappers
  import opened Arithmetic
  import opened FramePool
  import opened PageTable
  import opened CacheStore
  import opened CacheAccounting
  import opened SchedulerModel
  import opened SchedulerLedger
  import opened SchedulerRuns
  import opened SchedulerCache
  import opened SchedulerCapacity
  import opened SchedulerShortfalls
  import opened SchedulerResume
  import opened PrefixCounts
  import CacheLifecycle
  import CacheRuns
  import CacheSharing
  import CacheShortfalls
  import CacheTheorems

  // ---- Frames in use ---------------------------------------------------------------------------------

  lemma {:induction false} OncePerFrame(held: multiset<Res>, frames: set<nat>)
    requires forall r :: r in held ==> r.OnFrame? && held[r] == 1 && r.frame in frames
    ensures |held| <= |frames|
    decreases |held|
  {
    if held != multiset{} {
      var r :| r in held;
      var rest := held - multiset{r};
      forall q | q in rest
        ensures q.OnFrame? && rest[q] == 1 && q.frame in frames - {r.frame}
      {
        assert q in held && q != r;
      }
      OncePerFrame(rest, frames - {r.frame});
    }
  }

  lemma SubsetIsSmaller(a: set<nat>, b: set<nat>)
    requires a <= b
    ensures |a| <= |b|
  {
    assert b == a + (b - a);
  }

  lemma {:induction false} ResidentHoldsFrames(tables: seq<Table>, r: Res)
    requires AllResident(tables) && r in Flat(tables)
    ensures r.OnFrame?
  {
    if r in Wheres(tables[0]) {
      var i :| 0 <= i < |Wheres(tables[0])| && Wheres(tables[0])[i] == r;
      assert tables[0][i].slot.None?;
    } else {
      assert AllResident(tables[1..]) by {
        assert forall l :: 0 <= l < |tables[1..]| ==> tables[1..][l] == tables[l + 1];
      }
      ResidentHoldsFrames(tables[1..], r);
    }
  }

  lemma HeldIsInUse(st: Store, sid: nat, r: Res)
    requires MemoryInv(st) && sid in st.seqs && AllResident(st.seqs[sid].tables) && r in HeldBy(st.seqs[sid].tables)
    ensures r.OnFrame? && HeldBy(st.seqs[sid].tables)[r] == 1 && r.frame < |st.pool.infos| && r.frame !in st.pool.free
  {
    hide AllResident;
    ResidentHoldsFrames(st.seqs[sid].tables, r);
    TablesOkOf(st, sid);
    HeldSplits(st, sid);
    MemoryAccounts(st);
    assert Own(st, sid)[r] > 0;
    assert Held(st)[r] == Count(st.pool, r);
  }

  /** A resident sequence keeps a frame from the free list for every block of every table. */
  lemma BlocksInUse(st: Store, sid: nat)
    requires MemoryInv(st) && sid in st.seqs && AllResident(st.seqs[sid].tables)
    ensures |st.pool.free| + BlockCount(st.seqs[sid]) * TableCount(st.pool) <= |st.pool.infos|
  {
    var p, held := st.pool, HeldBy(st.seqs[sid].tables);
    MappedFrames(st, sid);
    var used := set f | f in UpTo(|p.infos|) && f !in Elements(p.free);
    UpToIs(|p.infos|);
    DistinctSeqCardinality(p.free);
    forall r | r in held
      ensures r.OnFrame? && held[r] == 1 && r.frame in used
    {
      HeldIsInUse(st, sid, r);
    }
    OncePerFrame(held, used);
    SubsetIsSmaller(Elements(p.free) + used, UpTo(|p.infos|));
  }

  // ---- Releasing -------------------------------------------------------------------------------------

  lemma {:induction false} FreeingAddsFrames(p: Pool, rs: seq<Res>)
    requires ValidPool(p)
    ensures |FreeAll(p, rs).free| >= |p.free|
    decreases |rs|
  {
    hide ValidPool;
    if rs != [] {
      FreeAllUnfolds(p, rs);
      FreeingAddsFrames(if rs[0].OnFrame? then Release(p, rs[0].frame) else DiscardSwapped(p, rs[0].slot), rs[1..]);
    }
  }

  /** Releasing a sequence takes no frame and leaves every other sequence's tables alone. */
  lemma ReleaseSpares(st: Store, sid: nat, other: nat)
    requires ValidPool(st.pool) && other in st.seqs && other != sid
    ensures var st' := ReleaseSequence(st, sid);
            && |st'.pool.free| >= |st.pool.free| && other in st'.seqs && st'.seqs[other].tables == st.seqs[other].tables
  {
    hide ValidPool, FreeAll, Flat, Frames, Unindex;
    if sid in st.seqs {
      var s := st.seqs[sid];
      var st1 := DropPrefixUser(st, sid);
      assert |st1.pool.free| >= |st.pool.free| && other in st1.seqs && st1.seqs[other] == st.seqs[other] by {
        if s.key != "" && s.key in st.prefixes {
          var i := FindRecord(st.prefixes[s.key], s.hash);
          if i.Some? {
            FreeingAddsFrames(st.pool, Frames(st.prefixes[s.key][i.value].ids));
          }
        }
      }
      FreeingAddsFrames(st1.pool, Flat(s.tables));
    }
  }

  // ---- The publisher, the sharer and the newcomer ---------------------------------------------------------

  const SharedKey := "k"

  /** A request for the shared block and as much again to decode. */
  function Sharer(p: Pool): Request {
    Request(2, 2, TokensPerBlock(p), TokensPerBlock(p), SharedKey, Pending, 0, 0, 0)
  }

  /** How many blocks per table the pool holds. */
  function PoolBlocks(p: Pool): nat { |p.infos| / TableCount(p) }

  /** A request for all blocks but one, and nothing to decode. */
  function Filler(p: Pool): Request
    requires PoolBlocks(p) > 0
  {
    Request(3, 3, (PoolBlocks(p) - 1) * TokensPerBlock(p), 0, "", Pending, 0, 0, 0)
  }

  lemma PoolBlocksFit(p: Pool)
    requires 2 * TableCount(p) <= |p.infos|
    ensures PoolBlocks(p) >= 2
    ensures TableCount(p) + (PoolBlocks(p) - 1) * TableCount(p) <= |p.infos| < 2 * TableCount(p) + (PoolBlocks(p) - 1) * TableCount(p)
  {
    var n, t, k := |p.infos|, TableCount(p), PoolBlocks(p);
    assert n == k * t + n % t;
    assert (k - 1) * t == k * t - t;
    BelowMultiple(n, 2, t);
  }

  lemma {:induction false} AttachTablesResident(ids: seq<nat>, sid: nat, tpb: nat, n: nat, k: nat)
    requires |ids| == n * k
    ensures AllResident(AttachTables(ids, sid, tpb, n, k))
    decreases k
  {
    if k > 0 {
      assert n * k == n + n * (k - 1);
      AttachTablesResident(ids[n..], sid, tpb, n, k - 1);
      var rest: seq<Table> := AttachTables(ids[n..], sid, tpb, n, k - 1);
      assert forall l, i :: 0 <= l < |rest| && 0 <= i < |rest[l]| ==> rest[l][i].slot.None?;
    }
  }

  lemma AttachedIsResident(st: Store, sid: nat, key: string)
    requires CacheRuns.Inv(st) && CacheSharing.CanAttach(st, sid, key)
    ensures ValidPool(st.pool)
    ensures var st' := AttachPrefix(st, sid, key).0; sid in st'.seqs && AllResident(st'.seqs[sid].tables)
    ensures forall other :: other in st.seqs && other != sid ==> other in AttachPrefix(st, sid, key).0.seqs
    ensures AttachPrefix(st, sid, key).0.seqs.Keys == st.seqs.Keys
  {
    hide CacheRuns.Inv, MemoryInv, AttachPrefix, AttachTables, AllResident, RetainAll, ValidPool, TableCount;
    CacheRuns.InvParts(st);
    CacheSharing.AttachShape(st, sid, key);
    CacheSharing.AttachUnfolds(st, sid, key);
    var record, k := st.prefixes[key][0], |st.seqs[sid].tables|;
    AttachTablesResident(record.ids, sid, TokensPerBlock(st.pool), |record.ids| / k, k);
  }

  lemma SharerIs(s: Sched, p: Pool)
    requires s.pending == [] && SameLayout(p, s.store.pool)
    ensures var s1 := Enqueue(s, Sharer(p));
            && |s1.pending| == 1 && s1 == s.(pending := s1.pending)
            && s1.pending[0].id == 2 && s1.pending[0].root == 2 && s1.pending[0].key == SharedKey
            && s1.pending[0].prompt == TokensPerBlock(p) && s1.pending[0].maxDecode == TokensPerBlock(p)
    ensures TokensPerBlock(s.store.pool) == TokensPerBlock(p) && TableCount(s.store.pool) == TableCount(p)
  {
    SameShapeNumbers(p, s.store.pool);
  }

  /** The discount of a request whose whole prompt is one shared block. */
  lemma SharerLifetime(st: Store, c: Request)
    requires CacheRuns.Inv(st) && TokensPerBlock(st.pool) > 0 && c.prompt == c.maxDecode == TokensPerBlock(st.pool)
    requires PrefixTokenCount(st, c.key) == TokensPerBlock(st.pool)
    ensures UsablePrefix(st, c) == TokensPerBlock(st.pool) && SharedBlocks(st, c) == 1
    ensures LifetimeBlocksFor(st, c) == TableCount(st.pool)
  {
    hide CacheRuns.Inv, PrefixTokenCount, TableCount, CeilDiv;
    var b := TokensPerBlock(st.pool);
    UsableIsWhole(st, c);
    LifetimeLessSharedBlocks(st, c);
    WholeBlocks(2, b);
  }

  /** Placing the sharer attaches the shared block and takes no frame. */
  lemma SharerPlaced(st: Store, c: Request)
    requires CacheRuns.Inv(st) && TokensPerBlock(st.pool) > 0 && c.prompt == c.maxDecode == TokensPerBlock(st.pool)
    requires PrefixTokenCount(st, c.key) == TokensPerBlock(st.pool) && c.root !in st.seqs
    ensures ValidPool(st.pool)
    ensures var (st', ok) := Place(st, c);
            && ok && CacheRuns.Inv(st') && SameLayout(st.pool, st'.pool) && |st'.pool.free| == |st.pool.free|
            && st'.seqs.Keys == st.seqs.Keys + {c.root} && BlockCount(st'.seqs[c.root]) == 1 && AllResident(st'.seqs[c.root].tables)
            && forall r :: r != c.id ==> SequencesFor(st', r) == SequencesFor(st, r)
  {
    hide *;
    CacheRuns.InvParts(st);
    SharerLifetime(st, c);
    PlaceCases(st, c);
    StartedTakes(st, c);
    StartedIs(st, c);
    CreatedBeside(st, c.root, c.id);
    var st1 := CreateSequence(st, c.root, c.id).0;
    CacheRuns.InvParts(st1);
    AttachedIsResident(st1, c.root, c.key);
    ListsAgree(st1, Started(st, c).0);
  }

  lemma SharerAdmitted(s: Sched, p: Pool)
    requires CacheRuns.Inv(s.store) && s.cfg.watermark == 0 && s.cfg.maxBatch > 0 && |s.active| < s.cfg.maxActive
    requires s.pending == [] && SameLayout(p, s.store.pool) && TokensPerBlock(p) > 0 && 2 !in s.store.seqs
    requires PrefixTokenCount(s.store, SharedKey) == TokensPerBlock(p) && s.held + TableCount(p) <= |p.infos|
    ensures ValidPool(s.store.pool)
    ensures var s' := ScheduleNext(Enqueue(s, Sharer(p))).0;
            && s'.pending == [] && s'.cfg == s.cfg && s'.held == s.held + TableCount(p)
            && |s'.active| == |s.active| + 1 && s'.active[..|s.active|] == s.active
            && s'.active[|s.active|].root == 2 && s'.active[|s.active|].prompt == s'.active[|s.active|].maxDecode == TokensPerBlock(p)
            && CacheRuns.Inv(s'.store) && SameLayout(s.store.pool, s'.store.pool) && FreeFrames(s') == FreeFrames(s)
            && s'.store.seqs.Keys == s.store.seqs.Keys + {2}
            && BlockCount(s'.store.seqs[2]) == 1 && AllResident(s'.store.seqs[2].tables)
            && SequencesFor(s'.store, 1) == SequencesFor(s.store, 1)
  {
    hide *;
    CacheRuns.InvParts(s.store);
    SharerIs(s, p);
    var s1 := Enqueue(s, Sharer(p));
    var c := s1.pending[0];
    SharerLifetime(s.store, c);
    SharerPlaced(s.store, c);
    PlanIsEmpty();
    TotalIs(s1);
    SameShapeNumbers(p, s.store.pool);
    AttemptOutcome(s1, c, EmptyPlan, 0);
    OneAttempt(s1);
    var (s2, _, r) := TryAdmit(s1, c, EmptyPlan, 0);
    MoveIs(s2, 0, r.value);
    NothingLeft(s2, r.value);
    FramesAre(s);
    FramesAre(ScheduleNext(s1).0);
  }

  /** The publisher leaves: its lifetime goes with it, the shared frames stay. */
  lemma PublisherLeaves(s: Sched, p: Pool)
    requires CacheRuns.Inv(s.store) && s.pending == [] && |s.active| == 2 && s.active[0].id == 1 && s.active[0].lifetime == TableCount(p)
    requires SameLayout(p, s.store.pool) && s.held == 2 * TableCount(p) && TableCount(p) > 0
    requires SequencesFor(s.store, 1) == [1] && s.store.seqs.Keys == {1, 2}
    requires BlockCount(s.store.seqs[2]) == 1 && AllResident(s.store.seqs[2].tables)
    requires FreeFrames(s) + TableCount(p) == |p.infos|
    ensures ValidPool(s.store.pool)
    ensures var s' := Cancel(s, 1);
            && s'.pending == [] && s'.active == [s.active[1]] && s'.cfg == s.cfg && s'.held == TableCount(p)
            && CacheRuns.Inv(s'.store) && SameLayout(p, s'.store.pool) && s'.store.seqs.Keys == {2}
            && BlockCount(s'.store.seqs[2]) == 1 && FreeFrames(s') + TableCount(p) == |p.infos|
  {
    hide *;
    CacheRuns.InvParts(s.store);
    FindNone(1);
    FirstFound(s.active, 1);
    CancelIs(s, 1);
    DischargeIs(s.held, s.active[0].lifetime);
    var st' := ReleaseSequence(s.store, 1);
    ReleasesOne(s.store, 1);
    CacheRuns.ReleaseInv(s.store, 1);
    CacheLifecycle.ReleaseRefines(s.store, 1);
    ReleaseSpares(s.store, 1, 2);
    CacheRuns.InvParts(st');
    BlocksInUse(st', 2);
    LayoutChain(p, s.store.pool, st'.pool);
    SameShapeNumbers(p, st'.pool);
    FramesAre(s);
    FramesAre(Cancel(s, 1));
    RemovedFirst(s.active);
  }

  lemma FindNone(id: nat)
    ensures FindRequest([], id) == None
  {}

  lemma ReleasesOne(st: Store, request: nat)
    requires ValidPool(st.pool) && SequencesFor(st, request) == [request]
    ensures ReleaseRequest(st, request) == ReleaseSequence(st, request)
  {
    hide ReleaseSequence, ValidPool;
    assert [request][1..] == [];
    assert ReleaseEach(ReleaseSequence(st, request), []) == ReleaseSequence(st, request);
  }

  lemma RemovedFirst(q: seq<Request>)
    requires |q| == 2
    ensures Removed(q, 0) == [q[1]]
  {}

  /** The publisher's block goes under the key. */
  lemma PublishedOnce(st: Store, p: Pool, hash: ContentHash)
    requires CacheRuns.Inv(st) && SameLayout(p, st.pool) && TokensPerBlock(p) > 0 && st.prefixes == map[]
    requires 1 in st.seqs && st.seqs[1].key == "" && st.seqs[1].tables != [] && |st.seqs[1].tables[0]| == 1
    requires AllResident(st.seqs[1].tables)
    ensures ValidPool(st.pool)
    ensures var st' := PublishPrefix(st, 1, SharedKey, hash).0;
            && CacheRuns.Inv(st') && SameLayout(p, st'.pool) && st'.pool.free == st.pool.free && st'.seqs.Keys == st.seqs.Keys
            && PrefixTokenCount(st', SharedKey) == TokensPerBlock(p) && SequencesFor(st', 1) == SequencesFor(st, 1)
  {
    hide *;
    CacheRuns.InvParts(st);
    NoKeyYet(st, SharedKey);
    CacheShortfalls.FirstKey(st, 1, SharedKey, hash);
    FirstPublicationCounts(st, 1, SharedKey, hash);
    CacheLifecycle.PublishRefines(st, 1, SharedKey, hash);
    CacheLifecycle.PublishIs(st, 1, SharedKey, hash);
    RetainKeepsFree(st.pool, Flat(st.seqs[1].tables));
    LayoutChain(p, st.pool, PublishPrefix(st, 1, SharedKey, hash).0.pool);
    SameShapeNumbers(p, st.pool);
    ListsAgree(st, PublishPrefix(st, 1, SharedKey, hash).0);
  }

  lemma NoKeyYet(st: Store, key: string)
    ensures SharedKey != ""
    ensures st.prefixes == map[] ==> CacheLifecycle.RecordsOf(st, key) == []
    ensures FindRecord([], 0) == None && forall h :: FindRecord([], h) == None
  {}

  /** The newcomer is admitted by the ledger and takes every frame but the shared ones. */
  lemma FillerAdmitted(s: Sched, p: Pool)
    requires CacheRuns.Inv(s.store) && s.cfg.watermark == 0 && s.cfg.maxBatch > 0 && |s.active| == 1 < s.cfg.maxActive
    requires s.pending == [] && SameLayout(p, s.store.pool) && TokensPerBlock(p) > 0 && 2 * TableCount(p) <= |p.infos|
    requires s.held == TableCount(p) && FreeFrames(s) + TableCount(p) == |p.infos|
    requires s.store.seqs.Keys == {2} && BlockCount(s.store.seqs[2]) == 1
    ensures ValidPool(s.store.pool) && PoolBlocks(p) > 0
    ensures var s' := ScheduleNext(Enqueue(s, Filler(p))).0;
            && |s'.active| == 2 && s'.active[0] == s.active[0] && s'.held <= TotalFrames(s') && CacheRuns.Inv(s'.store)
            && 2 in s'.store.seqs && BlockCount(s'.store.seqs[2]) == 1 && SameLayout(p, s'.store.pool)
            && FreeFrames(s') < TableCount(p)
  {
    hide *;
    CacheRuns.InvParts(s.store);
    PoolBlocksFit(p);
    FillerIs(s, p);
    SameShapeNumbers(p, s.store.pool);
    var s1 := Enqueue(s, Filler(p));
    FramesAre(s);
    FramesAre(s1);
    AdmitsBare(s1);
    OneMoreBlock(s.store, 3, 3, (PoolBlocks(p) - 1) * TokensPerBlock(p));
    var s' := ScheduleNext(s1).0;
    LayoutChain(p, s.store.pool, s'.store.pool);
    SameShapeNumbers(p, s'.store.pool);
    FramesAre(s');
  }

  lemma FillerIs(s: Sched, p: Pool)
    requires s.pending == [] && SameLayout(p, s.store.pool) && TokensPerBlock(p) > 0 && PoolBlocks(p) >= 2
    ensures var s1 := Enqueue(s, Filler(p));
            && |s1.pending| == 1 && s1 == s.(pending := s1.pending)
            && s1.pending[0].id == 3 && s1.pending[0].root == 3 && s1.pending[0].key == ""
            && s1.pending[0].prompt == (PoolBlocks(p) - 1) * TokensPerBlock(p) > 0
            && LifetimeBlocksFor(s1.store, s1.pending[0]) == (PoolBlocks(p) - 1) * TableCount(p)
    ensures TokensPerBlock(s.store.pool) == TokensPerBlock(p) && TableCount(s.store.pool) == TableCount(p)
    ensures CeilDiv((PoolBlocks(p) - 1) * TokensPerBlock(p), TokensPerBlock(p)) == PoolBlocks(p) - 1
  {
    hide PoolBlocks, TokensPerBlock, TableCount, CeilDiv;
    SameShapeNumbers(p, s.store.pool);
    WholeBlocks(PoolBlocks(p) - 1, TokensPerBlock(p));
    MulMonotone(1, PoolBlocks(p) - 1, TokensPerBlock(p));
  }

  /** The next block of a table with one block needs a frame per table. */
  lemma GrowthStarves(st: Store, p: Pool)
    requires CacheRuns.Inv(st) && 2 in st.seqs && BlockCount(st.seqs[2]) == 1 && SameLayout(p, st.pool)
    requires TokensPerBlock(p) > 0 && |st.pool.free| < TableCount(p)
    ensures ValidPool(st.pool) && !EnsureCapacity(st, 2, TokensPerBlock(p)).1
  {
    hide *;
    SameShapeNumbers(p, st.pool);
    GrowthSucceedsIff(st, 2, TokensPerBlock(p));
  }

  lemma PublishStepIs(s: Sched, sid: nat, key: string, hash: ContentHash)
    requires ValidPool(s.store.pool)
    ensures Step(s, Client(CacheRuns.Publish(sid, key)), hash) == s.(store := PublishPrefix(s.store, sid, key, hash).0)
  {
    hide *;
    ClientStepIs(s, CacheRuns.Publish(sid, key), hash);
    CacheTheorems.StepIs(s.store, CacheRuns.Publish(sid, key), hash);
    CacheTheorems.FlagIs(PublishPrefix(s.store, sid, key, hash));
  }

  /** The eight calls of the run below. */
  lemma CallsAre(s0: Sched, p: Pool, hash: ContentHash)
    requires ValidPool(s0.store.pool) && PoolBlocks(p) > 0
    ensures ValidPool(ScheduleNext(Enqueue(s0, Small(1))).0.store.pool)
    ensures var s1 := ScheduleNext(Enqueue(s0, Small(1))).0;
            var s2 := s1.(store := PublishPrefix(s1.store, 1, SharedKey, hash).0);
            && ValidPool(s2.store.pool) && ValidPool(Enqueue(s2, Sharer(p)).store.pool)
            && Run(s0, [Submit(Small(1)), Schedule, Client(CacheRuns.Publish(1, SharedKey)), Submit(Sharer(p))], hash)
               == Enqueue(s2, Sharer(p))
  {
    hide *;
    SubmitAndSchedule(s0, Small(1), hash);
    RunOfFour(s0, Submit(Small(1)), Schedule, Client(CacheRuns.Publish(1, SharedKey)), Submit(Sharer(p)), hash);
    var s1 := ScheduleNext(Enqueue(s0, Small(1))).0;
    PublishStepIs(s1, 1, SharedKey, hash);
    PublishedPool(s1.store, 1, SharedKey, hash);
    SubmitAndSchedule(s1.(store := PublishPrefix(s1.store, 1, SharedKey, hash).0), Sharer(p), hash);
  }

  lemma PublishedPool(st: Store, sid: nat, key: string, hash: ContentHash)
    requires ValidPool(st.pool)
    ensures ValidPool(PublishPrefix(st, sid, key, hash).0.pool)
  {}

  lemma MoreCallsAre(s: Sched, p: Pool, hash: ContentHash)
    requires ValidPool(s.store.pool) && PoolBlocks(p) > 0
    ensures var s3 := ScheduleNext(s).0;
            && ValidPool(s3.store.pool) && ValidPool(Cancel(s3, 1).store.pool) && ValidPool(Enqueue(Cancel(s3, 1), Filler(p)).store.pool)
            && Run(s, [Schedule, Abort(1), Submit(Filler(p)), Schedule], hash) == ScheduleNext(Enqueue(Cancel(s3, 1), Filler(p))).0
  {
    hide *;
    RunOfFour(s, Schedule, Abort(1), Submit(Filler(p)), Schedule, hash);
    StepsAre(s, Filler(p), 1, "", hash);
    ScheduledPool(s);
    var s3 := ScheduleNext(s).0;
    StepsAre(s3, Filler(p), 1, "", hash);
    CancelledPool(s3, 1);
    SubmitAndSchedule(Cancel(s3, 1), Filler(p), hash);
  }

  lemma CancelledPool(s: Sched, id: nat)
    requires ValidPool(s.store.pool)
    ensures ValidPool(Cancel(s, id).store.pool)
  {}

  /**
    A request publishes its prompt, a second one shares it and is charged for its decode only, the
    first is done and leaves, and a third is admitted into what the ledger says is left: the ledger is
    within the pool, but the second request's next block, well within its declared length, is not there.
   */
  lemma SharedPrefixStarvesGrowth(cfg: Config, p: Pool, hash: ContentHash)
    requires CacheShortfalls.Unused(p) && TokensPerBlock(p) > 0 && 2 * TableCount(p) <= |p.infos|
    requires cfg.watermark == 0 && cfg.maxActive > 1 && cfg.maxBatch > 0
    ensures ValidPool(p) && PoolBlocks(p) > 0
    ensures var s0 := Sched(cfg, [], [], [], map[], 0, EmptyStore(p));
            var s := Run(s0, [Submit(Small(1)), Schedule, Client(CacheRuns.Publish(1, SharedKey)), Submit(Sharer(p))], hash);
            var s' := Run(s, [Schedule, Abort(1), Submit(Filler(p)), Schedule], hash);
            var position := TokensPerBlock(p);
            && |s'.active| == 2 && s'.active[0].root == 2 && s'.held <= TotalFrames(s')
            && position < s'.active[0].prompt + s'.active[0].maxDecode && !EnsureCapacity(s'.store, 2, position).1
  {
    hide *;
    CacheShortfalls.UnusedIsFree(p);
    PoolBlocksFit(p);
    FreshIsWithinCapacity(cfg, p);
    TablesPositive(p);
    var s0 := Sched(cfg, [], [], [], map[], 0, EmptyStore(p));
    TotalIs(s0);
    FreshShape(p);
    SubmitAndAdmit(s0, 1);
    SmallAdmitted(cfg, p, 1);
    CacheShortfalls.OneBlock(p, 1, 1);
    CallsAre(s0, p, hash);
    EnqueueKeepsPool(s0, Small(1));
    var s1 := ScheduleNext(Enqueue(s0, Small(1))).0;
    IndexedOnce(s1.store, 1, 1);
    PublishedOnce(s1.store, p, hash);
    var s2 := s1.(store := PublishPrefix(s1.store, 1, SharedKey, hash).0);
    SharerAdmitted(s2, p);
    MoreCallsAre(Enqueue(s2, Sharer(p)), p, hash);
    var s3 := ScheduleNext(Enqueue(s2, Sharer(p))).0;
    LayoutChain(p, s2.store.pool, s3.store.pool);
    FramesAre(s2);
    PublisherLeaves(s3, p);
    var s4 := Cancel(s3, 1);
    FillerAdmitted(s4, p);
    var s5 := ScheduleNext(Enqueue(s4, Filler(p))).0;
    FramesAre(s5);
    GrowthStarves(s5.store, p);
  }
}
