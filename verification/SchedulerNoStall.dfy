/** Runs without forks, prefix keys, preemption or resumption: nothing ever waits for a frame it was promised. */
module SchedulerNoStall {
  import opened SwapStore
  import opened FramePool
  import opened PageTable
  import opened CacheStore
  import opened CacheAccounting
  import opened SchedulerModel
  import opened SchedulerLedger
  import opened SchedulerPlans
  import opened SchedulerCache
  import opened SchedulerRounds
  import opened SchedulerCapacity
  import CachePrefixes
  import CacheLifecycle
  import CacheRuns

  // ---- A scheduling call -------------------------------------------------------------------------

  lemma {:induction false} ScanCapacity(s: Sched, plan: Plan, i: nat)
    requires Capacity(s) && i <= |s.pending|
    ensures ValidPool(s.store.pool)
    ensures var (s1, _, pick) := Scan(s, plan, i);
            if pick.None? then s1 == s
            else pick.value.0 < |s1.pending| && Capacity(MoveToActive(s1, pick.value.0, pick.value.1))
    decreases |s.pending| - i
  {
    hide *;
    CapacityShows(s);
    ScanUnfolds(s, plan, i);
    if i < |s.pending| {
      AdmissionIsExact(s, i, plan, |plan.prefill|);
      var (s1, plan1, r) := TryAdmit(s, s.pending[i], plan, |plan.prefill|);
      if r.None? {
        ScanCapacity(s, plan1, i + 1);
      }
    }
  }

  lemma PickCapacity(s: Sched, plan: Plan)
    requires Capacity(s) && s.pending != []
    ensures ValidPool(s.store.pool)
    ensures var (s1, _, pick) := Pick(s, plan);
            if pick.None? then s1 == s
            else pick.value.0 < |s1.pending| && Capacity(MoveToActive(s1, pick.value.0, pick.value.1))
  {
    hide Capacity, TryAdmit, Scan, MoveToActive, ValidPool;
    CapacityShows(s);
    AdmissionIsExact(s, 0, plan, |plan.prefill|);
    ScanCapacity(s, plan, 0);
  }

  lemma {:induction false} AdmitLoopCapacity(s: Sched, plan: Plan)
    requires Capacity(s)
    ensures ValidPool(s.store.pool) && Capacity(AdmitLoop(s, plan).0)
    decreases |s.pending|
  {
    hide *;
    CapacityShows(s);
    AdmitLoopUnfolds(s, plan);
    if s.pending != [] && |s.active| < s.cfg.maxActive {
      PickCapacity(s, plan);
      var (s1, plan1, pick) := Pick(s, plan);
      if pick.Some? {
        MovedLengths(s1, pick.value.0, pick.value.1);
        AdmitLoopCapacity(MoveToActive(s1, pick.value.0, pick.value.1), plan1);
      }
    }
  }

  /** Within capacity an attempt at position i succeeds exactly under these conditions. */
  ghost predicate Fits(s: Sched, plan: Plan, i: nat)
    requires i < |s.pending|
  {
    && plan.scheduled < s.cfg.maxBatch && s.pending[i].root !in s.store.seqs
    && s.held + LifetimeBlocksFor(s.store, s.pending[i]) <= TotalFrames(s)
  }

  lemma AttemptFits(s: Sched, plan: Plan, i: nat)
    requires Capacity(s) && i < |s.pending|
    ensures ValidPool(s.store.pool)
    ensures TryAdmit(s, s.pending[i], plan, |plan.prefill|).2.Some? <==> Fits(s, plan, i)
    ensures TryAdmit(s, s.pending[i], plan, |plan.prefill|).2.None? ==> TryAdmit(s, s.pending[i], plan, |plan.prefill|).0 == s
  {
    hide Capacity, TryAdmit, LifetimeBlocksFor, ValidPool;
    CapacityShows(s);
    AdmissionIsExact(s, i, plan, |plan.prefill|);
  }

  lemma {:induction false} RefusedInTurn(s: Sched, plan: Plan, n: nat)
    requires Capacity(s) && ValidPool(s.store.pool) && n <= |s.pending|
    requires forall k :: 0 <= k < n ==> Attempt(s, plan, k).2.None?
    ensures AfterAttempts(s, plan, n) == s && forall k :: 0 <= k < n ==> !Fits(s, plan, k)
  {
    hide Capacity, TryAdmit, ValidPool, Fits, Attempt;
    if n > 0 {
      RefusedInTurn(s, plan, n - 1);
      AttemptStep(s, plan, n - 1);
      AttemptFits(s, plan, n - 1);
    }
  }

  /** How far a round looks: at the head alone, or at everybody. */
  function Looks(s: Sched): nat
    requires s.pending != []
  {
    if !s.cfg.sizeAware || s.pending[0].skips >= s.cfg.skipLimit then 1 else |s.pending|
  }

  /** Within capacity a round takes the first request that fits, among those it looks at. */
  lemma PicksFirstThatFits(s: Sched, plan: Plan)
    requires Capacity(s) && s.pending != []
    ensures ValidPool(s.store.pool)
    ensures var pick := Pick(s, plan).2;
            if pick.Some? then
              pick.value.0 < Looks(s) && Fits(s, plan, pick.value.0) && forall k :: 0 <= k < pick.value.0 ==> !Fits(s, plan, k)
            else
              Pick(s, plan).0 == s && Pick(s, plan).1 == plan && forall k :: 0 <= k < Looks(s) ==> !Fits(s, plan, k)
  {
    hide Capacity, TryAdmit, ValidPool, Fits, Pick, Attempt, AfterAttempts;
    CapacityShows(s);
    PicksTheFirst(s, plan);
    var pick := Pick(s, plan).2;
    var n := if pick.Some? then pick.value.0 else Looks(s);
    RefusedInTurn(s, plan, n);
    if pick.Some? {
      AttemptStep(s, plan, n);
      AttemptFits(s, plan, n);
    }
  }

  /** Within capacity a scheduling call leaves nobody waiting who fits and whom it may look at. */
  lemma {:induction false} NobodyWaitsWhoFits(s: Sched, plan: Plan)
    requires Capacity(s)
    ensures ValidPool(s.store.pool)
    ensures var (s', plan', _) := AdmitLoop(s, plan);
            s'.pending == [] || |s'.active| >= s'.cfg.maxActive || forall k :: 0 <= k < Looks(s') ==> !Fits(s', plan', k)
    decreases |s.pending|
  {
    hide *;
    CapacityShows(s);
    AdmitLoopUnfolds(s, plan);
    if s.pending != [] && |s.active| < s.cfg.maxActive {
      PickCapacity(s, plan);
      PicksFirstThatFits(s, plan);
      var (s1, plan1, pick) := Pick(s, plan);
      if pick.Some? {
        MovedLengths(s1, pick.value.0, pick.value.1);
        NobodyWaitsWhoFits(MoveToActive(s1, pick.value.0, pick.value.1), plan1);
      }
    }
  }

  // ---- Cancelling ------------------------------------------------------------------------------------

  lemma NoPrefixesNoKeys(st: Store, sid: nat)
    requires CacheRuns.Inv(st) && st.prefixes == map[] && sid in st.seqs
    ensures ValidPool(st.pool) && DropPrefixUser(st, sid) == st
  {
    CacheRuns.InvParts(st);
    assert CachePrefixes.KeyOk(st.prefixes, st.seqs[sid]);
  }

  lemma ReleasePlain(st: Store, sid: nat)
    requires CacheRuns.Inv(st) && st.prefixes == map[]
    ensures ValidPool(st.pool)
    ensures var st' := ReleaseSequence(st, sid);
            CacheRuns.Inv(st') && st'.prefixes == map[] && SameLayout(st.pool, st'.pool) && st'.seqs == st.seqs - {sid}
  {
    hide *;
    CacheRuns.InvParts(st);
    CacheRuns.ReleaseInv(st, sid);
    CacheLifecycle.ReleaseRefines(st, sid);
    if sid in st.seqs {
      NoPrefixesNoKeys(st, sid);
      ReleaseIs(st, sid);
    } else {
      ReleaseNothing(st, sid);
    }
  }

  lemma ReleaseNothing(st: Store, sid: nat)
    requires ValidPool(st.pool) && sid !in st.seqs
    ensures ReleaseSequence(st, sid) == st
  {}

  lemma {:induction false} ReleaseEachPlain(st: Store, ids: seq<nat>)
    requires CacheRuns.Inv(st) && st.prefixes == map[]
    ensures ValidPool(st.pool)
    ensures var st' := ReleaseEach(st, ids);
            && CacheRuns.Inv(st') && st'.prefixes == map[] && SameLayout(st.pool, st'.pool)
            && forall sid :: sid in st'.seqs <==> sid in st.seqs && sid !in ids
    ensures forall sid :: sid in ReleaseEach(st, ids).seqs ==> sid in st.seqs && ReleaseEach(st, ids).seqs[sid] == st.seqs[sid]
    decreases |ids|
  {
    hide CacheRuns.Inv, ReleaseSequence, ValidPool;
    CacheRuns.InvParts(st);
    if ids != [] {
      ReleasePlain(st, ids[0]);
      ReleaseEachPlain(ReleaseSequence(st, ids[0]), ids[1..]);
      assert ids == [ids[0]] + ids[1..];
    }
  }

  lemma AllBackedAt(st: Store, q: seq<Request>, j: nat)
    requires TokensPerBlock(st.pool) > 0 && AllBacked(st, q) && j < |q|
    ensures Backed(st, q[j])
  {}

  lemma AllBackedFrom(st: Store, q: seq<Request>)
    requires TokensPerBlock(st.pool) > 0 && forall k :: 0 <= k < |q| ==> Backed(st, q[k])
    ensures AllBacked(st, q)
  {}

  lemma OwnerOf(st: Store, q: seq<Request>, sid: nat) returns (j: nat)
    requires Owned(st, q) && sid in st.seqs
    ensures j < |q| && q[j].root == sid && q[j].id == st.seqs[sid].request
  {
    j :| 0 <= j < |q| && q[j].root == sid && q[j].id == st.seqs[sid].request;
  }

  lemma OwnedFrom(st: Store, q: seq<Request>)
    requires forall sid :: sid in st.seqs ==> exists k :: 0 <= k < |q| && q[k].root == sid && q[k].id == st.seqs[sid].request
    ensures Owned(st, q)
  {}

  /** A request under another id keeps its root. */
  lemma StillBacked(st: Store, st': Store, r: Request, gone: nat)
    requires TokensPerBlock(st.pool) > 0 && Backed(st, r) && r.id != gone && SameLayout(st.pool, st'.pool)
    requires forall sid :: sid in st'.seqs <==> sid in st.seqs && st.seqs[sid].request != gone
    requires forall sid :: sid in st'.seqs ==> st'.seqs[sid] == st.seqs[sid]
    ensures TokensPerBlock(st'.pool) > 0 && Backed(st', r)
  {
    SameShapeNumbers(st.pool, st'.pool);
  }

  lemma RemovalBacks(st: Store, st': Store, q: seq<Request>, i: nat)
    requires i < |q| && TokensPerBlock(st.pool) > 0 && AllBacked(st, q) && Owned(st, q) && SameLayout(st.pool, st'.pool)
    requires forall j, k :: 0 <= j < k < |q| ==> q[j].id != q[k].id
    requires forall sid :: sid in st'.seqs <==> sid in st.seqs && st.seqs[sid].request != q[i].id
    requires forall sid :: sid in st'.seqs ==> st'.seqs[sid] == st.seqs[sid]
    ensures TokensPerBlock(st'.pool) > 0 && AllBacked(st', Removed(q, i)) && Owned(st', Removed(q, i))
  {
    hide *;
    SameShapeNumbers(st.pool, st'.pool);
    RemovedPositions(q, i);
    var q' := Removed(q, i);
    forall k | 0 <= k < |q'|
      ensures Backed(st', q'[k])
    {
      var j := if k < i then k else k + 1;
      assert q'[k] == q[j];
      AllBackedAt(st, q, j);
      StillBacked(st, st', q[j], q[i].id);
    }
    AllBackedFrom(st', q');
    forall sid | sid in st'.seqs
      ensures exists k :: 0 <= k < |q'| && q'[k].root == sid && q'[k].id == st'.seqs[sid].request
    {
      var j := OwnerOf(st, q, sid);
      assert q'[if j < i then j else j - 1] == q[j];
    }
    OwnedFrom(st', q');
  }

  lemma CancelCapacity(s: Sched, id: nat)
    requires Capacity(s)
    ensures ValidPool(s.store.pool) && Capacity(Cancel(s, id))
  {
    hide *;
    CapacityShows(s);
    CapacityParts(s);
    CancelIs(s, id);
    CancelKeepsBooksIff(s, id);
    FindNobody(s.preempted, id);
    CacheRuns.InvParts(s.store);
    CacheRuns.SequencesForLists(s.store, id);
    ListsShow(s.store, id);
    ReleaseEachPlain(s.store, SequencesFor(s.store, id));
    ReleaseRequestIs(s.store, id);
    var st' := ReleaseRequest(s.store, id);
    SameShapeNumbers(s.store.pool, st'.pool);
    var s' := Cancel(s, id);
    FramesAre(s);
    FramesAre(s');
    var p, a := FindRequest(s.pending, id), FindRequest(s.active, id);
    if p.Some? {
      CapacityWaiting(s, p.value);
      BackedOn(s.store, st', s.active);
      RemovedIn(s.pending, p.value);
      DischargeIsLess(s.held, s.pending[p.value].lifetime);
      CapacityFrom(s');
    } else if a.Some? {
      RemovalBacks(s.store, st', s.active, a.value);
      DischargeIsLess(s.held, s.active[a.value].lifetime);
      CapacityFrom(s');
    }
  }

  lemma DischargeIsLess(held: nat, lifetime: nat)
    ensures Discharge(held, lifetime) <= held
  {}

  lemma FindNobody(q: seq<Request>, id: nat)
    ensures q == [] ==> FindRequest(q, id).None?
  {}

  lemma ListsShow(st: Store, request: nat)
    requires CacheRuns.Lists(st.seqs, request, SequencesFor(st, request))
    ensures forall sid :: sid in SequencesFor(st, request) <==> sid in st.seqs && st.seqs[sid].request == request
  {}

  // ---- Writing ------------------------------------------------------------------------------------------

  lemma PutEntryKeepsSizes(st: Store, p: Pool, sid: nat, layer: nat, i: nat, e: Entry)
    requires sid in st.seqs && layer < |st.seqs[sid].tables| && i < |st.seqs[sid].tables[layer]|
    ensures SameSizes(st, PutEntry(st, p, sid, layer, i, e))
  {}

  lemma WriteKeepsSizes(st: Store, sid: nat, token: nat, layer: nat, content: Frame)
    requires ValidPool(st.pool)
    ensures SameSizes(st, WriteBlock(st, sid, token, layer, content).0)
  {
    hide SameSizes, PutEntry, Find, Allocate, CopyBlock, Release;
    forall p, i, e | sid in st.seqs && layer < |st.seqs[sid].tables| && 0 <= i < |st.seqs[sid].tables[layer]|
      ensures SameSizes(st, PutEntry(st, p, sid, layer, i, e))
    {
      PutEntryKeepsSizes(st, p, sid, layer, i, e);
    }
    assert SameSizes(st, EnsureTokenWritable(st, sid, token, layer).0) by {
      SizesRefl(st);
    }
    hide EnsureTokenWritable;
    SizesOnPool(st, EnsureTokenWritable(st, sid, token, layer).0);
  }

  lemma SizesRefl(st: Store)
    ensures SameSizes(st, st)
  {}

  lemma SizesOnPool(st: Store, st1: Store)
    requires SameSizes(st, st1)
    ensures forall p :: SameSizes(st, st1.(pool := p))
  {}

  lemma WriteCapacity(s: Sched, sid: nat, token: nat, layer: nat, content: Frame)
    requires Capacity(s)
    ensures ValidPool(s.store.pool)
    ensures Capacity(s.(store := WriteBlock(s.store, sid, token, layer, content).0))
  {
    hide *;
    CapacityShows(s);
    CacheRuns.WriteInv(s.store, sid, token, layer, content);
    CacheRuns.WriteChangesEntries(s.store, sid, token, layer, content);
    WriteKeepsSizes(s.store, sid, token, layer, content);
    CapacityOnStore(s, WriteBlock(s.store, sid, token, layer, content).0);
  }

  // ---- Runs -------------------------------------------------------------------------------------------------

  /** What an engine does in such a run: the scheduler's calls, growth of active requests, and writes. */
  datatype Work =
    | Submit(request: Request)
    | Schedule
    | Complete(id: nat, produced: nat)
    | Abort(id: nat)
    | Grow(id: nat, position: nat)
    | Write(sid: nat, token: nat, layer: nat, content: Frame)

  /** The new state, and for growth whether the block was there. */
  function Perform(s: Sched, w: Work): (r: (Sched, bool))
    requires ValidPool(s.store.pool)
    ensures ValidPool(r.0.store.pool)
  {
    match w
    case Submit(request) => (Enqueue(s, request), true)
    case Schedule => (ScheduleNext(s).0, true)
    case Complete(id, produced) => (CompleteStep(s, id, produced), true)
    case Abort(id) => (Cancel(s, id), true)
    case Grow(id, position) =>
      (match FindRequest(s.active, id)
       case None => (s, true)
       case Some(i) =>
         var (store, ok) := EnsureCapacity(s.store, s.active[i].root, position);
         (s.(store := store), ok))
    case Write(sid, token, layer, content) => (s.(store := WriteBlock(s.store, sid, token, layer, content).0), true)
  }

  /** Ids are fresh, no prefix keys, and nobody grows past the length it declared. */
  ghost predicate Declared(s: Sched, w: Work) {
    match w
    case Submit(request) => request.id !in TrackedIds(s) && request.key == ""
    case Grow(id, position) =>
      var at := FindRequest(s.active, id);
      at.Some? ==> position < s.active[at.value].prompt + s.active[at.value].maxDecode
    case _ => true
  }

  lemma SubmitCapacity(s: Sched, r: Request)
    requires Capacity(s) && r.id !in TrackedIds(s) && r.key == ""
    ensures Capacity(Enqueue(s, r))
  {
    hide Books, CacheRuns.Inv, TrackedIds, Owned;
    CapacityShows(s);
    EnqueueKeepsBooks(s, r);
    assert forall x :: x in Enqueue(s, r).pending ==> x.key == "";
  }

  lemma CompleteCapacity(s: Sched, id: nat, produced: nat)
    requires Capacity(s)
    ensures Capacity(CompleteStep(s, id, produced))
  {
    hide *;
    CapacityShows(s);
    CapacityParts(s);
    CompleteKeepsBooks(s, id, produced);
    CompleteIs(s, id, produced);
    var s' := CompleteStep(s, id, produced);
    SameOwners(s.store, s.active, s'.active);
    FramesAre(s);
    FramesAre(s');
    CapacityFrom(s');
  }

  lemma CompleteIs(s: Sched, id: nat, produced: nat)
    ensures var s' := CompleteStep(s, id, produced);
            && s' == s.(active := s'.active) && |s'.active| == |s.active|
            && forall i :: 0 <= i < |s.active| ==>
                 && s'.active[i] == s.active[i].(remaining := s'.active[i].remaining, state := s'.active[i].state)
  {}

  lemma SameOwners(st: Store, q: seq<Request>, q': seq<Request>)
    requires TokensPerBlock(st.pool) > 0 && |q'| == |q|
    requires forall i :: 0 <= i < |q| ==> q'[i] == q[i].(remaining := q'[i].remaining, state := q'[i].state)
    requires AllBacked(st, q) && Owned(st, q)
    ensures AllBacked(st, q') && Owned(st, q')
  {
    forall i | 0 <= i < |q|
      ensures Backed(st, q'[i])
    {
      assert Backed(st, q[i]);
    }
    forall sid | sid in st.seqs
      ensures exists i :: 0 <= i < |q'| && q'[i].root == sid && q'[i].id == st.seqs[sid].request
    {
      var i :| 0 <= i < |q| && q[i].root == sid && q[i].id == st.seqs[sid].request;
      assert q'[i].root == sid;
    }
  }

  lemma PerformKeepsCapacity(s: Sched, w: Work)
    requires Capacity(s) && Declared(s, w)
    ensures ValidPool(s.store.pool)
    ensures Capacity(Perform(s, w).0) && Perform(s, w).1
  {
    hide *;
    CapacityShows(s);
    PerformIs(s, w);
    DeclaredIs(s, w);
    match w
    case Submit(request) => SubmitCapacity(s, request);
    case Schedule => AdmitLoopCapacity(s, EmptyPlan); ScheduleIs(s);
    case Complete(id, produced) => CompleteCapacity(s, id, produced);
    case Abort(id) => CancelCapacity(s, id);
    case Grow(id, position) =>
      var at := FindRequest(s.active, id);
      if at.Some? {
        GrowthNeverStalls(s, at.value, position);
      }
    case Write(sid, token, layer, content) => WriteCapacity(s, sid, token, layer, content);
  }

  lemma PerformIs(s: Sched, w: Work)
    requires ValidPool(s.store.pool)
    ensures w.Submit? ==> Perform(s, w) == (Enqueue(s, w.request), true)
    ensures w.Schedule? ==> Perform(s, w) == (ScheduleNext(s).0, true)
    ensures w.Complete? ==> Perform(s, w) == (CompleteStep(s, w.id, w.produced), true)
    ensures w.Abort? ==> Perform(s, w) == (Cancel(s, w.id), true)
    ensures w.Grow? && FindRequest(s.active, w.id).None? ==> Perform(s, w) == (s, true)
    ensures w.Grow? && FindRequest(s.active, w.id).Some? ==>
              var (store, ok) := EnsureCapacity(s.store, s.active[FindRequest(s.active, w.id).value].root, w.position);
              Perform(s, w) == (s.(store := store), ok)
    ensures w.Write? ==> Perform(s, w) == (s.(store := WriteBlock(s.store, w.sid, w.token, w.layer, w.content).0), true)
  {
    hide Enqueue, ScheduleNext, CompleteStep, Cancel, EnsureCapacity, WriteBlock, FindRequest, ValidPool;
  }

  lemma DeclaredIs(s: Sched, w: Work)
    requires Declared(s, w)
    ensures w.Submit? ==> w.request.id !in TrackedIds(s) && w.request.key == ""
    ensures w.Grow? && FindRequest(s.active, w.id).Some? ==>
              var r := s.active[FindRequest(s.active, w.id).value];
              w.position < r.prompt + r.maxDecode
  {
    hide TrackedIds, FindRequest;
  }

  lemma ScheduleIs(s: Sched)
    requires ValidPool(s.store.pool)
    ensures ScheduleNext(s).0 == AdmitLoop(s, EmptyPlan).0
  {
    hide AdmitLoop, PlanPrefill, PlanDecode, ValidPool;
  }

  function RunWork(s: Sched, work: seq<Work>): (r: (Sched, bool))
    requires ValidPool(s.store.pool)
    ensures ValidPool(r.0.store.pool)
    decreases |work|
  {
    if work == [] then (s, true)
    else
      var (s1, ok) := Perform(s, work[0]);
      var (s2, rest) := RunWork(s1, work[1..]);
      (s2, ok && rest)
  }

  ghost predicate DeclaredRun(s: Sched, work: seq<Work>)
    requires ValidPool(s.store.pool)
    decreases |work|
  {
    work != [] ==> Declared(s, work[0]) && DeclaredRun(Perform(s, work[0]).0, work[1..])
  }

  /**
    Main result on stalls: over every declared run no growth ever fails, and at its end the mapped
    frames are within the ledger, the ledger within the pool.
   */
  lemma {:induction false} NoDecodeStall(s: Sched, work: seq<Work>)
    requires Capacity(s) && ValidPool(s.store.pool) && DeclaredRun(s, work)
    ensures var (s', ok) := RunWork(s, work);
            ok && Capacity(s') && |Held(s'.store)| <= s'.held <= TotalFrames(s')
    decreases |work|
  {
    hide Capacity, Perform, Declared, ValidPool, Held;
    if work == [] {
      MappedWithinLedger(s);
    } else {
      PerformKeepsCapacity(s, work[0]);
      NoDecodeStall(Perform(s, work[0]).0, work[1..]);
    }
  }

  /** Every scheduler over an unused, non-empty pool starts within capacity. */
  lemma FreshCapacity(cfg: Config, store: Store)
    requires CacheRuns.Inv(store) && store.seqs == map[] && store.prefixes == map[]
    requires TokensPerBlock(store.pool) > 0 && cfg.watermark == 0
    ensures Capacity(Sched(cfg, [], [], [], map[], 0, store))
  {
    hide CacheRuns.Inv;
    CacheRuns.InvParts(store);
    assert IdsOf([]) == [];
  }
}
