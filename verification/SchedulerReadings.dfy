/** Building a plan never changes what a live sequence reads, whatever it preempts, attaches or refuses. */
module SchedulerReadings {
  import opened Wrappers
  import opened Arithmetic
  import opened FramePool
  import opened CacheStore
  import opened CacheRefinement
  import opened CacheLifecycle
  import opened CacheSharing
  import opened PrivateStore
  import opened SchedulerModel
  import opened SchedulerPlans
  import opened SchedulerCache
  import CacheRuns
  import CacheTheorems

  /** Every sequence of st is there in st', reading the same. */
  ghost predicate KeepsReadings(st: Store, st': Store) {
    forall sid :: sid in st.seqs ==> sid in st'.seqs && Abs(st').seqs[sid] == Abs(st).seqs[sid]
  }

  /** Nobody waiting has a sequence yet, and nobody waits twice. */
  ghost predicate WaitingHaveNone(q: seq<Request>, st: Store) {
    && (forall r :: r in q ==> SequencesFor(st, r.id) == [])
    && (forall i, j :: 0 <= i < j < |q| ==> q[i].id != q[j].id)
  }

  ghost predicate SameLists(st: Store, st': Store, but: nat) {
    forall request :: request != but ==> SequencesFor(st', request) == SequencesFor(st, request)
  }

  lemma KeepsTransitive(a: Store, b: Store, c: Store)
    requires KeepsReadings(a, b) && KeepsReadings(b, c)
    ensures KeepsReadings(a, c)
  {
    hide Abs;
  }

  lemma SameReadingKeeps(st: Store, st': Store)
    requires Abs(st') == Abs(st)
    ensures KeepsReadings(st, st')
  {
    AbsShows(st, 0, "");
    AbsShows(st', 0, "");
  }

  /** A placement adds at most its own root. */
  lemma PlacementKeepsReadings(st: Store, c: Request)
    requires CacheRuns.Inv(st) && SequencesFor(st, c.id) == []
    ensures ValidPool(st.pool)
    ensures CacheRuns.Inv(Place(st, c).0) && KeepsReadings(st, Place(st, c).0) && SameLists(st, Place(st, c).0, c.id)
  {
    hide *;
    CacheRuns.InvParts(st);
    PlaceCases(st, c);
    RefusedPlacementLeavesNoTrace(st, c);
    SameReadingKeeps(st, st);
    SameListsRefl(st, c.id);
    if Place(st, c).1 {
      StartedIs(st, c);
      StartedKeepsReadings(st, c);
      var (st2, attached) := Started(st, c);
      CacheRuns.InvParts(st2);
      if c.prompt > attached {
        var n := c.prompt - attached;
        var st3 := ReserveTokens(st2, c.root, n).0;
        ReserveRefines(st2, c.root, n);
        CacheRuns.ReserveInv(st2, c.root, n);
        GrowthKeepsOthers(st2, st3, c.root, n);
        KeepsButOne(st, st2, st3, c.root);
        ReserveKeepsLists(st2, c.root, n, c.id);
        SameListsTransitive(st, st2, st3, c.id);
      }
    }
  }

  lemma SameListsRefl(st: Store, but: nat)
    ensures SameLists(st, st, but)
  {}

  lemma SameListsTransitive(a: Store, b: Store, c: Store, but: nat)
    requires SameLists(a, b, but) && SameLists(b, c, but)
    ensures SameLists(a, c, but)
  {}

  lemma ReserveKeepsLists(st: Store, sid: nat, n: nat, but: nat)
    requires ValidPool(st.pool)
    ensures SameLists(st, ReserveTokens(st, sid, n).0, but)
  {}

  ghost predicate KeepsOthers(st: Store, st': Store, but: nat) {
    forall sid :: sid in st.seqs && sid != but ==> sid in st'.seqs && Abs(st').seqs[sid] == Abs(st).seqs[sid]
  }

  lemma KeepsButOne(st: Store, st2: Store, st3: Store, root: nat)
    requires root !in st.seqs && KeepsReadings(st, st2) && KeepsOthers(st2, st3, root)
    ensures KeepsReadings(st, st3)
  {
    hide Abs;
  }

  lemma GrowthKeepsOthers(st: Store, st': Store, sid: nat, n: nat)
    requires ValidPool(st.pool) && st' == ReserveTokens(st, sid, n).0
    requires st' == st || PGrows(Abs(st), sid, Arithmetic.CeilDiv(n, TokensPerBlock(st.pool)), Abs(st'))
    ensures KeepsOthers(st, st', sid)
  {
    hide Abs, ReserveTokens;
    AbsShows(st, 0, "");
    AbsShows(st', 0, "");
  }

  lemma StartedKeepsReadings(st: Store, c: Request)
    requires CacheRuns.Inv(st) && c.root !in st.seqs
    ensures ValidPool(st.pool)
    ensures KeepsReadings(st, Started(st, c).0) && SameLists(st, Started(st, c).0, c.id)
  {
    hide *;
    CacheRuns.InvParts(st);
    StartedIs(st, c);
    var st1 := CreateSequence(st, c.root, c.id).0;
    CacheRuns.InvParts(st1);
    CreateRefines(st, c.root, c.id);
    AttachRefines(st1, c.root, c.key);
    CreationKeeps(st, c);
    var (st2, attached) := Started(st, c);
    if attached > 0 {
      AttachmentKeepsOthers(st1, st2, c.root, c.key, attached);
      KeepsButOne(st, st1, st2, c.root);
    }
    SameIndexSameLists(st1, st2, c.id);
    SameListsTransitive(st, st1, st2, c.id);
  }

  lemma SameIndexSameLists(st: Store, st': Store, but: nat)
    requires st'.byRequest == st.byRequest
    ensures SameLists(st, st', but)
  {}

  lemma CreationKeeps(st: Store, c: Request)
    requires c.root !in st.seqs && Abs(CreateSequence(st, c.root, c.id).0) == PCreate(Abs(st), c.root, c.id)
    ensures KeepsReadings(st, CreateSequence(st, c.root, c.id).0)
    ensures SameLists(st, CreateSequence(st, c.root, c.id).0, c.id)
  {
    hide Abs;
    AbsShows(st, 0, "");
  }

  lemma AttachmentKeepsOthers(st: Store, st': Store, sid: nat, key: string, tokens: nat)
    requires PAttaches(Abs(st), sid, key, tokens, Abs(st'))
    ensures KeepsOthers(st, st', sid)
  {
    hide Abs;
    AbsShows(st, 0, "");
    AbsShows(st', 0, "");
  }

  // ---- The loops of one scheduling call --------------------------------------------------------------

  /** What holds at every point of the call started in st0. */
  ghost predicate Undisturbed(st0: Store, s: Sched) {
    CacheRuns.Inv(s.store) && KeepsReadings(st0, s.store) && WaitingHaveNone(s.pending, s.store)
  }

  lemma UndisturbedShows(st0: Store, s: Sched)
    requires Undisturbed(st0, s)
    ensures ValidPool(s.store.pool) && CacheRuns.Inv(s.store) && KeepsReadings(st0, s.store) && WaitingHaveNone(s.pending, s.store)
  {
    CacheRuns.InvParts(s.store);
  }

  lemma UndisturbedFrom(st0: Store, s: Sched, s': Sched)
    requires Undisturbed(st0, s) && CacheRuns.Inv(s'.store) && KeepsReadings(s.store, s'.store)
    requires WaitingHaveNone(s'.pending, s'.store)
    ensures Undisturbed(st0, s')
  {
    hide CacheRuns.Inv, KeepsReadings, WaitingHaveNone;
    KeepsTransitive(st0, s.store, s'.store);
  }

  lemma PreemptUndisturbed(st0: Store, s: Sched, id: nat, reason: string)
    requires Undisturbed(st0, s)
    ensures ValidPool(s.store.pool) && Undisturbed(st0, Preempt(s, id, reason).0)
  {
    hide *;
    UndisturbedShows(st0, s);
    PreemptStore(s, id, reason);
    CacheTheorems.EvictRequestRefines(s.store, id);
    var s' := Preempt(s, id, reason).0;
    if s'.store != s.store {
      SameReadingKeeps(s.store, s'.store);
      SameBooksSameIndex(s.store, s'.store);
      WaitingOnSameIndex(s.pending, s.store, s'.store);
      UndisturbedFrom(st0, s, s');
    } else {
      SameReadingKeeps(s.store, s'.store);
      UndisturbedFrom(st0, s, s');
    }
  }

  lemma PreemptStore(s: Sched, id: nat, reason: string)
    requires ValidPool(s.store.pool)
    ensures var s' := Preempt(s, id, reason).0;
            s'.pending == s.pending && (s'.store == s.store || s'.store == SwapOutRequest(s.store, id).0)
  {}

  lemma SameBooksSameIndex(st: Store, st': Store)
    requires CacheTheorems.SameBooks(st, st')
    ensures st'.byRequest == st.byRequest
  {}

  lemma WaitingOnSameIndex(q: seq<Request>, st: Store, st': Store)
    requires WaitingHaveNone(q, st) && st'.byRequest == st.byRequest
    ensures WaitingHaveNone(q, st')
  {}

  lemma {:induction false} ReclaimUndisturbed(st0: Store, s: Sched, needed: nat, required: nat, admitted: nat)
    requires Undisturbed(st0, s)
    ensures ValidPool(s.store.pool) && Undisturbed(st0, ReclaimLoop(s, needed, required, admitted))
    decreases |s.active|
  {
    hide Undisturbed, Preempt, ValidPool;
    UndisturbedShows(st0, s);
    if |s.active| > admitted && !(FreeFrames(s) >= required && s.held + needed <= TotalFrames(s)) {
      var id := s.active[|s.active| - admitted - 1].id;
      PreemptUndisturbed(st0, s, id, WatermarkReason);
      var (s1, ok) := Preempt(s, id, WatermarkReason);
      if ok && FreeFrames(s1) > FreeFrames(s) {
        ReclaimUndisturbed(st0, s1, needed, required, admitted);
      }
    }
  }

  lemma ReclaimForAdmissionUndisturbed(st0: Store, s: Sched, c: Request, admitted: nat)
    requires Undisturbed(st0, s)
    ensures ValidPool(s.store.pool) && Undisturbed(st0, ReclaimForAdmission(s, c.prompt, c.maxDecode, admitted))
  {
    hide Undisturbed, ReclaimLoop, BlocksForTokens, ValidPool;
    UndisturbedShows(st0, s);
    var needed := BlocksForTokens(s.store.pool, c.prompt + c.maxDecode);
    ReclaimUndisturbed(st0, s, needed, Min(needed + s.cfg.watermark, TotalFrames(s)), admitted);
  }

  /** A refusal, early or late, leaves the scheduler as it was before or after reclaiming. */
  lemma RefusalIs(s: Sched, c: Request, plan: Plan, admitted: nat)
    requires CacheRuns.Inv(s.store)
    ensures ValidPool(s.store.pool)
    ensures var r := TryAdmit(s, c, plan, admitted);
            var s1 := ReclaimForAdmission(s, c.prompt, c.maxDecode, admitted);
            && (r.2.None? ==> r.0 == s || r.0 == s1 || (r.0 == s1.(store := Place(s1.store, c).0) && !Place(s1.store, c).1))
            && (r.2.Some? ==> r.0.store == Place(s1.store, c).0)
  {
    hide ReclaimForAdmission, Place, LifetimeBlocksFor, PrefillChunk, ValidPool, CacheRuns.Inv;
    CacheRuns.InvParts(s.store);
  }

  lemma WaitingShows(q: seq<Request>, st: Store, i: nat)
    requires WaitingHaveNone(q, st) && i < |q|
    ensures SequencesFor(st, q[i].id) == []
  {}

  lemma AttemptUndisturbed(st0: Store, s: Sched, plan: Plan, i: nat, admitted: nat)
    requires Undisturbed(st0, s) && i < |s.pending|
    ensures ValidPool(s.store.pool)
    ensures var (s1, _, r) := TryAdmit(s, s.pending[i], plan, admitted);
            if r.None? then Undisturbed(st0, s1) else Undisturbed(st0, MoveToActive(s1, i, r.value))
  {
    hide *;
    var c := s.pending[i];
    UndisturbedShows(st0, s);
    RefusalIs(s, c, plan, admitted);
    ReclaimForAdmissionUndisturbed(st0, s, c, admitted);
    var s' := ReclaimForAdmission(s, c.prompt, c.maxDecode, admitted);
    UndisturbedShows(st0, s');
    WaitingShows(s'.pending, s'.store, i);
    PlacementKeepsReadings(s'.store, c);
    RefusedPlacementLeavesNoTrace(s'.store, c);
    var (s1, _, r) := TryAdmit(s, c, plan, admitted);
    if r.Some? {
      MovedPending(s1, i, r.value);
      var s2 := MoveToActive(s1, i, r.value);
      WaitingAfterMove(s'.pending, s'.store, s2.store, i);
      UndisturbedFrom(st0, s', s2);
    }
  }

  lemma MovedPending(s: Sched, i: nat, c: Request)
    requires i < |s.pending|
    ensures MoveToActive(s, i, c).pending == BumpSkips(s.pending[..i]) + s.pending[i + 1..]
    ensures MoveToActive(s, i, c).store == s.store
  {}

  lemma WaitingAfterMove(q: seq<Request>, st: Store, st': Store, i: nat)
    requires i < |q| && WaitingHaveNone(q, st) && SameLists(st, st', q[i].id)
    ensures WaitingHaveNone(BumpSkips(q[..i]) + q[i + 1..], st')
  {
    hide SequencesFor;
    var q' := BumpSkips(q[..i]) + q[i + 1..];
    assert forall k :: 0 <= k < |q'| ==> q'[k].id == q[if k < i then k else k + 1].id;
    forall r | r in q'
      ensures SequencesFor(st', r.id) == []
    {
      var k :| 0 <= k < |q'| && q'[k] == r;
      assert q[if k < i then k else k + 1] in q;
    }
  }

  /** Whom a round moves, if anybody. */
  ghost predicate RoundUndisturbed(st0: Store, s1: Sched, pick: Option<(nat, Request)>) {
    if pick.None? then Undisturbed(st0, s1)
    else pick.value.0 < |s1.pending| && Undisturbed(st0, MoveToActive(s1, pick.value.0, pick.value.1))
  }

  lemma {:induction false} ScanUndisturbed(st0: Store, s: Sched, plan: Plan, i: nat)
    requires Undisturbed(st0, s) && i <= |s.pending|
    ensures ValidPool(s.store.pool)
    ensures RoundUndisturbed(st0, Scan(s, plan, i).0, Scan(s, plan, i).2)
    decreases |s.pending| - i
  {
    hide TryAdmit, Undisturbed, MoveToActive, ValidPool;
    UndisturbedShows(st0, s);
    if i < |s.pending| {
      AttemptUndisturbed(st0, s, plan, i, |plan.prefill|);
      var (s1, plan1, r) := TryAdmit(s, s.pending[i], plan, |plan.prefill|);
      if r.None? {
        ScanUndisturbed(st0, s1, plan1, i + 1);
      }
    }
  }

  lemma {:induction false} AdmitLoopUndisturbed(st0: Store, s: Sched, plan: Plan)
    requires Undisturbed(st0, s)
    ensures ValidPool(s.store.pool) && Undisturbed(st0, AdmitLoop(s, plan).0)
    decreases |s.pending|
  {
    hide TryAdmit, Undisturbed, Scan, BumpSkips, ValidPool;
    UndisturbedShows(st0, s);
    if s.pending != [] && |s.active| < s.cfg.maxActive {
      AttemptUndisturbed(st0, s, plan, 0, |plan.prefill|);
      ScanUndisturbed(st0, s, plan, 0);
      var (s1, plan1, pick) := Pick(s, plan);
      if pick.Some? {
        MovedLengths(s1, pick.value.0, pick.value.1);
        AdmitLoopUndisturbed(st0, MoveToActive(s1, pick.value.0, pick.value.1), plan1);
      }
    }
  }

  /**
    Main result on readings: a scheduling call, with all the preempting, attaching, reserving
    and undoing inside it, keeps the cache invariant and changes nothing any existing sequence
    reads.  It asks only that waiting requests have distinct ids and no sequences yet.
   */
  lemma SchedulingKeepsReadings(s: Sched)
    requires CacheRuns.Inv(s.store) && WaitingHaveNone(s.pending, s.store)
    ensures ValidPool(s.store.pool)
    ensures var s' := ScheduleNext(s).0;
            CacheRuns.Inv(s'.store) && KeepsReadings(s.store, s'.store) && WaitingHaveNone(s'.pending, s'.store)
  {
    hide *;
    CacheRuns.InvParts(s.store);
    SameReadingKeeps(s.store, s.store);
    UndisturbedStarts(s);
    AdmitLoopUndisturbed(s.store, s, EmptyPlan);
    ScheduleIs(s);
    UndisturbedShows(s.store, AdmitLoop(s, EmptyPlan).0);
  }

  lemma UndisturbedStarts(s: Sched)
    requires CacheRuns.Inv(s.store) && WaitingHaveNone(s.pending, s.store) && KeepsReadings(s.store, s.store)
    ensures Undisturbed(s.store, s)
  {}
}
