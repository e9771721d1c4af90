/** Batch plans: what one `schedule_next` does to the queues, and what it puts in the plan. */
module SchedulerPlans {
  import opened Wrappers
  import opened Arithmetic
  import opened FramePool
  import opened CacheStore
  import opened SchedulerModel
  import opened SchedulerLedger

  // ---- Victims -----------------------------------------------------------------------------

  /** The requests from position m on, newest first, as the preempted queue receives them. */
  function Victims(q: seq<Request>, m: nat): seq<Request>
    requires m <= |q|
    decreases |q| - m
  {
    if m == |q| then [] else Victims(q, m + 1) + [q[m].(state := Preempted)]
  }

  /** Since s0: the oldest active requests survive in order, then come those admitted in this call. */
  ghost predicate Shed(s0: Sched, s: Sched, news: seq<Request>) {
    && |news| <= |s.active| <= |s0.active| + |news|
    && var m := |s.active| - |news|;
       && s.active == s0.active[..m] + news
       && s.preempted == s0.preempted + Victims(s0.active, m)
       && s.cfg == s0.cfg
  }

  lemma PreemptSheds(s0: Sched, s: Sched, news: seq<Request>, reason: string)
    requires Books(s) && Shed(s0, s, news) && |s.active| > |news|
    ensures var (s1, ok) := Preempt(s, s.active[|s.active| - |news| - 1].id, reason);
            ok && Books(s1) && Shed(s0, s1, news) && TrackedIds(s1) == TrackedIds(s)
  {
    hide FindRequest, Preempt, Ids, Books, Victims;
    var m := |s.active| - |news| - 1;
    var id := s.active[m].id;
    BooksShow(s, id);
    FindIsExact(s.active, m);
    PreemptKeepsBooks(s, id, reason);
    PreemptIs(s, id, reason, m);
    OneMoreVictim(s0.active, m);
    var s1 := Preempt(s, id, reason).0;
    RemovedBefore(s0.active, m, news);
    assert s1.preempted == s0.preempted + (Victims(s0.active, m + 1) + [s0.active[m].(state := Preempted)]);
  }

  lemma BooksShow(s: Sched, id: nat)
    requires Books(s)
    ensures ValidPool(s.store.pool) && Ids(s.active)[id] <= 1 && Unique(s)
  {
    UniqueQueues(s, id);
  }

  lemma OneMoreVictim(q: seq<Request>, m: nat)
    requires m < |q|
    ensures Victims(q, m) == Victims(q, m + 1) + [q[m].(state := Preempted)]
  {}

  lemma RemovedBefore(q: seq<Request>, m: nat, news: seq<Request>)
    requires m < |q|
    ensures Removed(q[..m + 1] + news, m) == q[..m] + news
  {}

  /** One round of the reclaim loop. */
  lemma ReclaimStep(s: Sched, needed: nat, required: nat, admitted: nat)
    requires ValidPool(s.store.pool)
    ensures ReclaimLoop(s, needed, required, admitted) ==
            if |s.active| <= admitted || (FreeFrames(s) >= required && s.held + needed <= TotalFrames(s)) then s
            else
              var (s1, ok) := Preempt(s, s.active[|s.active| - admitted - 1].id, WatermarkReason);
              if !ok || FreeFrames(s1) <= FreeFrames(s) then s1 else ReclaimLoop(s1, needed, required, admitted)
  {
    hide Preempt, ValidPool;
  }

  lemma {:induction false} ReclaimSheds(s0: Sched, s: Sched, news: seq<Request>, needed: nat, required: nat)
    requires Books(s) && Shed(s0, s, news)
    ensures ValidPool(s.store.pool)
    ensures var s' := ReclaimLoop(s, needed, required, |news|);
            Books(s') && Shed(s0, s', news) && TrackedIds(s') == TrackedIds(s)
    decreases |s.active|
  {
    hide *;
    BooksShow(s, 0);
    ShedShows(s0, s, news);
    ReclaimStep(s, needed, required, |news|);
    if |s.active| > |news| && !(FreeFrames(s) >= required && s.held + needed <= TotalFrames(s)) {
      PreemptSheds(s0, s, news, WatermarkReason);
      var (s1, ok) := Preempt(s, s.active[|s.active| - |news| - 1].id, WatermarkReason);
      if FreeFrames(s1) > FreeFrames(s) {
        ReclaimSheds(s0, s1, news, needed, required);
      }
    }
  }

  lemma ShedShows(s0: Sched, s: Sched, news: seq<Request>)
    requires Shed(s0, s, news)
    ensures |news| <= |s.active| && s.cfg == s0.cfg
  {}

  lemma ReclaimKeeps(s0: Sched, s: Sched, c: Request, news: seq<Request>)
    requires Books(s) && Shed(s0, s, news)
    ensures ValidPool(s.store.pool)
    ensures var s' := ReclaimForAdmission(s, c.prompt, c.maxDecode, |news|);
            Books(s') && Shed(s0, s', news) && TrackedIds(s') == TrackedIds(s)
  {
    hide Books, Shed, ReclaimLoop, BlocksForTokens;
    BooksShow(s, 0);
    ReclaimSheds(s0, s, news, BlocksForTokens(s.store.pool, c.prompt + c.maxDecode),
                 Min(BlocksForTokens(s.store.pool, c.prompt + c.maxDecode) + s.cfg.watermark, TotalFrames(s)));
  }

  // ---- One admission attempt -----------------------------------------------------------------

  /** How a request looks once admitted. */
  ghost predicate AdmittedAs(c: Request, c1: Request) {
    c1 == c.(lifetime := c1.lifetime, state := Prefill) && c1.remaining == c.prompt
  }

  /** The shapes an attempt can end in, with s1 the scheduler after reclaiming. */
  lemma TryAdmitCases(s: Sched, c: Request, plan: Plan, admitted: nat)
    requires ValidPool(s.store.pool)
    ensures var r := TryAdmit(s, c, plan, admitted);
            var s1 := ReclaimForAdmission(s, c.prompt, c.maxDecode, admitted);
            var placed := s1.(store := Place(s1.store, c).0);
            var needed := LifetimeBlocksFor(s.store, c);
            && (r.2.None? ==> r.1 == plan && (r.0 == s || r.0 == s1 || r.0 == placed))
            && (r.2.Some? ==>
                  && plan.scheduled < s.cfg.maxBatch
                  && r.0 == placed.(held := placed.held + needed)
                  && r.2.value == c.(lifetime := needed, state := Prefill, remaining := if c.remaining == 0 then c.prompt else c.remaining)
                  && r.1 == PrefillChunk(r.2.value, plan, s.cfg.maxBatch))
  {
    hide ReclaimForAdmission, Place, LifetimeBlocksFor, PrefillChunk, ValidPool;
  }

  /** Refused: only victims moved.  Admitted: the ledger holds the newcomer's lifetime as well. */
  lemma TryAdmitIs(s0: Sched, s: Sched, c: Request, plan: Plan, news: seq<Request>)
    requires Books(s) && Shed(s0, s, news) && WaitingOk(c)
    ensures ValidPool(s.store.pool)
    ensures var (s1, plan1, r) := TryAdmit(s, c, plan, |news|);
            && TrackedIds(s1) == TrackedIds(s) && Shed(s0, s1, news)
            && (r.None? ==> Books(s1) && plan1 == plan)
            && (r.Some? ==>
                  && AdmittedAs(c, r.value)
                  && r.value.lifetime <= s1.held && Books(s1.(held := s1.held - r.value.lifetime))
                  && plan.scheduled < s.cfg.maxBatch
                  && plan1 == PrefillChunk(r.value, plan, s.cfg.maxBatch))
  {
    hide *;
    BooksShow(s, 0);
    ReclaimKeeps(s0, s, c, news);
    TryAdmitCases(s, c, plan, |news|);
    var s' := ReclaimForAdmission(s, c.prompt, c.maxDecode, |news|);
    BooksShow(s', 0);
    BooksOnStore(s', Place(s'.store, c).0);
    ShedOnStore(s0, s', news, Place(s'.store, c).0, s'.held);
    ShedOnStore(s0, s', news, Place(s'.store, c).0, s'.held + LifetimeBlocksFor(s.store, c));
    AdmittedIs(c, LifetimeBlocksFor(s.store, c));
    assert s'.(store := Place(s'.store, c).0) == s'.(store := Place(s'.store, c).0, held := s'.held);
    var r := TryAdmit(s, c, plan, |news|);
    if r.2.Some? {
      assert r.0.(held := r.0.held - r.2.value.lifetime) == s'.(store := Place(s'.store, c).0);
    }
  }

  lemma AdmittedIs(c: Request, needed: nat)
    requires WaitingOk(c)
    ensures AdmittedAs(c, c.(lifetime := needed, state := Prefill, remaining := if c.remaining == 0 then c.prompt else c.remaining))
  {}

  lemma BooksOnStore(s: Sched, store: Store)
    requires Books(s) && ValidPool(store.pool)
    ensures Books(s.(store := store))
  {
    var s' := s.(store := store);
    assert TrackedIds(s') == TrackedIds(s);
    UniqueUnderSameIds(s, s');
  }

  lemma ShedOnStore(s0: Sched, s: Sched, news: seq<Request>, store: Store, held: nat)
    requires Shed(s0, s, news)
    ensures Shed(s0, s.(store := store, held := held), news)
    ensures TrackedIds(s.(store := store, held := held)) == TrackedIds(s)
  {}

  // ---- Moving the admitted request -------------------------------------------------------------

  lemma BumpKeepsIds(q: seq<Request>)
    ensures Ids(BumpSkips(q)) == Ids(q) && IdsOf(BumpSkips(q)) == IdsOf(q)
    ensures (forall r :: r in q ==> WaitingOk(r)) ==> forall r :: r in BumpSkips(q) ==> WaitingOk(r)
  {
    assert IdsOf(BumpSkips(q)) == IdsOf(q);
    if forall r :: r in q ==> WaitingOk(r) {
      forall r | r in BumpSkips(q)
        ensures WaitingOk(r)
      {
        var i :| 0 <= i < |q| && BumpSkips(q)[i] == r;
        assert WaitingOk(q[i]);
      }
    }
  }

  lemma SkippedQueue(q: seq<Request>, i: nat)
    requires i < |q| && forall r :: r in q ==> WaitingOk(r)
    ensures Ids(q) == Ids(BumpSkips(q[..i]) + q[i + 1..]) + multiset{q[i].id}
    ensures forall r :: r in BumpSkips(q[..i]) + q[i + 1..] ==> WaitingOk(r)
    ensures IdsOf(BumpSkips(q[..i]) + q[i + 1..]) == Removed(IdsOf(q), i)
  {
    hide Ids, BumpSkips, IdsOf, WaitingOk;
    RemovedIds(q, i);
    BumpKeepsIds(q[..i]);
    IdsAppend(q[..i], q[i + 1..]);
    IdsAppend(BumpSkips(q[..i]), q[i + 1..]);
    RemovedIdsOf(q, i);
  }

  lemma RemovedIdsOf(q: seq<Request>, i: nat)
    requires i < |q|
    ensures IdsOf(q[..i]) + IdsOf(q[i + 1..]) == Removed(IdsOf(q), i)
  {}

  lemma PendingIsWaiting(s: Sched, i: nat)
    requires Books(s) && i < |s.pending|
    ensures WaitingOk(s.pending[i])
  {}

  lemma RunningOnceAdmitted(c: Request, c1: Request)
    requires WaitingOk(c) && AdmittedAs(c, c1)
    ensures RunningOk(c1) && c1.id == c.id
  {}

  /** The move restores the books an admission left one lifetime ahead. */
  lemma MoveKeepsBooks(s: Sched, i: nat, c: Request)
    requires i < |s.pending| && WaitingOk(s.pending[i]) && AdmittedAs(s.pending[i], c)
    requires c.lifetime <= s.held && Books(s.(held := s.held - c.lifetime))
    ensures Books(MoveToActive(s, i, c))
    ensures TrackedIds(MoveToActive(s, i, c)) == TrackedIds(s)
    ensures IdsOf(MoveToActive(s, i, c).pending) == Removed(IdsOf(s.pending), i)
  {
    hide *;
    var s', t := MoveToActive(s, i, c), s.(held := s.held - c.lifetime);
    MoveFields(s, i, c);
    BooksParts(t);
    StatesShow(t);
    RunningOnceAdmitted(s.pending[i], c);
    AppendedIds(s.active, c);
    SkippedQueue(s.pending, i);
    TrackedAre(s);
    TrackedAre(t);
    TrackedAre(s');
    UniqueUnderSameIds(t, s');
    StatesAndInfo(t, s');
    BooksIffLedger(s');
    LedgerIs(s');
  }

  lemma MoveFields(s: Sched, i: nat, c: Request)
    requires i < |s.pending|
    ensures MoveToActive(s, i, c) == s.(pending := BumpSkips(s.pending[..i]) + s.pending[i + 1..], active := s.active + [c])
  {
    hide BumpSkips;
  }

  lemma StatesShow(s: Sched)
    requires StatesMatch(s)
    ensures (forall r :: r in s.pending ==> WaitingOk(r)) && (forall r :: r in s.active ==> RunningOk(r))
  {
    hide WaitingOk, RunningOk, StoppedOk;
  }

  lemma StatesAndInfo(s: Sched, s': Sched)
    requires StatesMatch(s) && InfoMatches(s) && s'.preempted == s.preempted && s'.info == s.info
    requires (forall r :: r in s'.pending ==> WaitingOk(r)) && forall r :: r in s'.active ==> RunningOk(r)
    ensures StatesMatch(s') && InfoMatches(s')
  {
    hide WaitingOk, RunningOk, StoppedOk, Ids;
  }

  lemma MoveSheds(s0: Sched, s: Sched, i: nat, c: Request, news: seq<Request>)
    requires i < |s.pending| && Shed(s0, s, news)
    ensures Shed(s0, MoveToActive(s, i, c), news + [c])
  {
    var m := |s.active| - |news|;
    assert (s0.active[..m] + news) + [c] == s0.active[..m] + (news + [c]);
  }

  // ---- Chunks ------------------------------------------------------------------------------------

  function Sum(xs: seq<nat>): nat {
    if xs == [] then 0 else xs[0] + Sum(xs[1..])
  }

  lemma {:induction false} SumAppend(xs: seq<nat>, x: nat)
    ensures Sum(xs + [x]) == Sum(xs) + x
  {
    if xs == [] {
      assert [x][1..] == [];
    } else {
      assert (xs + [x])[1..] == xs[1..] + [x];
      SumAppend(xs[1..], x);
    }
  }

  /** Request r gets a chunk: all it has left unless the budget runs out with it. */
  ghost predicate ServedBy(r: Request, chunk: nat, spare: bool) {
    r.state == Prefill && 0 < chunk <= r.remaining && (spare ==> chunk == r.remaining)
  }

  /** While admitting, the plan is exactly the newcomers' first chunks. */
  ghost predicate ServesNewcomers(plan: Plan, news: seq<Request>, maxBatch: nat) {
    && plan.prefill == IdsOf(news) && |plan.chunks| == |news| && plan.decode == []
    && plan.scheduled == Sum(plan.chunks) <= maxBatch
    && forall i :: 0 <= i < |news| ==> ServedBy(news[i], plan.chunks[i], plan.scheduled < maxBatch)
  }

  lemma NewcomerServed(plan: Plan, news: seq<Request>, c: Request, maxBatch: nat)
    requires ServesNewcomers(plan, news, maxBatch) && plan.scheduled < maxBatch
    requires c.state == Prefill && c.remaining > 0
    ensures ServesNewcomers(PrefillChunk(c, plan, maxBatch), news + [c], maxBatch)
  {
    var plan1 := PrefillChunk(c, plan, maxBatch);
    SumAppend(plan.chunks, plan1.chunks[|news|]);
    IdsAppend(news, [c]);
    forall i | 0 <= i < |news| + 1
      ensures ServedBy((news + [c])[i], plan1.chunks[i], plan1.scheduled < maxBatch)
    {
      if i < |news| {
        assert ServedBy(news[i], plan.chunks[i], plan.scheduled < maxBatch);
      }
    }
  }

  // ---- The admission loop --------------------------------------------------------------------------

  /** What is left of, and what was taken from, a queue after picking positions one after the other. */
  function Left<T>(xs: seq<T>, picks: seq<nat>): seq<T>
    requires ValidPicks(|xs|, picks)
    decreases |picks|
  {
    if picks == [] then xs else Left(Removed(xs, picks[0]), picks[1..])
  }

  function Taken<T>(xs: seq<T>, picks: seq<nat>): seq<T>
    requires ValidPicks(|xs|, picks)
    decreases |picks|
  {
    if picks == [] then [] else [xs[picks[0]]] + Taken(Removed(xs, picks[0]), picks[1..])
  }

  predicate ValidPicks(n: nat, picks: seq<nat>)
    decreases |picks|
  {
    picks == [] || (picks[0] < n && ValidPicks(n - 1, picks[1..]))
  }

  /** Everything that holds between admissions of one call. */
  ghost predicate Admitting(s0: Sched, s: Sched, plan: Plan, news: seq<Request>) {
    && Books(s) && Shed(s0, s, news) && TrackedIds(s) == TrackedIds(s0)
    && ServesNewcomers(plan, news, s0.cfg.maxBatch)
    && (forall r :: r in s.pending ==> r.prompt > 0)
    && (|s.active| <= |s0.active| || |s.active| <= s0.cfg.maxActive)
  }

  /** A round found position i, whose request enters as c; or nobody, and only victims moved. */
  ghost predicate RoundEnds(s0: Sched, s: Sched, plan: Plan, news: seq<Request>, s1: Sched, plan1: Plan, pick: Option<(nat, Request)>) {
    && s1.pending == s.pending && Shed(s0, s1, news) && TrackedIds(s1) == TrackedIds(s)
    && |s1.active| <= |s.active|
    && (pick.None? ==> Books(s1) && plan1 == plan)
    && (pick.Some? ==>
          && var (i, c) := pick.value;
             && i < |s.pending| && AdmittedAs(s.pending[i], c)
             && c.lifetime <= s1.held && Books(s1.(held := s1.held - c.lifetime))
             && plan.scheduled < s0.cfg.maxBatch
             && plan1 == PrefillChunk(c, plan, s0.cfg.maxBatch))
  }

  lemma AdmittingShows(s0: Sched, s: Sched, plan: Plan, news: seq<Request>)
    requires Admitting(s0, s, plan, news)
    ensures ValidPool(s.store.pool) && s.cfg == s0.cfg && |plan.prefill| == |news|
    ensures Books(s) && Shed(s0, s, news)
  {}

  lemma AttemptIs(s0: Sched, s: Sched, plan: Plan, news: seq<Request>, i: nat)
    requires Admitting(s0, s, plan, news) && i < |s.pending|
    ensures ValidPool(s.store.pool) && |plan.prefill| == |news|
    ensures var (s1, plan1, r) := TryAdmit(s, s.pending[i], plan, |news|);
            && RoundEnds(s0, s, plan, news, s1, plan1, if r.Some? then Some((i, r.value)) else None)
            && (r.None? ==> Admitting(s0, s1, plan, news))
  {
    hide *;
    AdmittingShows(s0, s, plan, news);
    PendingIsWaiting(s, i);
    TryAdmitIs(s0, s, s.pending[i], plan, news);
    TryAdmitShrinks(s, s.pending[i], plan, |news|);
    var (s1, plan1, r) := TryAdmit(s, s.pending[i], plan, |news|);
    RoundFrom(s0, s, plan, news, s1, plan1, if r.Some? then Some((i, r.value)) else None);
    if r.None? {
      RefusedRound(s0, s, plan, news, s1, plan1);
    }
  }

  lemma RoundFrom(s0: Sched, s: Sched, plan: Plan, news: seq<Request>, s1: Sched, plan1: Plan, pick: Option<(nat, Request)>)
    requires s1.pending == s.pending && Shed(s0, s1, news) && TrackedIds(s1) == TrackedIds(s)
    requires |s1.active| <= |s.active|
    requires pick.None? ==> Books(s1) && plan1 == plan
    requires pick.Some? ==>
               && var (i, c) := pick.value;
                  && i < |s.pending| && AdmittedAs(s.pending[i], c)
                  && c.lifetime <= s1.held && Books(s1.(held := s1.held - c.lifetime))
                  && plan.scheduled < s0.cfg.maxBatch
                  && plan1 == PrefillChunk(c, plan, s0.cfg.maxBatch)
    ensures RoundEnds(s0, s, plan, news, s1, plan1, pick)
  {}

  lemma {:induction false} ReclaimShrinks(s: Sched, needed: nat, required: nat, admitted: nat)
    requires ValidPool(s.store.pool)
    ensures |ReclaimLoop(s, needed, required, admitted).active| <= |s.active|
    decreases |s.active|
  {
    hide Preempt;
    if |s.active| > admitted && !(FreeFrames(s) >= required && s.held + needed <= TotalFrames(s)) {
      var (s1, ok) := Preempt(s, s.active[|s.active| - admitted - 1].id, WatermarkReason);
      if ok && FreeFrames(s1) > FreeFrames(s) {
        ReclaimShrinks(s1, needed, required, admitted);
      }
    }
  }

  lemma ReclaimForAdmissionShrinks(s: Sched, c: Request, admitted: nat)
    requires ValidPool(s.store.pool)
    ensures |ReclaimForAdmission(s, c.prompt, c.maxDecode, admitted).active| <= |s.active|
  {
    hide ReclaimLoop, BlocksForTokens, ValidPool;
    var needed := BlocksForTokens(s.store.pool, c.prompt + c.maxDecode);
    ReclaimShrinks(s, needed, Min(needed + s.cfg.watermark, TotalFrames(s)), admitted);
  }

  lemma TryAdmitShrinks(s: Sched, c: Request, plan: Plan, admitted: nat)
    requires ValidPool(s.store.pool)
    ensures |TryAdmit(s, c, plan, admitted).0.active| <= |s.active|
  {
    hide *;
    ReclaimForAdmissionShrinks(s, c, admitted);
    TryAdmitCases(s, c, plan, admitted);
  }

  lemma {:induction false} ScanIs(s0: Sched, s: Sched, plan: Plan, news: seq<Request>, i: nat)
    requires Admitting(s0, s, plan, news) && i <= |s.pending|
    ensures ValidPool(s.store.pool)
    ensures var (s1, plan1, pick) := Scan(s, plan, i);
            RoundEnds(s0, s, plan, news, s1, plan1, pick)
    decreases |s.pending| - i
  {
    hide TryAdmit, Admitting, RoundEnds, ValidPool;
    AdmittingShows(s0, s, plan, news);
    if i == |s.pending| {
      NobodyPicked(s0, s, plan, news);
    } else {
      AttemptIs(s0, s, plan, news, i);
      var (s1, plan1, r) := TryAdmit(s, s.pending[i], plan, |news|);
      if r.None? {
        ScanIs(s0, s1, plan, news, i + 1);
        var (s2, plan2, pick) := Scan(s1, plan, i + 1);
        RoundAfterRefusal(s0, s, plan, news, s1, s2, plan2, pick);
      }
    }
  }

  lemma NobodyPicked(s0: Sched, s: Sched, plan: Plan, news: seq<Request>)
    requires Admitting(s0, s, plan, news)
    ensures RoundEnds(s0, s, plan, news, s, plan, None)
  {}

  lemma RoundAfterRefusal(s0: Sched, s: Sched, plan: Plan, news: seq<Request>, s1: Sched, s2: Sched, plan2: Plan, pick: Option<(nat, Request)>)
    requires RoundEnds(s0, s, plan, news, s1, plan, None)
    requires RoundEnds(s0, s1, plan, news, s2, plan2, pick)
    ensures RoundEnds(s0, s, plan, news, s2, plan2, pick)
  {
    hide Books, Shed, AdmittedAs, TrackedIds, PrefillChunk;
  }

  lemma PickIs(s0: Sched, s: Sched, plan: Plan, news: seq<Request>)
    requires Admitting(s0, s, plan, news) && s.pending != []
    ensures ValidPool(s.store.pool)
    ensures var (s1, plan1, pick) := Pick(s, plan);
            RoundEnds(s0, s, plan, news, s1, plan1, pick)
  {
    hide TryAdmit, Admitting, RoundEnds, ValidPool, Scan;
    AdmittingShows(s0, s, plan, news);
    AttemptIs(s0, s, plan, news, 0);
    ScanIs(s0, s, plan, news, 0);
  }

  lemma MoveKeepsAdmitting(s0: Sched, s: Sched, plan: Plan, news: seq<Request>, s1: Sched, plan1: Plan, i: nat, c: Request)
    requires Admitting(s0, s, plan, news) && |s.active| < s0.cfg.maxActive
    requires RoundEnds(s0, s, plan, news, s1, plan1, Some((i, c)))
    ensures Admitting(s0, MoveToActive(s1, i, c), plan1, news + [c])
    ensures IdsOf(MoveToActive(s1, i, c).pending) == Removed(IdsOf(s.pending), i)
    ensures c.id == s.pending[i].id
  {
    hide Books, Shed, ServesNewcomers, TrackedIds, PrefillChunk, IdsOf, BumpSkips;
    BooksShowWaiting(s, i);
    MoveSheds(s0, s1, i, c, news);
    MoveKeepsBooks(s1, i, c);
    PromptsStay(s, i);
    assert c.state == Prefill && c.remaining == s.pending[i].prompt > 0;
    assert c.remaining > 0;
    NewcomerServed(plan, news, c, s0.cfg.maxBatch);
  }

  lemma BooksShowWaiting(s: Sched, i: nat)
    requires Books(s) && i < |s.pending|
    ensures WaitingOk(s.pending[i])
  {}

  lemma PromptsStay(s: Sched, i: nat)
    requires i < |s.pending| && forall r :: r in s.pending ==> r.prompt > 0
    ensures forall r :: r in BumpSkips(s.pending[..i]) + s.pending[i + 1..] ==> r.prompt > 0
    ensures s.pending[i].prompt > 0
  {
    forall r | r in BumpSkips(s.pending[..i]) + s.pending[i + 1..]
      ensures r.prompt > 0
    {
      if r in BumpSkips(s.pending[..i]) {
        var k :| 0 <= k < i && BumpSkips(s.pending[..i])[k] == r;
        assert s.pending[k].prompt > 0;
      }
    }
  }

  /** The whole admission phase, from any point on. */
  lemma {:induction false} AdmitLoopIs(s0: Sched, s: Sched, plan: Plan, news: seq<Request>)
    requires Admitting(s0, s, plan, news)
    ensures ValidPool(s.store.pool)
    ensures var (s', plan', picks) := AdmitLoop(s, plan);
            && ValidPicks(|s.pending|, picks)
            && |s'.active| >= |news| + |picks|
            && var news' := s'.active[|s'.active| - |news| - |picks|..];
               && Admitting(s0, s', plan', news')
               && IdsOf(s'.pending) == Left(IdsOf(s.pending), picks)
               && IdsOf(news') == IdsOf(news) + Taken(IdsOf(s.pending), picks)
    decreases |s.pending|
  {
    hide Admitting, RoundEnds, ValidPool, Pick, MoveToActive, IdsOf;
    AdmittingShows(s0, s, plan, news);
    if s.pending == [] || |s.active| >= s.cfg.maxActive {
      NothingMore(s0, s, plan, news);
    } else {
      PickIs(s0, s, plan, news);
      var (s1, plan1, pick) := Pick(s, plan);
      if pick.None? {
        RefusedRound(s0, s, plan, news, s1, plan1);
        NothingMore(s0, s1, plan, news);
      } else {
        var (i, c) := pick.value;
        MoveKeepsAdmitting(s0, s, plan, news, s1, plan1, i, c);
        var s2 := MoveToActive(s1, i, c);
        MovedLengths(s1, i, c);
        AdmitLoopIs(s0, s2, plan1, news + [c]);
        var (s', plan', picks) := AdmitLoop(s2, plan1);
        IdsAppend(news, [c]);
        SingleId(c);
        IdAt(s.pending, i);
        OneMoreTaken(IdsOf(s.pending), i, picks, IdsOf(news));
        assert |news + [c]| == |news| + 1;
      }
    }
  }

  lemma MovedLengths(s: Sched, i: nat, c: Request)
    requires i < |s.pending|
    ensures |MoveToActive(s, i, c).pending| == |s.pending| - 1
    ensures MoveToActive(s, i, c).cfg == s.cfg && MoveToActive(s, i, c).store == s.store
  {}

  lemma IdAt(q: seq<Request>, i: nat)
    requires i < |q|
    ensures IdsOf(q)[i] == q[i].id
  {}

  lemma SingleId(c: Request)
    ensures IdsOf([c]) == [c.id]
  {}

  lemma OneMoreTaken<T>(xs: seq<T>, i: nat, picks: seq<nat>, done: seq<T>)
    requires i < |xs| && ValidPicks(|xs| - 1, picks)
    ensures ValidPicks(|xs|, [i] + picks)
    ensures Left(xs, [i] + picks) == Left(Removed(xs, i), picks)
    ensures (done + [xs[i]]) + Taken(Removed(xs, i), picks) == done + Taken(xs, [i] + picks)
  {
    assert ([i] + picks)[1..] == picks;
  }

  lemma NothingMore(s0: Sched, s: Sched, plan: Plan, news: seq<Request>)
    requires Admitting(s0, s, plan, news)
    ensures |s.active| >= |news| && s.active[|s.active| - |news|..] == news
    ensures ValidPicks(|s.pending|, []) && Left(IdsOf(s.pending), []) == IdsOf(s.pending)
    ensures IdsOf(news) + Taken(IdsOf(s.pending), []) == IdsOf(news)
  {}

  lemma RefusedRound(s0: Sched, s: Sched, plan: Plan, news: seq<Request>, s1: Sched, plan1: Plan)
    requires Admitting(s0, s, plan, news) && RoundEnds(s0, s, plan, news, s1, plan1, None)
    ensures plan1 == plan && Admitting(s0, s1, plan, news) && s1.pending == s.pending
  {
    hide Books, Shed, ServesNewcomers, TrackedIds;
  }

  // ---- The plan ------------------------------------------------------------------------------------------

  /** Chunk i of the plan is work of one active request. */
  ghost predicate ServesActive(plan: Plan, active: seq<Request>, i: nat, maxBatch: nat)
    requires i < |plan.prefill| == |plan.chunks|
  {
    exists k :: 0 <= k < |active| && active[k].id == plan.prefill[i]
                && ServedBy(active[k], plan.chunks[i], plan.scheduled < maxBatch)
  }

  ghost predicate DistinctIds(ids: seq<nat>) {
    forall i, j :: 0 <= i < j < |ids| ==> ids[i] != ids[j]
  }

  /** The prefill half of a plan over an active queue, before any decode is planned. */
  ghost predicate PrefillOk(plan: Plan, active: seq<Request>, maxBatch: nat) {
    && |plan.chunks| == |plan.prefill| && DistinctIds(plan.prefill) && plan.decode == []
    && plan.scheduled == Sum(plan.chunks) <= maxBatch
    && forall i :: 0 <= i < |plan.prefill| ==> ServesActive(plan, active, i, maxBatch)
  }

  lemma UniqueIdsDistinct(q: seq<Request>)
    requires forall id :: Ids(q)[id] <= 1
    ensures DistinctIds(IdsOf(q))
  {
    forall i, j | 0 <= i < j < |q|
      ensures q[i].id != q[j].id
    {
      FindIsExact(q, i);
      FindIsExact(q, j);
    }
  }

  lemma NewcomersAreActive(plan: Plan, q: seq<Request>, m: nat, maxBatch: nat)
    requires m <= |q| && ServesNewcomers(plan, q[m..], maxBatch) && DistinctIds(IdsOf(q))
    ensures PrefillOk(plan, q, maxBatch)
  {
    var news := q[m..];
    forall i | 0 <= i < |news|
      ensures ServesActive(plan, q, i, maxBatch) && IdsOf(news)[i] == IdsOf(q)[m + i]
    {
      assert news[i] == q[m + i];
    }
  }

  lemma ChunkKeepsPrefillOk(plan: Plan, active: seq<Request>, k: nat, maxBatch: nat)
    requires PrefillOk(plan, active, maxBatch) && k < |active| && active[k].state == Prefill
    requires active[k].id !in plan.prefill
    ensures PrefillOk(PrefillChunk(active[k], plan, maxBatch), active, maxBatch)
  {
    var r := active[k];
    var plan1 := PrefillChunk(r, plan, maxBatch);
    if plan1 != plan {
      var n := |plan.prefill|;
      SumAppend(plan.chunks, plan1.chunks[n]);
      assert ServedBy(active[k], plan1.chunks[n], plan1.scheduled < maxBatch);
      forall i | 0 <= i < n + 1
        ensures ServesActive(plan1, active, i, maxBatch)
      {
        if i < n {
          assert ServesActive(plan, active, i, maxBatch);
          var j :| 0 <= j < |active| && active[j].id == plan.prefill[i] && ServedBy(active[j], plan.chunks[i], plan.scheduled < maxBatch);
          assert ServedBy(active[j], plan1.chunks[i], plan1.scheduled < maxBatch);
        }
      }
    }
  }

  /** Everyone in q with prefill left is in the plan, unless the budget is spent. */
  ghost predicate NobodyWaits(plan: Plan, q: seq<Request>, maxBatch: nat) {
    plan.scheduled < maxBatch ==> forall r :: r in q && r.state == Prefill && r.remaining > 0 ==> r.id in plan.prefill
  }

  lemma {:induction false} PlanPrefillIs(plan: Plan, active: seq<Request>, k: nat, maxBatch: nat)
    requires k <= |active| && PrefillOk(plan, active, maxBatch) && NobodyWaits(plan, active[..k], maxBatch)
    ensures var plan' := PlanPrefill(active[k..], plan, maxBatch);
            PrefillOk(plan', active, maxBatch) && NobodyWaits(plan', active, maxBatch)
    decreases |active| - k
  {
    hide PrefillOk;
    if k == |active| {
      assert active[..k] == active;
    } else {
      var r := active[k];
      var plan1 := if r.state == Prefill && r.id !in plan.prefill then PrefillChunk(r, plan, maxBatch) else plan;
      if plan1 != plan {
        ChunkKeepsPrefillOk(plan, active, k, maxBatch);
      }
      assert active[k..][1..] == active[k + 1..];
      assert active[..k + 1] == active[..k] + [r];
      ChunkServes(r, plan, maxBatch);
      PlanPrefillIs(plan1, active, k + 1, maxBatch);
    }
  }

  lemma ChunkServes(r: Request, plan: Plan, maxBatch: nat)
    ensures var plan1 := PrefillChunk(r, plan, maxBatch);
            && plan.scheduled <= plan1.scheduled && plan.prefill <= plan1.prefill
            && (plan1.scheduled < maxBatch && r.remaining > 0 ==> r.id in plan1.prefill)
  {
    if r.remaining > 0 && plan.scheduled < maxBatch {
      assert PrefillChunk(r, plan, maxBatch).prefill[|plan.prefill|] == r.id;
    }
  }

  function DecodeIds(q: seq<Request>): seq<nat> {
    if q == [] then []
    else (if q[0].state == Decode then [q[0].id] else []) + DecodeIds(q[1..])
  }

  /** One token for each decoding request, oldest first, as far as the budget goes. */
  lemma {:induction false} PlanDecodeIs(q: seq<Request>, plan: Plan, maxBatch: nat)
    requires plan.scheduled <= maxBatch
    ensures var n := Min(|DecodeIds(q)|, maxBatch - plan.scheduled);
            PlanDecode(q, plan, maxBatch) ==
            plan.(decode := plan.decode + DecodeIds(q)[..n], scheduled := plan.scheduled + n)
    decreases |q|
  {
    if q == [] {
    } else if q[0].state != Decode {
      PlanDecodeIs(q[1..], plan, maxBatch);
      assert DecodeIds(q) == DecodeIds(q[1..]);
    } else if plan.scheduled < maxBatch {
      PlanDecodeIs(q[1..], plan.(decode := plan.decode + [q[0].id], scheduled := plan.scheduled + 1), maxBatch);
      var n := Min(|DecodeIds(q[1..])|, maxBatch - plan.scheduled - 1);
      assert DecodeIds(q)[..n + 1] == [q[0].id] + DecodeIds(q[1..])[..n];
    }
  }

  lemma {:induction false} DecodeIdsAre(q: seq<Request>, id: nat)
    ensures id in DecodeIds(q) <==> exists k :: 0 <= k < |q| && q[k].id == id && q[k].state == Decode
  {
    if q != [] {
      DecodeIdsAre(q[1..], id);
      if k :| 0 <= k < |q| && q[k].id == id && q[k].state == Decode {
        assert k > 0 ==> q[1..][k - 1] == q[k];
      }
      if k :| 0 <= k < |q[1..]| && q[1..][k].id == id && q[1..][k].state == Decode {
        assert q[k + 1] == q[1..][k];
      }
    }
  }

  lemma {:induction false} DecodeIdsDistinct(q: seq<Request>)
    requires DistinctIds(IdsOf(q))
    ensures DistinctIds(DecodeIds(q))
  {
    if q != [] {
      assert forall i :: 0 <= i < |q[1..]| ==> IdsOf(q[1..])[i] == IdsOf(q)[i + 1];
      DecodeIdsDistinct(q[1..]);
      DecodeIdsAre(q[1..], q[0].id);
      assert forall k :: 0 <= k < |q[1..]| ==> q[1..][k].id == IdsOf(q)[k + 1] != IdsOf(q)[0] == q[0].id;
    }
  }

  /** A complete plan over the active queue it was made for. */
  ghost predicate PlanOk(plan: Plan, active: seq<Request>, maxBatch: nat) {
    && |plan.chunks| == |plan.prefill|
    && plan.scheduled == Sum(plan.chunks) + |plan.decode| <= maxBatch
    && DistinctIds(plan.prefill + plan.decode)
    && (forall i :: 0 <= i < |plan.prefill| ==> ServesActive(plan, active, i, maxBatch))
    && plan.decode == DecodeIds(active)[..Min(|DecodeIds(active)|, maxBatch - Sum(plan.chunks))]
    && (plan.scheduled < maxBatch ==>
          forall r :: r in active && (r.state == Decode || r.remaining > 0) ==> r.id in plan.prefill + plan.decode)
  }

  /** Planning decodes leaves the chunks alone: each still serves its request. */
  lemma StillServes(plan: Plan, plan': Plan, active: seq<Request>, maxBatch: nat)
    requires DistinctIds(IdsOf(active)) && PrefillOk(plan, active, maxBatch)
    requires plan'.prefill == plan.prefill && plan'.chunks == plan.chunks && plan.scheduled <= plan'.scheduled
    ensures forall i :: 0 <= i < |plan.prefill| ==> ServesActive(plan', active, i, maxBatch)
    ensures forall id :: id in plan.prefill ==> id !in DecodeIds(active)
  {
    forall i | 0 <= i < |plan.prefill|
      ensures ServesActive(plan', active, i, maxBatch)
      ensures plan.prefill[i] !in DecodeIds(active)
    {
      assert ServesActive(plan, active, i, maxBatch);
      var k :| 0 <= k < |active| && active[k].id == plan.prefill[i] && ServedBy(active[k], plan.chunks[i], plan.scheduled < maxBatch);
      assert ServedBy(active[k], plan.chunks[i], plan'.scheduled < maxBatch);
      DecodeIdsAre(active, plan.prefill[i]);
      assert forall j :: 0 <= j < |active| && j != k ==> active[j].id == IdsOf(active)[j] != IdsOf(active)[k] == active[k].id;
    }
  }

  lemma NobodyIsLeftOut(plan: Plan, active: seq<Request>, maxBatch: nat)
    requires NobodyWaits(plan, active, maxBatch) && (forall r :: r in active ==> RunningOk(r)) && plan.scheduled < maxBatch
    ensures forall r :: r in active && (r.state == Decode || r.remaining > 0) ==> r.id in plan.prefill + DecodeIds(active)
  {
    forall r | r in active && (r.state == Decode || r.remaining > 0)
      ensures r.id in plan.prefill + DecodeIds(active)
    {
      assert RunningOk(r);
      if r.state == Decode {
        DecodeIdsAre(active, r.id);
        assert exists k :: 0 <= k < |active| && active[k] == r;
      }
    }
  }

  lemma DecodesJoin(plan: Plan, active: seq<Request>, maxBatch: nat)
    requires DistinctIds(IdsOf(active)) && (forall r :: r in active ==> RunningOk(r))
    requires PrefillOk(plan, active, maxBatch) && NobodyWaits(plan, active, maxBatch)
    ensures PlanOk(PlanDecode(active, plan, maxBatch), active, maxBatch)
  {
    hide DecodeIds, PlanDecode, PrefillOk, ServesActive, NobodyWaits, RunningOk, Sum, IdsOf;
    var plan' := PlanDecode(active, plan, maxBatch);
    PrefillShows(plan, active, maxBatch);
    PlanDecodeIs(active, plan, maxBatch);
    DecodeIdsDistinct(active);
    StillServes(plan, plan', active, maxBatch);
    DistinctJoin(plan.prefill, plan'.decode);
    if plan'.scheduled < maxBatch {
      NobodyIsLeftOut(plan, active, maxBatch);
      assert plan'.decode == DecodeIds(active);
    }
  }

  lemma PrefillShows(plan: Plan, active: seq<Request>, maxBatch: nat)
    requires PrefillOk(plan, active, maxBatch)
    ensures |plan.chunks| == |plan.prefill| && DistinctIds(plan.prefill) && plan.decode == []
    ensures plan.scheduled == Sum(plan.chunks) <= maxBatch
  {}

  lemma DistinctJoin(a: seq<nat>, b: seq<nat>)
    requires DistinctIds(a) && DistinctIds(b) && forall x :: x in a ==> x !in b
    ensures DistinctIds(a + b)
  {
    forall i, j | 0 <= i < j < |a + b|
      ensures (a + b)[i] != (a + b)[j]
    {
      if i < |a| <= j {
        assert (a + b)[i] in a && (a + b)[j] in b;
      }
    }
  }

  ghost predicate PromptsPositive(s: Sched) {
    forall r :: r in s.pending ==> r.prompt > 0
  }

  /** What a call to `schedule_next` did: who was preempted, who was admitted, what is planned. */
  ghost predicate Scheduled(s: Sched, s': Sched, plan: Plan, picks: seq<nat>) {
    && Books(s') && PromptsPositive(s') && TrackedIds(s') == TrackedIds(s)
    && PlanOk(plan, s'.active, s.cfg.maxBatch)
    && (|s'.active| <= |s.active| || |s'.active| <= s.cfg.maxActive)
    && ValidPicks(|s.pending|, picks) && |picks| <= |s'.active|
    && var news := s'.active[|s'.active| - |picks|..];
       && Shed(s, s', news)
       && IdsOf(s'.pending) == Left(IdsOf(s.pending), picks)
       && IdsOf(news) == Taken(IdsOf(s.pending), picks)
  }

  lemma AdmittingStarts(s: Sched)
    requires Books(s) && PromptsPositive(s)
    ensures Admitting(s, s, EmptyPlan, [])
  {}

  /**
    Main result on plans: the budget is kept and spent, chunks are positive and within what their
    request has left, ids are distinct and active on return, decodes are the oldest decoding
    requests, victims are exactly the newest previously active requests, newest first, and the
    admitted requests are the picked ones, in order.
   */
  lemma PlansAreWellFormed(s: Sched)
    requires Books(s) && PromptsPositive(s)
    ensures ValidPool(s.store.pool)
    ensures var (s', plan) := ScheduleNext(s);
            Scheduled(s, s', plan, AdmitLoop(s, EmptyPlan).2)
  {
    hide *;
    BooksShow(s, 0);
    AdmittingStarts(s);
    AdmitLoopIs(s, s, EmptyPlan, []);
    var (s', plan1, picks) := AdmitLoop(s, EmptyPlan);
    var news := s'.active[|s'.active| - |picks|..];
    assert |s'.active| - 0 - |picks| == |s'.active| - |picks|;
    AdmittedPlan(s, s', plan1, news);
    PlanPrefillFrom(plan1, s'.active, s.cfg.maxBatch);
    var plan2 := PlanPrefill(s'.active, plan1, s.cfg.maxBatch);
    DecodesJoin(plan2, s'.active, s.cfg.maxBatch);
    ScheduleIs(s);
    NoIds();
    assert [] + Taken(IdsOf(s.pending), picks) == Taken(IdsOf(s.pending), picks);
    ScheduledFrom(s, s', ScheduleNext(s).1, picks);
  }

  lemma NoIds()
    ensures IdsOf([]) == []
  {}

  lemma ScheduleIs(s: Sched)
    requires ValidPool(s.store.pool)
    ensures var (s', plan1, _) := AdmitLoop(s, EmptyPlan);
            ScheduleNext(s) == (s', PlanDecode(s'.active, PlanPrefill(s'.active, plan1, s.cfg.maxBatch), s.cfg.maxBatch))
  {
    hide AdmitLoop, PlanDecode, PlanPrefill;
  }

  lemma AdmittedPlan(s: Sched, s': Sched, plan: Plan, news: seq<Request>)
    requires Admitting(s, s', plan, news)
    ensures |news| <= |s'.active| && news == s'.active[|s'.active| - |news|..]
    ensures Books(s') && PromptsPositive(s') && Shed(s, s', news) && TrackedIds(s') == TrackedIds(s)
    ensures |s'.active| <= |s.active| || |s'.active| <= s.cfg.maxActive
    ensures PrefillOk(plan, s'.active, s.cfg.maxBatch)
    ensures DistinctIds(IdsOf(s'.active)) && forall r :: r in s'.active ==> RunningOk(r)
  {
    hide Ids, TrackedIds, RunningOk;
    forall id
      ensures Ids(s'.active)[id] <= 1
    {
      UniqueQueues(s', id);
    }
    UniqueIdsDistinct(s'.active);
    NewcomersAreActive(plan, s'.active, |s'.active| - |news|, s.cfg.maxBatch);
  }

  lemma PlanPrefillFrom(plan: Plan, active: seq<Request>, maxBatch: nat)
    requires PrefillOk(plan, active, maxBatch)
    ensures var plan' := PlanPrefill(active, plan, maxBatch);
            PrefillOk(plan', active, maxBatch) && NobodyWaits(plan', active, maxBatch)
  {
    assert active[0..] == active;
    assert NobodyWaits(plan, active[..0], maxBatch);
    hide PrefillOk, NobodyWaits, PlanPrefill;
    PlanPrefillIs(plan, active, 0, maxBatch);
  }

  lemma ScheduledFrom(s: Sched, s': Sched, plan: Plan, picks: seq<nat>)
    requires Books(s') && PromptsPositive(s') && TrackedIds(s') == TrackedIds(s)
    requires PlanOk(plan, s'.active, s.cfg.maxBatch)
    requires |s'.active| <= |s.active| || |s'.active| <= s.cfg.maxActive
    requires ValidPicks(|s.pending|, picks) && |picks| <= |s'.active|
    requires var news := s'.active[|s'.active| - |picks|..];
             && Shed(s, s', news)
             && IdsOf(s'.pending) == Left(IdsOf(s.pending), picks)
             && IdsOf(news) == Taken(IdsOf(s.pending), picks)
    ensures Scheduled(s, s', plan, picks)
  {}

  /** No planned request was preempted by the call that planned it, or by any call before. */
  lemma PlannedIsNotPreempted(s: Sched, s': Sched, plan: Plan, picks: seq<nat>, id: nat)
    requires Scheduled(s, s', plan, picks) && id in plan.prefill + plan.decode
    ensures id in Ids(s'.active) && id !in s'.info && id !in Ids(s'.preempted) && id !in Ids(s'.pending)
  {
    PlannedIsActive(plan, s'.active, s.cfg.maxBatch, id);
    IdIn(s'.active, id);
    UniqueQueues(s', id);
  }

  lemma PlannedIsActive(plan: Plan, active: seq<Request>, maxBatch: nat, id: nat)
    requires PlanOk(plan, active, maxBatch) && id in plan.prefill + plan.decode
    ensures exists k :: 0 <= k < |active| && active[k].id == id
  {
    if id in plan.prefill {
      var i :| 0 <= i < |plan.prefill| && plan.prefill[i] == id;
      assert ServesActive(plan, active, i, maxBatch);
    } else {
      DecodeIdsAre(active, id);
    }
  }
}
