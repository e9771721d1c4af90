/** Which work of the active requests a plan takes up when the budget does not reach for all of it. */
module SchedulerBudget {
  import opened Arithmetic
  import opened FramePool
  import opened SchedulerModel
  import opened SchedulerLedger
  import opened SchedulerPlans

  /** Requests with prefill left that are not in the plan yet, oldest first. */
  function Carried(q: seq<Request>, planned: seq<nat>): seq<Request> {
    if q == [] then []
    else (if q[0].state == Prefill && q[0].remaining > 0 && q[0].id !in planned then [q[0]] else []) + Carried(q[1..], planned)
  }

  function PrefillLeft(q: seq<Request>): nat {
    if q == [] then 0 else q[0].remaining + PrefillLeft(q[1..])
  }

  /** Chunks for requests in order: each gets all it has left, except that the last may get less. */
  ghost predicate InOrder(q: seq<Request>, chunks: seq<nat>) {
    && |chunks| <= |q|
    && (forall k :: 0 <= k < |chunks| - 1 ==> chunks[k] == q[k].remaining)
    && (chunks != [] ==> 0 < chunks[|chunks| - 1] <= q[|chunks| - 1].remaining)
  }

  /** What carrying prefill over adds to a plan. */
  ghost predicate CarriesOver(plan: Plan, plan': Plan, q: seq<Request>, chunks: seq<nat>, maxBatch: nat) {
    && InOrder(q, chunks)
    && plan'.prefill == plan.prefill + IdsOf(q[..|chunks|]) && plan'.chunks == plan.chunks + chunks
    && plan'.decode == plan.decode
    && plan'.scheduled == plan.scheduled + Sum(chunks) == Min(maxBatch, plan.scheduled + PrefillLeft(q))
  }

  lemma CarriedNew(q: seq<Request>, planned: seq<nat>, id: nat)
    requires forall k :: 0 <= k < |q| ==> q[k].id != id
    ensures Carried(q, planned + [id]) == Carried(q, planned)
  {
    if q != [] {
      assert forall k :: 0 <= k < |q[1..]| ==> q[1..][k] == q[k + 1];
      CarriedNew(q[1..], planned, id);
    }
  }

  lemma NothingCarried(plan: Plan, q: seq<Request>, maxBatch: nat)
    requires plan.scheduled <= maxBatch && (plan.scheduled == maxBatch || q == [])
    ensures CarriesOver(plan, plan, q, [], maxBatch)
  {
    assert IdsOf(q[..0]) == [];
  }

  lemma {:induction false} SpentBudget(q: seq<Request>, plan: Plan, maxBatch: nat)
    requires plan.scheduled >= maxBatch
    ensures PlanPrefill(q, plan, maxBatch) == plan
    decreases |q|
  {
    if q != [] {
      SpentBudget(q[1..], plan, maxBatch);
    }
  }

  lemma InOrderMore(r: Request, rest: seq<Request>, chunks: seq<nat>)
    requires InOrder(rest, chunks) && r.remaining > 0
    ensures InOrder([r] + rest, [r.remaining] + chunks)
    ensures Sum([r.remaining] + chunks) == r.remaining + Sum(chunks)
    ensures PrefillLeft([r] + rest) == r.remaining + PrefillLeft(rest)
  {
    var q, all := [r] + rest, [r.remaining] + chunks;
    assert all[1..] == chunks && q[1..] == rest;
    assert forall k :: 1 <= k < |all| ==> all[k] == chunks[k - 1] && q[k] == rest[k - 1];
  }

  lemma IdsMore(r: Request, rest: seq<Request>, n: nat)
    requires n <= |rest|
    ensures IdsOf(([r] + rest)[..n + 1]) == [r.id] + IdsOf(rest[..n])
  {
    assert ([r] + rest)[..n + 1] == [r] + rest[..n];
    IdsAppend([r], rest[..n]);
    SingleId(r);
  }

  /** One more request in front of those carried over. */
  lemma OneMoreCarried(plan: Plan, plan1: Plan, plan': Plan, r: Request, rest: seq<Request>, chunks: seq<nat>, maxBatch: nat)
    requires plan.scheduled < maxBatch && r.remaining > 0 && plan1 == PrefillChunk(r, plan, maxBatch)
    requires plan.scheduled + r.remaining <= maxBatch && CarriesOver(plan1, plan', rest, chunks, maxBatch)
    ensures CarriesOver(plan, plan', [r] + rest, [r.remaining] + chunks, maxBatch)
  {
    hide InOrder, IdsOf, Sum, PrefillLeft;
    InOrderMore(r, rest, chunks);
    InOrderSize(rest, chunks);
    IdsMore(r, rest, |chunks|);
    assert (plan.prefill + [r.id]) + IdsOf(rest[..|chunks|]) == plan.prefill + ([r.id] + IdsOf(rest[..|chunks|]));
    assert (plan.chunks + [r.remaining]) + chunks == plan.chunks + ([r.remaining] + chunks);
  }

  lemma InOrderSize(q: seq<Request>, chunks: seq<nat>)
    requires InOrder(q, chunks)
    ensures |chunks| <= |q|
  {}

  /** The last one, which takes what the budget has left. */
  lemma LastCarried(plan: Plan, r: Request, rest: seq<Request>, maxBatch: nat)
    requires plan.scheduled < maxBatch && r.remaining > 0 && plan.scheduled + r.remaining > maxBatch
    ensures CarriesOver(plan, PrefillChunk(r, plan, maxBatch), [r] + rest, [maxBatch - plan.scheduled], maxBatch)
  {
    var q, all := [r] + rest, [maxBatch - plan.scheduled];
    assert q[..1] == [r] && q[1..] == rest && all[1..] == [];
    SingleId(r);
  }

  /**
    Main result on the budget: carried-over prefill is taken up oldest request first, each with all it
    has left, until the budget ends in the middle of one; the rest waits.
   */
  lemma {:induction false} OldestPrefillFirst(q: seq<Request>, plan: Plan, maxBatch: nat) returns (chunks: seq<nat>)
    requires plan.scheduled <= maxBatch && DistinctIds(IdsOf(q))
    ensures CarriesOver(plan, PlanPrefill(q, plan, maxBatch), Carried(q, plan.prefill), chunks, maxBatch)
    decreases |q|
  {
    hide *;
    if q == [] || plan.scheduled == maxBatch {
      SpentOrEmpty(q, plan, maxBatch);
      NothingCarried(plan, Carried(q, plan.prefill), maxBatch);
      return [];
    }
    DistinctTail(q);
    CarriedStep(q, plan, maxBatch);
    var r, rest := q[0], q[1..];
    if r.state == Prefill && r.remaining > 0 && r.id !in plan.prefill {
      CarriedNew(rest, plan.prefill, r.id);
      var plan1 := PrefillChunk(r, plan, maxBatch);
      if plan.scheduled + r.remaining > maxBatch {
        BudgetGone(r, plan, maxBatch);
        SpentBudget(rest, plan1, maxBatch);
        LastCarried(plan, r, Carried(rest, plan.prefill), maxBatch);
        chunks := [maxBatch - plan.scheduled];
      } else {
        BudgetLeft(r, plan, maxBatch);
        chunks := OldestPrefillFirst(rest, plan1, maxBatch);
        OneMoreCarried(plan, plan1, PlanPrefill(rest, plan1, maxBatch), r, Carried(rest, plan.prefill), chunks, maxBatch);
        chunks := [r.remaining] + chunks;
      }
    } else {
      chunks := OldestPrefillFirst(rest, plan, maxBatch);
    }
  }

  lemma BudgetGone(r: Request, plan: Plan, maxBatch: nat)
    requires r.remaining > 0 && plan.scheduled < maxBatch < plan.scheduled + r.remaining
    ensures PrefillChunk(r, plan, maxBatch).scheduled == maxBatch
  {}

  lemma BudgetLeft(r: Request, plan: Plan, maxBatch: nat)
    requires r.remaining > 0 && plan.scheduled + r.remaining <= maxBatch
    ensures PrefillChunk(r, plan, maxBatch).scheduled == plan.scheduled + r.remaining
    ensures PrefillChunk(r, plan, maxBatch).prefill == plan.prefill + [r.id]
  {}

  lemma CarriedStep(q: seq<Request>, plan: Plan, maxBatch: nat)
    requires q != []
    ensures var r, rest := q[0], q[1..];
            var taken := r.state == Prefill && r.remaining > 0 && r.id !in plan.prefill;
            && Carried(q, plan.prefill) == (if taken then [r] else []) + Carried(rest, plan.prefill)
            && (!taken ==> Carried(q, plan.prefill) == Carried(rest, plan.prefill))
            && PlanPrefill(q, plan, maxBatch) == PlanPrefill(rest, if taken then PrefillChunk(r, plan, maxBatch) else plan, maxBatch)
  {}

  lemma SpentOrEmpty(q: seq<Request>, plan: Plan, maxBatch: nat)
    requires q == [] || plan.scheduled == maxBatch
    ensures PlanPrefill(q, plan, maxBatch) == plan && (q == [] ==> Carried(q, plan.prefill) == [])
  {
    if q != [] {
      SpentBudget(q, plan, maxBatch);
    }
  }

  lemma DistinctTail(q: seq<Request>)
    requires DistinctIds(IdsOf(q)) && q != []
    ensures DistinctIds(IdsOf(q[1..])) && forall k :: 0 <= k < |q[1..]| ==> q[1..][k].id != q[0].id
  {
    assert IdsOf(q)[0] == q[0].id;
    assert forall k :: 0 <= k < |q[1..]| ==> q[1..][k].id == IdsOf(q[1..])[k] == IdsOf(q)[k + 1];
  }

  /** A plan that serves the newcomers first and then the oldest of those waiting, as far as the budget goes. */
  ghost predicate ServesOldest(plan1: Plan, plan: Plan, news: seq<Request>, waiting: seq<Request>, chunks: seq<nat>, maxBatch: nat)
    requires plan1.scheduled <= maxBatch
  {
    && plan1.prefill == IdsOf(news) && InOrder(waiting, chunks)
    && plan.prefill == plan1.prefill + IdsOf(waiting[..|chunks|]) && plan.chunks == plan1.chunks + chunks
    && Sum(chunks) == Min(maxBatch - plan1.scheduled, PrefillLeft(waiting))
  }

  lemma ServesOldestFrom(plan1: Plan, plan: Plan, news: seq<Request>, waiting: seq<Request>, chunks: seq<nat>, maxBatch: nat)
    requires plan1.scheduled <= maxBatch && plan1.prefill == IdsOf(news) && InOrder(waiting, chunks) && |chunks| <= |waiting|
    requires plan.prefill == plan1.prefill + IdsOf(waiting[..|chunks|]) && plan.chunks == plan1.chunks + chunks
    requires Sum(chunks) == Min(maxBatch - plan1.scheduled, PrefillLeft(waiting))
    ensures ServesOldest(plan1, plan, news, waiting, chunks, maxBatch)
  {
    hide IdsOf, Sum, PrefillLeft, Min, InOrder;
  }

  /** So every scheduling call serves its newcomers, then the oldest of the others. */
  lemma SchedulesOldestFirst(s: Sched) returns (chunks: seq<nat>)
    requires Books(s) && PromptsPositive(s)
    ensures ValidPool(s.store.pool) && |AdmitLoop(s, EmptyPlan).2| <= |AdmitLoop(s, EmptyPlan).0.active|
    ensures AdmitLoop(s, EmptyPlan).1.scheduled <= s.cfg.maxBatch
    ensures var (s1, plan1, picks) := AdmitLoop(s, EmptyPlan);
            ServesOldest(plan1, ScheduleNext(s).1, s1.active[|s1.active| - |picks|..], Carried(s1.active, plan1.prefill), chunks, s.cfg.maxBatch)
  {
    hide *;
    BooksShow(s, 0);
    AdmittingStarts(s);
    AdmitLoopIs(s, s, EmptyPlan, []);
    var (s1, plan1, picks) := AdmitLoop(s, EmptyPlan);
    assert |s1.active| - 0 - |picks| == |s1.active| - |picks|;
    var news := s1.active[|s1.active| - |picks|..];
    AdmittedPlan(s, s1, plan1, news);
    NewcomersPlanned(s, s1, plan1, news);
    PrefillShows(plan1, s1.active, s.cfg.maxBatch);
    chunks := OldestPrefillFirst(s1.active, plan1, s.cfg.maxBatch);
    var plan2 := PlanPrefill(s1.active, plan1, s.cfg.maxBatch);
    CarriesShows(plan1, plan2, Carried(s1.active, plan1.prefill), chunks, s.cfg.maxBatch);
    MinIs(s.cfg.maxBatch, plan1.scheduled + PrefillLeft(Carried(s1.active, plan1.prefill)));
    MinIs(s.cfg.maxBatch - plan1.scheduled, PrefillLeft(Carried(s1.active, plan1.prefill)));
    PlanDecodeIs(s1.active, plan2, s.cfg.maxBatch);
    ScheduleIs(s);
    ServesOldestFrom(plan1, ScheduleNext(s).1, news, Carried(s1.active, plan1.prefill), chunks, s.cfg.maxBatch);
  }

  lemma NewcomersPlanned(s0: Sched, s: Sched, plan: Plan, news: seq<Request>)
    requires Admitting(s0, s, plan, news)
    ensures plan.prefill == IdsOf(news) && s.cfg == s0.cfg
  {}

  lemma CarriesShows(plan: Plan, plan': Plan, q: seq<Request>, chunks: seq<nat>, maxBatch: nat)
    requires CarriesOver(plan, plan', q, chunks, maxBatch)
    ensures InOrder(q, chunks) && |chunks| <= |q|
    ensures plan'.prefill == plan.prefill + IdsOf(q[..|chunks|]) && plan'.chunks == plan.chunks + chunks
    ensures plan'.scheduled == plan.scheduled + Sum(chunks) == Min(maxBatch, plan.scheduled + PrefillLeft(q))
  {
    hide IdsOf, Sum, PrefillLeft, Min, InOrder;
    InOrderSize(q, chunks);
  }
}
