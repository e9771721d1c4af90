/** Runs of scheduler calls, interleaved with whatever clients do to the cache. */
module SchedulerRuns {
  import opened Wrappers
  import opened FramePool
  import opened CacheStore
  import opened SchedulerModel
  import opened SchedulerLedger
  import opened SchedulerPlans
  import CacheRuns

  datatype Call =
    | Submit(request: Request)
    | Schedule
    | Complete(id: nat, produced: nat)
    | Abort(id: nat)
    | Evict(id: nat, reason: string)
    | Restore(id: nat)
    | Client(op: CacheRuns.Op)

  function Step(s: Sched, call: Call, hash: ContentHash): (r: Sched)
    requires ValidPool(s.store.pool)
    ensures ValidPool(r.store.pool) && r.cfg == s.cfg
  {
    match call
    case Submit(request) => Enqueue(s, request)
    case Schedule => ScheduleNext(s).0
    case Complete(id, produced) => CompleteStep(s, id, produced)
    case Abort(id) => Cancel(s, id)
    case Evict(id, reason) => Preempt(s, id, reason).0
    case Restore(id) => Resume(s, id).0
    case Client(op) => s.(store := CacheRuns.Step(s.store, op, hash).0)
  }

  function Run(s: Sched, calls: seq<Call>, hash: ContentHash): (r: Sched)
    requires ValidPool(s.store.pool)
    ensures ValidPool(r.store.pool) && r.cfg == s.cfg
    decreases |calls|
  {
    if calls == [] then s else Run(Step(s, calls[0], hash), calls[1..], hash)
  }

  /** Ids are fresh, prompts are not empty, and a preempted request is resumed before it is cancelled. */
  ghost predicate Disciplined(s: Sched, call: Call) {
    match call
    case Submit(request) => request.id !in TrackedIds(s) && request.prompt > 0
    case Abort(id) => id !in Ids(s.preempted)
    case _ => true
  }

  ghost predicate DisciplinedRun(s: Sched, calls: seq<Call>, hash: ContentHash)
    requires ValidPool(s.store.pool)
    decreases |calls|
  {
    calls != [] ==> Disciplined(s, calls[0]) && DisciplinedRun(Step(s, calls[0], hash), calls[1..], hash)
  }

  lemma FreshBooks(cfg: Config, store: Store)
    requires ValidPool(store.pool)
    ensures var s := Sched(cfg, [], [], [], map[], 0, store);
            Books(s) && PromptsPositive(s) && TrackedIds(s) == multiset{}
  {
    var s := Sched(cfg, [], [], [], map[], 0, store);
    assert IdsOf([]) == [];
    assert TrackedIds(s) == multiset{};
  }

  lemma StepKeepsBooks(s: Sched, call: Call, hash: ContentHash)
    requires Books(s) && PromptsPositive(s) && Disciplined(s, call)
    ensures ValidPool(s.store.pool)
    ensures Books(Step(s, call, hash)) && PromptsPositive(Step(s, call, hash))
  {
    hide Books, PromptsPositive, Enqueue, ScheduleNext, CompleteStep, Cancel, Preempt, Resume, CacheRuns.Step, Ids, ValidPool, Scheduled, AdmitLoop;
    BooksShow(s, 0);
    if !call.Schedule? {
      PromptsKept(s, call, hash);
    }
    match call
    case Submit(request) => EnqueueKeepsBooks(s, request);
    case Schedule => PlansAreWellFormed(s); ScheduledShows(s, ScheduleNext(s).0, ScheduleNext(s).1, AdmitLoop(s, EmptyPlan).2);
    case Complete(id, produced) => CompleteKeepsBooks(s, id, produced);
    case Abort(id) => CancelKeepsBooksIff(s, id); IdIn(s.preempted, id);
    case Evict(id, reason) => PreemptKeepsBooks(s, id, reason);
    case Restore(id) => ResumeKeepsBooks(s, id);
    case Client(op) => BooksOnStore(s, CacheRuns.Step(s.store, op, hash).0);
  }

  lemma ScheduledShows(s: Sched, s': Sched, plan: Plan, picks: seq<nat>)
    requires Scheduled(s, s', plan, picks)
    ensures Books(s') && PromptsPositive(s')
  {}

  lemma PromptsKept(s: Sched, call: Call, hash: ContentHash)
    requires Books(s) && PromptsPositive(s) && Disciplined(s, call) && ValidPool(s.store.pool) && !call.Schedule?
    ensures PromptsPositive(Step(s, call, hash))
  {
    hide ScheduleNext, SwapOutRequest, SwapInRequest, ReleaseRequest, CacheRuns.Step, ValidPool, Ids, Books;
    if call.Abort? {
      var at := FindRequest(s.pending, call.id);
      if at.Some? {
        RemovedIn(s.pending, at.value);
      }
    }
  }

  /**
    Main result on the books: over every disciplined run, whatever clients do to the cache, each
    request is in exactly one queue with a matching state, preemption records are those of the
    preempted requests, and the ledger is the sum of the active lifetimes.
   */
  lemma {:induction false} BooksHoldOverRuns(s: Sched, calls: seq<Call>, hash: ContentHash)
    requires Books(s) && PromptsPositive(s) && ValidPool(s.store.pool) && DisciplinedRun(s, calls, hash)
    ensures Books(Run(s, calls, hash)) && PromptsPositive(Run(s, calls, hash))
    decreases |calls|
  {
    hide Books, PromptsPositive, Disciplined, Step, ValidPool;
    if calls != [] {
      StepKeepsBooks(s, calls[0], hash);
      BooksHoldOverRuns(Step(s, calls[0], hash), calls[1..], hash);
    }
  }

  /** So every plan of every such run is well formed. */
  lemma EveryPlanIsWellFormed(s: Sched, calls: seq<Call>, hash: ContentHash)
    requires Books(s) && PromptsPositive(s) && ValidPool(s.store.pool) && DisciplinedRun(s, calls, hash)
    ensures var t := Run(s, calls, hash);
            Scheduled(t, ScheduleNext(t).0, ScheduleNext(t).1, AdmitLoop(t, EmptyPlan).2)
  {
    hide *;
    BooksHoldOverRuns(s, calls, hash);
    PlansAreWellFormed(Run(s, calls, hash));
  }

  /** What callers read back: the state of a tracked request tells which queue holds it. */
  lemma StateTellsQueue(s: Sched, id: nat)
    requires Books(s)
    ensures StateOf(s, id).None? <==> id !in TrackedIds(s)
    ensures StateOf(s, id) == Some(Pending) <==> id in Ids(s.pending)
    ensures StateOf(s, id) == Some(Preempted) <==> id in Ids(s.preempted)
    ensures StateOf(s, id) == Some(Prefill) || StateOf(s, id) == Some(Decode) <==> id in Ids(s.active)
    ensures id in s.info <==> StateOf(s, id) == Some(Preempted)
  {
    hide Ids, FindRequest, WaitingOk, RunningOk, StoppedOk, StatesMatch;
    UniqueQueues(s, id);
    IdIn(s.pending, id);
    IdIn(s.active, id);
    IdIn(s.preempted, id);
    QueueStates(s, id);
  }

  lemma QueueStates(s: Sched, id: nat)
    requires StatesMatch(s)
    ensures var p, a, e := FindRequest(s.pending, id), FindRequest(s.active, id), FindRequest(s.preempted, id);
            && (p.Some? ==> s.pending[p.value].state == Pending)
            && (a.Some? ==> s.active[a.value].state == Prefill || s.active[a.value].state == Decode)
            && (e.Some? ==> s.preempted[e.value].state == Preempted)
  {
    var a := FindRequest(s.active, id);
    assert a.Some? ==> RunningOk(s.active[a.value]);
    var e := FindRequest(s.preempted, id);
    assert e.Some? ==> StoppedOk(s.preempted[e.value]);
    var p := FindRequest(s.pending, id);
    assert p.Some? ==> WaitingOk(s.pending[p.value]);
  }
}
