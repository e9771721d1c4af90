/**
  Bounded overtaking.  Requests carry an arrival stamp here, and admissions are logged by stamp;
  the program's skip counter turns out to be exactly how many later arrivals went first.
 */
module SchedulerFairness {
  import opened FramePool
  import opened CacheStore
  import opened SchedulerModel
  import opened SchedulerPlans
  import opened SchedulerRuns

  /** How many entries of the admission log arrived after t. */
  function Overtakers(log: seq<nat>, t: nat): nat {
    if log == [] then 0 else Overtakers(log[..|log| - 1], t) + if log[|log| - 1] > t then 1 else 0
  }

  /** How often a waiting request may be passed. */
  function SkipBound(cfg: Config): nat {
    if cfg.sizeAware then cfg.skipLimit else 0
  }

  /** A scheduler together with the arrival stamps of its pending queue and the admission log. */
  datatype History = History(s: Sched, stamps: seq<nat>, next: nat, log: seq<nat>)

  // ---- What a call does to the pending queue ---------------------------------------------------

  /** The pending queue after a list of picks: each pick counts as a skip for everyone before it. */
  function AfterPicks(q: seq<Request>, picks: seq<nat>): seq<Request>
    requires ValidPicks(|q|, picks)
    decreases |picks|
  {
    if picks == [] then q
    else AfterPicks(BumpSkips(q[..picks[0]]) + q[picks[0] + 1..], picks[1..])
  }

  /** A head that has been passed often enough, or any head without size-awareness, goes first. */
  ghost predicate LegalPicks(q: seq<Request>, picks: seq<nat>, cfg: Config)
    decreases |picks|
  {
    picks != [] ==>
      && picks[0] < |q|
      && (picks[0] > 0 ==> cfg.sizeAware && q[0].skips < cfg.skipLimit)
      && LegalPicks(BumpSkips(q[..picks[0]]) + q[picks[0] + 1..], picks[1..], cfg)
  }

  lemma {:induction false} AdmissionPicks(s: Sched, plan: Plan)
    requires ValidPool(s.store.pool)
    ensures var (s', _, picks) := AdmitLoop(s, plan);
            ValidPicks(|s.pending|, picks) && LegalPicks(s.pending, picks, s.cfg) && s'.pending == AfterPicks(s.pending, picks)
    decreases |s.pending|
  {
    hide Pick, ValidPool;
    if s.pending != [] && |s.active| < s.cfg.maxActive {
      var (s1, plan1, pick) := Pick(s, plan);
      if pick.Some? {
        var (i, c) := pick.value;
        var s2 := MoveToActive(s1, i, c);
        AdmissionPicks(s2, plan1);
        var picks := AdmitLoop(s2, plan1).2;
        assert ([i] + picks)[1..] == picks;
      }
    }
  }

  // ---- Overtaking ----------------------------------------------------------------------------------

  ghost predicate Increasing(xs: seq<nat>) {
    forall i, j :: 0 <= i < j < |xs| ==> xs[i] < xs[j]
  }

  ghost predicate LogFair(log: seq<nat>, bound: nat) {
    forall p :: 0 <= p < |log| ==> Overtakers(log[..p], log[p]) <= bound
  }

  ghost predicate OnceEach(stamps: seq<nat>, log: seq<nat>) {
    && (forall i, j :: 0 <= i < j < |log| ==> log[i] != log[j])
    && (forall x :: x in stamps ==> x !in log)
  }

  /** Skip counters count overtakers and stay within the bound, for those waiting and those admitted. */
  ghost predicate Fair(q: seq<Request>, stamps: seq<nat>, log: seq<nat>, bound: nat) {
    && |stamps| == |q| && Increasing(stamps) && OnceEach(stamps, log)
    && (forall i :: 0 <= i < |q| ==> q[i].skips == Overtakers(log, stamps[i]) <= bound)
    && LogFair(log, bound)
  }

  ghost predicate FairHistory(h: History) {
    && Fair(h.s.pending, h.stamps, h.log, SkipBound(h.s.cfg))
    && ValidPool(h.s.store.pool)
    && (forall x :: x in h.stamps || x in h.log ==> x < h.next)
  }

  lemma {:induction false} LaterIsPassedLess(log: seq<nat>, t: nat, t': nat)
    requires t <= t'
    ensures Overtakers(log, t') <= Overtakers(log, t)
  {
    if log != [] {
      LaterIsPassedLess(log[..|log| - 1], t, t');
    }
  }

  lemma {:induction false} NewestIsNotPassed(log: seq<nat>, t: nat)
    requires forall i :: 0 <= i < |log| ==> log[i] < t
    ensures Overtakers(log, t) == 0
  {
    if log != [] {
      NewestIsNotPassed(log[..|log| - 1], t);
    }
  }

  lemma OneMoreLogged(log: seq<nat>, x: nat, t: nat)
    ensures Overtakers(log + [x], t) == Overtakers(log, t) + if x > t then 1 else 0
  {
    assert (log + [x])[..|log|] == log;
  }

  lemma LogGrows(log: seq<nat>, x: nat, bound: nat)
    requires LogFair(log, bound) && Overtakers(log, x) <= bound
    ensures LogFair(log + [x], bound)
  {
    forall p | 0 <= p < |log| + 1
      ensures Overtakers((log + [x])[..p], (log + [x])[p]) <= bound
    {
      assert (log + [x])[..p] == log[..p];
      assert log[..|log|] == log;
    }
  }

  /** One admission: those passed gain one overtaker and one skip, the others neither. */
  lemma PickKeepsFair(q: seq<Request>, stamps: seq<nat>, log: seq<nat>, i: nat, cfg: Config)
    requires Fair(q, stamps, log, SkipBound(cfg)) && i < |q|
    requires i > 0 ==> cfg.sizeAware && q[0].skips < cfg.skipLimit
    ensures Fair(BumpSkips(q[..i]) + q[i + 1..], Removed(stamps, i), log + [stamps[i]], SkipBound(cfg))
  {
    hide Overtakers, LogFair;
    var q' := BumpSkips(q[..i]) + q[i + 1..];
    var stamps', log' := Removed(stamps, i), log + [stamps[i]];
    forall k | 0 <= k < |q'|
      ensures q'[k].skips == Overtakers(log', stamps'[k]) <= SkipBound(cfg)
    {
      var j := if k < i then k else k + 1;
      assert stamps'[k] == stamps[j];
      OneMoreLogged(log, stamps[i], stamps[j]);
      LaterIsPassedLess(log, stamps[0], stamps[j]);
      assert q[j].skips == Overtakers(log, stamps[j]) <= SkipBound(cfg);
    }
    LogGrows(log, stamps[i], SkipBound(cfg));
    StampsAfterPick(stamps, log, i);
  }

  lemma StampsAfterPick(stamps: seq<nat>, log: seq<nat>, i: nat)
    requires Increasing(stamps) && OnceEach(stamps, log) && i < |stamps|
    ensures Increasing(Removed(stamps, i)) && OnceEach(Removed(stamps, i), log + [stamps[i]])
    ensures OnceEach(Removed(stamps, i), log)
  {
    var stamps' := Removed(stamps, i);
    assert forall k :: 0 <= k < |stamps'| ==> stamps'[k] == stamps[if k < i then k else k + 1];
    assert stamps[i] in stamps;
  }

  lemma {:induction false} PicksKeepFair(q: seq<Request>, stamps: seq<nat>, log: seq<nat>, picks: seq<nat>, cfg: Config)
    requires Fair(q, stamps, log, SkipBound(cfg)) && ValidPicks(|q|, picks) && LegalPicks(q, picks, cfg)
    ensures |stamps| == |q|
    ensures Fair(AfterPicks(q, picks), Left(stamps, picks), log + Taken(stamps, picks), SkipBound(cfg))
    ensures forall x :: x in Left(stamps, picks) || x in Taken(stamps, picks) ==> x in stamps
    decreases |picks|
  {
    hide Fair;
    FairSizes(q, stamps, log, SkipBound(cfg));
    if picks == [] {
      assert log + [] == log;
    } else {
      var i := picks[0];
      PickKeepsFair(q, stamps, log, i, cfg);
      RemovedKeeps(stamps, i);
      PicksKeepFair(BumpSkips(q[..i]) + q[i + 1..], Removed(stamps, i), log + [stamps[i]], picks[1..], cfg);
      assert (log + [stamps[i]]) + Taken(Removed(stamps, i), picks[1..]) == log + ([stamps[i]] + Taken(Removed(stamps, i), picks[1..]));
    }
  }

  lemma FairSizes(q: seq<Request>, stamps: seq<nat>, log: seq<nat>, bound: nat)
    requires Fair(q, stamps, log, bound)
    ensures |stamps| == |q|
  {}

  lemma RemovedKeeps(stamps: seq<nat>, i: nat)
    requires i < |stamps|
    ensures |Removed(stamps, i)| == |stamps| - 1
    ensures forall x :: x in Removed(stamps, i) ==> x in stamps
  {}

  lemma RemovalKeepsFair(q: seq<Request>, stamps: seq<nat>, log: seq<nat>, i: nat, bound: nat)
    requires Fair(q, stamps, log, bound) && i < |q|
    ensures |stamps| == |q| && Fair(Removed(q, i), Removed(stamps, i), log, bound)
  {
    hide Overtakers, LogFair;
    StampsAfterPick(stamps, log, i);
    hide Increasing, OnceEach;
    var q', stamps' := Removed(q, i), Removed(stamps, i);
    forall k | 0 <= k < |q'|
      ensures q'[k].skips == Overtakers(log, stamps'[k]) <= bound
    {
      var j := if k < i then k else k + 1;
      assert q'[k] == q[j] && stamps'[k] == stamps[j];
    }
  }

  // ---- Runs --------------------------------------------------------------------------------------------

  /** One call, with arrivals stamped and admissions logged. */
  ghost function Advance(h: History, call: Call, hash: ContentHash): History
    requires ValidPool(h.s.store.pool) && |h.stamps| == |h.s.pending|
  {
    var s' := Step(h.s, call, hash);
    match call
    case Submit(_) => History(s', h.stamps + [h.next], h.next + 1, h.log)
    case Schedule =>
      AdmissionPicks(h.s, EmptyPlan);
      var picks := AdmitLoop(h.s, EmptyPlan).2;
      History(s', Left(h.stamps, picks), h.next, h.log + Taken(h.stamps, picks))
    case Abort(id) =>
      var at := FindRequest(h.s.pending, id);
      History(s', if at.Some? then Removed(h.stamps, at.value) else h.stamps, h.next, h.log)
    case _ => h.(s := s')
  }

  ghost function Follow(h: History, calls: seq<Call>, hash: ContentHash): History
    requires FairHistory(h)
    decreases |calls|
  {
    if calls == [] then h
    else
      AdvanceKeepsFair(h, calls[0], hash);
      Follow(Advance(h, calls[0], hash), calls[1..], hash)
  }

  lemma AdvanceKeepsFair(h: History, call: Call, hash: ContentHash)
    requires FairHistory(h)
    ensures FairHistory(Advance(h, call, hash)) && Advance(h, call, hash).s == Step(h.s, call, hash)
  {
    match call
    case Submit(r) => SubmitKeepsFair(h, r);
    case Schedule => ScheduleKeepsFair(h);
    case Abort(id) => AbortKeepsFair(h, id);
    case Complete(_, _) =>
    case Evict(id, reason) => assert Preempt(h.s, id, reason).0.pending == h.s.pending;
    case Restore(id) => assert Resume(h.s, id).0.pending == h.s.pending;
    case Client(_) =>
  }

  lemma SubmitKeepsFair(h: History, r: Request)
    requires FairHistory(h)
    ensures var s' := Enqueue(h.s, r);
            FairHistory(History(s', h.stamps + [h.next], h.next + 1, h.log))
  {
    hide Fair, ValidPool;
    ArrivalKeepsFair(h.s.pending, h.stamps, h.log, h.next, SkipBound(h.s.cfg),
                     r.(state := RequestState.Pending, remaining := r.prompt, skips := 0, lifetime := 0));
  }

  lemma ArrivalKeepsFair(q: seq<Request>, stamps: seq<nat>, log: seq<nat>, next: nat, bound: nat, r: Request)
    requires Fair(q, stamps, log, bound) && r.skips == 0 && forall x :: x in stamps || x in log ==> x < next
    ensures Fair(q + [r], stamps + [next], log, bound)
  {
    hide Overtakers, LogFair;
    assert forall i :: 0 <= i < |log| ==> log[i] in log;
    NewestIsNotPassed(log, next);
    assert next !in log;
    forall i, j | 0 <= i < j < |stamps + [next]|
      ensures (stamps + [next])[i] < (stamps + [next])[j]
    {
      assert stamps[i] in stamps;
    }
  }

  lemma ScheduleKeepsFair(h: History)
    requires FairHistory(h)
    ensures |h.stamps| == |h.s.pending|
    ensures var (s', _, picks) := AdmitLoop(h.s, EmptyPlan);
            && ValidPicks(|h.s.pending|, picks)
            && FairHistory(History(ScheduleNext(h.s).0, Left(h.stamps, picks), h.next, h.log + Taken(h.stamps, picks)))
  {
    hide AdmitLoop, Fair, AfterPicks, Left, Taken, LegalPicks, ValidPool, PlanPrefill, PlanDecode;
    AdmissionPicks(h.s, EmptyPlan);
    var (s', _, picks) := AdmitLoop(h.s, EmptyPlan);
    PicksKeepFair(h.s.pending, h.stamps, h.log, picks, h.s.cfg);
  }

  lemma AbortKeepsFair(h: History, id: nat)
    requires FairHistory(h)
    ensures |h.stamps| == |h.s.pending|
    ensures var at := FindRequest(h.s.pending, id);
            FairHistory(History(Cancel(h.s, id), if at.Some? then Removed(h.stamps, at.value) else h.stamps, h.next, h.log))
  {
    hide Cancel, Fair, FindRequest, ValidPool, Removed;
    var at := FindRequest(h.s.pending, id);
    AbortPending(h.s, id);
    FairSizes(h.s.pending, h.stamps, h.log, SkipBound(h.s.cfg));
    if at.Some? {
      RemovalKeepsFair(h.s.pending, h.stamps, h.log, at.value, SkipBound(h.s.cfg));
      RemovedKeeps(h.stamps, at.value);
    }
  }

  lemma AbortPending(s: Sched, id: nat)
    requires ValidPool(s.store.pool)
    ensures var at := FindRequest(s.pending, id);
            Cancel(s, id).pending == if at.Some? then Removed(s.pending, at.value) else s.pending
    ensures Cancel(s, id).cfg == s.cfg && ValidPool(Cancel(s, id).store.pool)
  {}

  /**
    Main result on fairness: at every point of every run, with any client activity, waiting
    requests stand in arrival order, each counter is the number of later arrivals admitted
    first, counters never increase towards the back, and nobody, waiting or admitted, was
    passed by more than the limit.
   */
  lemma {:induction false} OvertakingIsBounded(h: History, calls: seq<Call>, hash: ContentHash)
    requires FairHistory(h)
    ensures var h' := Follow(h, calls, hash);
            && FairHistory(h') && h'.s == Run(h.s, calls, hash)
            && (forall i, j :: 0 <= i < j < |h'.s.pending| ==> h'.s.pending[j].skips <= h'.s.pending[i].skips)
    decreases |calls|
  {
    if calls == [] {
      forall i, j | 0 <= i < j < |h.s.pending|
        ensures h.s.pending[j].skips <= h.s.pending[i].skips
      {
        LaterIsPassedLess(h.log, h.stamps[i], h.stamps[j]);
      }
    } else {
      AdvanceKeepsFair(h, calls[0], hash);
      hide FairHistory, Advance, Step, ValidPool;
      OvertakingIsBounded(Advance(h, calls[0], hash), calls[1..], hash);
    }
  }

  /** Without size-aware admission the admission order is the arrival order. */
  lemma FifoAdmitsInOrder(h: History, calls: seq<Call>, hash: ContentHash)
    requires FairHistory(h) && !h.s.cfg.sizeAware
    ensures Increasing(Follow(h, calls, hash).log)
  {
    hide FairHistory, Follow, ValidPool;
    OvertakingIsBounded(h, calls, hash);
    var h' := Follow(h, calls, hash);
    FairLog(h');
    InOrder(h'.log);
  }

  lemma FairLog(h: History)
    requires FairHistory(h)
    ensures LogFair(h.log, SkipBound(h.s.cfg)) && forall i, j :: 0 <= i < j < |h.log| ==> h.log[i] != h.log[j]
    ensures ValidPool(h.s.store.pool)
  {}

  lemma InOrder(log: seq<nat>)
    requires LogFair(log, 0) && forall i, j :: 0 <= i < j < |log| ==> log[i] != log[j]
    ensures Increasing(log)
  {
    forall i, j | 0 <= i < j < |log|
      ensures log[i] < log[j]
    {
      assert Overtakers(log[..j], log[j]) == 0;
      PassedIsCounted(log[..j], i, log[j]);
    }
  }

  lemma {:induction false} PassedIsCounted(log: seq<nat>, i: nat, t: nat)
    requires i < |log|
    ensures log[i] > t ==> Overtakers(log, t) > 0
  {
    if i < |log| - 1 {
      PassedIsCounted(log[..|log| - 1], i, t);
    }
  }

  lemma FreshHistory(cfg: Config, store: Store)
    requires ValidPool(store.pool)
    ensures FairHistory(History(Sched(cfg, [], [], [], map[], 0, store), [], 0, []))
  {}
}
