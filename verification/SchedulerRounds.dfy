/**
  When reclaiming and admission stop: a watermark takes just as many victims as it needs, an
  admission round takes the first candidate that gets in, and a scheduling call goes on admitting
  until nobody more gets in.
 */
module SchedulerRounds {
  import opened Wrappers
  import opened Arithmetic
  import opened FramePool
  import opened CacheStore
  import opened SchedulerModel
  import opened SchedulerPlans

  // ---- How many victims -----------------------------------------------------------------------------

  /** After the k newest active requests, the last `spared` left alone, stepped back one after the other. */
  function AfterVictims(s: Sched, spared: nat, k: nat): (r: Sched)
    requires ValidPool(s.store.pool) && k + spared <= |s.active|
    ensures ValidPool(r.store.pool) && |r.active| == |s.active| - k && r.pending == s.pending && r.cfg == s.cfg
    decreases k
  {
    hide SwapOutRequest, ValidPool;
    if k == 0 then s
    else
      var t := AfterVictims(s, spared, k - 1);
      Preempt(t, t.active[|t.active| - spared - 1].id, WatermarkReason).0
  }

  /** Frames above the watermark, and room on the ledger. */
  predicate HasRoom(s: Sched, needed: nat, required: nat) {
    FreeFrames(s) >= required && s.held + needed <= TotalFrames(s)
  }

  /** The last of k victims gave the pool nothing. */
  predicate LastFreedNothing(s: Sched, spared: nat, k: nat)
    requires ValidPool(s.store.pool) && k + spared <= |s.active|
  {
    k > 0 && FreeFrames(AfterVictims(s, spared, k)) <= FreeFrames(AfterVictims(s, spared, k - 1))
  }

  /** k victims are taken: before each there was no room, and after the last there is a reason to stop. */
  ghost predicate TakesVictims(s: Sched, spared: nat, needed: nat, required: nat, k: nat)
    requires ValidPool(s.store.pool) && k + spared <= |s.active|
  {
    && (forall j :: 0 <= j < k ==> !HasRoom(AfterVictims(s, spared, j), needed, required) && !LastFreedNothing(s, spared, j))
    && (HasRoom(AfterVictims(s, spared, k), needed, required) || k + spared == |s.active| || LastFreedNothing(s, spared, k))
  }

  /** That leaves no choice. */
  lemma VictimsAreUnique(s: Sched, spared: nat, needed: nat, required: nat, k: nat, k': nat)
    requires ValidPool(s.store.pool) && k + spared <= |s.active| && k' + spared <= |s.active|
    requires TakesVictims(s, spared, needed, required, k) && TakesVictims(s, spared, needed, required, k')
    ensures k == k'
  {
    hide AfterVictims, ValidPool, HasRoom, LastFreedNothing;
  }

  lemma PreemptSucceeds(s: Sched, i: nat)
    requires ValidPool(s.store.pool) && i < |s.active|
    ensures Preempt(s, s.active[i].id, WatermarkReason).1
  {
    hide SwapOutRequest, ValidPool, Discharge;
  }

  lemma VictimStep(s: Sched, spared: nat, k: nat)
    requires ValidPool(s.store.pool) && k + spared <= |s.active|
    ensures AfterVictims(s, spared, 0) == s
    ensures k > 0 ==>
              var t := AfterVictims(s, spared, k - 1);
              AfterVictims(s, spared, k) == Preempt(t, t.active[|t.active| - spared - 1].id, WatermarkReason).0
    ensures k > 0 ==>
              var t := AfterVictims(s, spared, k - 1);
              Preempt(t, t.active[|t.active| - spared - 1].id, WatermarkReason).1
  {
    hide Preempt, ValidPool;
    if k > 0 {
      var t := AfterVictims(s, spared, k - 1);
      PreemptSucceeds(t, |t.active| - spared - 1);
    }
  }

  /** Taking one victim first and k more from there is taking k + 1. */
  lemma {:induction false} VictimsShift(s: Sched, spared: nat, k: nat)
    requires ValidPool(s.store.pool) && k + 1 + spared <= |s.active|
    ensures AfterVictims(AfterVictims(s, spared, 1), spared, k) == AfterVictims(s, spared, k + 1)
    decreases k
  {
    hide *;
    VictimStep(s, spared, k + 1);
    VictimStep(AfterVictims(s, spared, 1), spared, k);
    if k > 0 {
      VictimsShift(s, spared, k - 1);
    }
  }

  /** From the first victim on, the rest of a count that is taken is taken. */
  lemma TakesOneMore(s: Sched, spared: nat, needed: nat, required: nat, k: nat)
    requires ValidPool(s.store.pool) && k + 1 + spared <= |s.active| && !HasRoom(s, needed, required)
    requires FreeFrames(AfterVictims(s, spared, 1)) > FreeFrames(s)
    requires TakesVictims(AfterVictims(s, spared, 1), spared, needed, required, k)
    ensures TakesVictims(s, spared, needed, required, k + 1)
  {
    hide AfterVictims, ValidPool, HasRoom;
    var t := AfterVictims(s, spared, 1);
    VictimStep(s, spared, 0);
    VictimStep(t, spared, 0);
    VictimsShift(s, spared, k);
    if k > 0 {
      VictimsShift(s, spared, k - 1);
    }
    forall j | 0 <= j < k + 1
      ensures !HasRoom(AfterVictims(s, spared, j), needed, required) && !LastFreedNothing(s, spared, j)
    {
      if j > 0 {
        VictimsShift(s, spared, j - 1);
        assert !HasRoom(AfterVictims(t, spared, j - 1), needed, required) && !LastFreedNothing(t, spared, j - 1);
        if j > 1 {
          VictimsShift(s, spared, j - 2);
        }
      }
    }
  }

  lemma {:induction false} LoopTakesVictims(s: Sched, spared: nat, needed: nat, required: nat) returns (k: nat)
    requires ValidPool(s.store.pool) && spared <= |s.active|
    ensures k + spared <= |s.active| && TakesVictims(s, spared, needed, required, k)
    ensures ReclaimLoop(s, needed, required, spared) == AfterVictims(s, spared, k)
    decreases |s.active|
  {
    hide ReclaimLoop, AfterVictims, Preempt, ValidPool;
    ReclaimStep(s, needed, required, spared);
    VictimStep(s, spared, 0);
    if |s.active| == spared || HasRoom(s, needed, required) {
      k := 0;
    } else {
      VictimStep(s, spared, 1);
      var s1 := AfterVictims(s, spared, 1);
      if FreeFrames(s1) <= FreeFrames(s) {
        k := 1;
      } else {
        var k' := LoopTakesVictims(s1, spared, needed, required);
        k := k' + 1;
        VictimsShift(s, spared, k');
        TakesOneMore(s, spared, needed, required, k');
      }
    }
  }

  /** When a candidate's demand can trigger preemption at all. */
  predicate Pressing(s: Sched, needed: nat) {
    s.cfg.watermark > 0 && 0 < needed <= TotalFrames(s)
  }

  /**
    Main result on reclaiming: nobody steps back for a candidate when the watermark is off, when it
    needs nothing or when it needs more than the pool; otherwise the newest active requests do, one
    after the other and exactly as many as it takes until the free frames reach the demand plus the
    watermark (or the whole pool) and the ledger has room, unless nobody is left to take or the last
    one freed nothing.
   */
  lemma ReclaimTakes(s: Sched, prompt: nat, maxDecode: nat, spared: nat) returns (k: nat)
    requires ValidPool(s.store.pool) && spared <= |s.active|
    ensures k + spared <= |s.active|
    ensures ReclaimForAdmission(s, prompt, maxDecode, spared) == AfterVictims(s, spared, k)
    ensures var needed := BlocksForTokens(s.store.pool, prompt + maxDecode);
            if Pressing(s, needed) then
              TakesVictims(s, spared, needed, Min(needed + s.cfg.watermark, TotalFrames(s)), k)
            else k == 0
  {
    hide ReclaimLoop, AfterVictims, TakesVictims, ValidPool, BlocksForTokens;
    var needed := BlocksForTokens(s.store.pool, prompt + maxDecode);
    VictimStep(s, spared, 0);
    if Pressing(s, needed) {
      k := LoopTakesVictims(s, spared, needed, Min(needed + s.cfg.watermark, TotalFrames(s)));
    } else {
      k := 0;
    }
  }

  /** Requests admitted in the same call are never taken. */
  lemma NobodyToTake(s: Sched, prompt: nat, maxDecode: nat, spared: nat)
    requires ValidPool(s.store.pool) && |s.active| <= spared
    ensures ReclaimForAdmission(s, prompt, maxDecode, spared) == s
  {
    hide BlocksForTokens, Preempt, ValidPool;
  }

  /** So on return there is room, or nobody was left, or the last victim freed nothing. */
  lemma ReclaimLeavesRoom(s: Sched, prompt: nat, maxDecode: nat, spared: nat)
    requires ValidPool(s.store.pool) && spared <= |s.active|
    ensures var needed, s' := BlocksForTokens(s.store.pool, prompt + maxDecode), ReclaimForAdmission(s, prompt, maxDecode, spared);
            var required := Min(needed + s.cfg.watermark, TotalFrames(s));
            && (!Pressing(s, needed) || HasRoom(s, needed, required) ==> s' == s)
            && (Pressing(s, needed) && !HasRoom(s, needed, required) && |s.active| > spared ==> |s'.active| < |s.active|)
            && (Pressing(s, needed) ==>
                  || HasRoom(s', needed, required) || |s'.active| == spared
                  || exists k :: 0 < k && k + spared <= |s.active| && s' == AfterVictims(s, spared, k) && LastFreedNothing(s, spared, k))
  {
    hide ReclaimForAdmission, AfterVictims, ValidPool, BlocksForTokens, HasRoom, LastFreedNothing, Pressing;
    var k := ReclaimTakes(s, prompt, maxDecode, spared);
    VictimStep(s, spared, 0);
    NobodyFreedNothing(s, spared);
    var needed := BlocksForTokens(s.store.pool, prompt + maxDecode);
    var required := Min(needed + s.cfg.watermark, TotalFrames(s));
    if Pressing(s, needed) {
      assert k > 0 ==> !HasRoom(AfterVictims(s, spared, 0), needed, required);
      assert k == 0 ==> !LastFreedNothing(s, spared, k);
    }
  }

  lemma NobodyFreedNothing(s: Sched, spared: nat)
    requires ValidPool(s.store.pool) && spared <= |s.active|
    ensures !LastFreedNothing(s, spared, 0)
  {}

  // ---- Attempts ----------------------------------------------------------------------------------------

  /** Exactly when an attempt succeeds, with whatever the watermark reclaimed first. */
  lemma AdmitsIff(s: Sched, c: Request, plan: Plan, admitted: nat)
    requires ValidPool(s.store.pool)
    ensures var needed, s1 := LifetimeBlocksFor(s.store, c), ReclaimForAdmission(s, c.prompt, c.maxDecode, admitted);
            var r := TryAdmit(s, c, plan, admitted);
            && (r.2.Some? <==>
                  && plan.scheduled < s.cfg.maxBatch && needed <= TotalFrames(s)
                  && s1.held + needed <= TotalFrames(s1) && Place(s1.store, c).1)
            && (plan.scheduled >= s.cfg.maxBatch || needed > TotalFrames(s) ==> r.0 == s)
            && (r.2.None? && plan.scheduled < s.cfg.maxBatch && needed <= TotalFrames(s) ==>
                  r.0 == if s1.held + needed > TotalFrames(s1) then s1 else s1.(store := Place(s1.store, c).0))
  {
    hide ReclaimForAdmission, Place, LifetimeBlocksFor, PrefillChunk, ValidPool;
  }

  /** After the first k waiting requests were tried in turn. */
  function AfterAttempts(s: Sched, plan: Plan, k: nat): (r: Sched)
    requires ValidPool(s.store.pool) && k <= |s.pending|
    ensures ValidPool(r.store.pool) && r.pending == s.pending && r.cfg == s.cfg
    decreases k
  {
    if k == 0 then s else TryAdmit(AfterAttempts(s, plan, k - 1), s.pending[k - 1], plan, |plan.prefill|).0
  }

  /** The attempt at position k, everybody before it having been refused. */
  function Attempt(s: Sched, plan: Plan, k: nat): (Sched, Plan, Option<Request>)
    requires ValidPool(s.store.pool) && k < |s.pending|
  {
    TryAdmit(AfterAttempts(s, plan, k), s.pending[k], plan, |plan.prefill|)
  }

  lemma ScanUnfolds(s: Sched, plan: Plan, i: nat)
    requires ValidPool(s.store.pool) && i <= |s.pending|
    ensures i == |s.pending| ==> Scan(s, plan, i) == (s, plan, None)
    ensures i < |s.pending| ==>
              var (s1, plan1, r) := TryAdmit(s, s.pending[i], plan, |plan.prefill|);
              Scan(s, plan, i) == if r.Some? then (s1, plan1, Some((i, r.value))) else Scan(s1, plan1, i + 1)
  {
    hide TryAdmit, ValidPool;
  }

  lemma AttemptStep(s: Sched, plan: Plan, k: nat)
    requires ValidPool(s.store.pool) && k < |s.pending|
    ensures AfterAttempts(s, plan, 0) == s && AfterAttempts(s, plan, k + 1) == Attempt(s, plan, k).0
    ensures Attempt(s, plan, k) == TryAdmit(AfterAttempts(s, plan, k), s.pending[k], plan, |plan.prefill|)
    ensures Attempt(s, plan, k).2.None? ==> Attempt(s, plan, k).1 == plan
  {
    hide TryAdmit, ValidPool;
  }

  lemma {:induction false} ScanFrom(s: Sched, plan: Plan, i: nat)
    requires ValidPool(s.store.pool) && i <= |s.pending|
    ensures var (s1, plan1, pick) := Scan(AfterAttempts(s, plan, i), plan, i);
            var n := if pick.Some? then pick.value.0 else |s.pending|;
            && i <= n <= |s.pending| && (forall k :: i <= k < n ==> Attempt(s, plan, k).2.None?)
            && (pick.Some? ==> n < |s.pending| && Attempt(s, plan, n) == (s1, plan1, Some(pick.value.1)))
            && (pick.None? ==> s1 == AfterAttempts(s, plan, n) && plan1 == plan)
    decreases |s.pending| - i
  {
    hide *;
    ScanUnfolds(AfterAttempts(s, plan, i), plan, i);
    if i < |s.pending| {
      AttemptStep(s, plan, i);
      if Attempt(s, plan, i).2.None? {
        ScanFrom(s, plan, i + 1);
      }
    }
  }

  /**
    Who is picked: the head when it must go first, and otherwise the first waiting request whose
    attempt succeeds, everybody before it having been refused; nobody only when everybody is.
   */
  lemma PicksTheFirst(s: Sched, plan: Plan)
    requires ValidPool(s.store.pool) && s.pending != []
    ensures var (s1, plan1, pick) := Pick(s, plan);
            var tried := if !s.cfg.sizeAware || s.pending[0].skips >= s.cfg.skipLimit then 1 else |s.pending|;
            var n := if pick.Some? then pick.value.0 else tried;
            && n <= tried && (forall k :: 0 <= k < n ==> Attempt(s, plan, k).2.None?)
            && (pick.Some? ==> n < tried && Attempt(s, plan, n) == (s1, plan1, Some(pick.value.1)))
            && (pick.None? ==> s1 == AfterAttempts(s, plan, n) && plan1 == plan)
  {
    hide TryAdmit, Scan, ValidPool, AfterAttempts, Attempt;
    AttemptStep(s, plan, 0);
    ScanFrom(s, plan, 0);
  }

  // ---- Rounds --------------------------------------------------------------------------------------------

  lemma AdmitLoopUnfolds(s: Sched, plan: Plan)
    requires ValidPool(s.store.pool)
    ensures s.pending == [] || |s.active| >= s.cfg.maxActive ==> AdmitLoop(s, plan) == (s, plan, [])
    ensures s.pending != [] && |s.active| < s.cfg.maxActive ==>
              var (s1, plan1, pick) := Pick(s, plan);
              && (pick.None? ==> AdmitLoop(s, plan) == (s1, plan1, []))
              && (pick.Some? ==>
                    var rest := AdmitLoop(MoveToActive(s1, pick.value.0, pick.value.1), plan1);
                    AdmitLoop(s, plan) == (rest.0, rest.1, [pick.value.0] + rest.2))
  {
    hide Pick, MoveToActive, ValidPool;
  }

  /** One more request is admitted. */
  ghost predicate RoundAdmits(s: Sched, plan: Plan, s': Sched, plan': Plan, at: nat)
    requires ValidPool(s.store.pool)
  {
    && s.pending != [] && |s.active| < s.cfg.maxActive && Pick(s, plan).2.Some?
    && var (s1, plan1, pick) := Pick(s, plan);
       s' == MoveToActive(s1, pick.value.0, pick.value.1) && plan' == plan1 && at == pick.value.0
  }

  /** No more rounds: nobody waits, the active queue is full, or nobody is picked. */
  ghost predicate RoundsEnd(s: Sched, plan: Plan, s': Sched, plan': Plan)
    requires ValidPool(s.store.pool)
  {
    if s.pending == [] || |s.active| >= s.cfg.maxActive then s' == s && plan' == plan
    else Pick(s, plan).2.None? && s' == Pick(s, plan).0 && plan' == Pick(s, plan).1
  }

  /** Admission as rounds: each takes one request, and the last ends because it must. */
  ghost predicate Admissions(s: Sched, plan: Plan, picks: seq<nat>, s': Sched, plan': Plan)
    requires ValidPool(s.store.pool)
    decreases |picks|
  {
    if picks == [] then RoundsEnd(s, plan, s', plan')
    else exists s1: Sched, plan1: Plan :: ValidPool(s1.store.pool) && RoundAdmits(s, plan, s1, plan1, picks[0]) && Admissions(s1, plan1, picks[1..], s', plan')
  }

  /** A scheduling call never stops admitting early. */
  lemma {:induction false} AdmitsUntilNobodyFits(s: Sched, plan: Plan)
    requires ValidPool(s.store.pool)
    ensures var (s', plan', picks) := AdmitLoop(s, plan); Admissions(s, plan, picks, s', plan')
    decreases |s.pending|
  {
    hide Pick, MoveToActive, ValidPool, AdmitLoop;
    AdmitLoopUnfolds(s, plan);
    if s.pending != [] && |s.active| < s.cfg.maxActive && Pick(s, plan).2.Some? {
      var (s1, plan1, pick) := Pick(s, plan);
      var s2 := MoveToActive(s1, pick.value.0, pick.value.1);
      MovedLengths(s1, pick.value.0, pick.value.1);
      AdmitsUntilNobodyFits(s2, plan1);
      var (s', plan', picks) := AdmitLoop(s2, plan1);
      assert RoundAdmits(s, plan, s2, plan1, pick.value.0);
      assert ([pick.value.0] + picks)[1..] == picks;
    }
  }
}
