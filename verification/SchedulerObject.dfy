/** The scheduler object: the program's queues, ledger and loops, each method proved against the scheduler model. */
module SchedulerObject {
  import opened Wrappers
  import opened Arithmetic
  import opened FramePool
  import opened CacheStore
  import opened CacheManager
  import opened SchedulerModel
  import CacheRuns
  import SchedulerLedger
  import SchedulerPlans

  lemma StoreIsValid(st: Store)
    requires CacheRuns.Inv(st)
    ensures ValidPool(st.pool)
  {
    CacheRuns.InvParts(st);
  }

  lemma ManagerIsValid(m: KVCacheManager)
    requires m.Valid()
    ensures ValidPool(m.Model().pool)
  {
    StoreIsValid(m.Model());
  }

  lemma ManagerSizes(m: KVCacheManager)
    ensures |m.Model().pool.free| == |m.allocator.freeList| && |m.Model().pool.infos| == |m.allocator.infos|
  {}

  lemma CreateOrNothing(st: Store, sid: nat, request: nat)
    ensures !CreateSequence(st, sid, request).1 ==> CreateSequence(st, sid, request).0 == st
  {}

  /** What an admission loop leaves: the state and the plan, without the record of picks. */
  ghost function Admitting(s: Sched, plan: Plan): (Sched, Plan)
    requires ValidPool(s.store.pool)
  {
    (AdmitLoop(s, plan).0, AdmitLoop(s, plan).1)
  }

  lemma AdmitRound(s: Sched, plan: Plan)
    requires ValidPool(s.store.pool)
    ensures s.pending == [] || |s.active| >= s.cfg.maxActive ==> Admitting(s, plan) == (s, plan)
    ensures s.pending != [] && |s.active| < s.cfg.maxActive && (!s.cfg.sizeAware || s.pending[0].skips >= s.cfg.skipLimit) ==>
              var (s1, plan1, r) := TryAdmit(s, s.pending[0], plan, |plan.prefill|);
              Admitting(s, plan) == if r.None? then (s1, plan1) else Admitting(MoveToActive(s1, 0, r.value), plan1)
    ensures s.pending != [] && |s.active| < s.cfg.maxActive && s.cfg.sizeAware && s.pending[0].skips < s.cfg.skipLimit ==>
              var (s1, plan1, pick) := Scan(s, plan, 0);
              Admitting(s, plan) ==
              if pick.None? then (s1, plan1) else Admitting(MoveToActive(s1, pick.value.0, pick.value.1), plan1)
  {
    hide TryAdmit, Scan, MoveToActive, ValidPool;
  }

  /** Once the loop condition fails, there is nothing more to reclaim. */
  ghost predicate Settled(s: Sched, needed: nat, required: nat, admitted: nat) {
    && ValidPool(s.store.pool)
    && (|s.active| <= admitted || (FreeFrames(s) >= required && s.held + needed <= TotalFrames(s)) ==>
          ReclaimLoop(s, needed, required, admitted) == s)
  }

  // ---- Loop steps ------------------------------------------------------------------------------

  lemma {:induction false} FindFrom(q: seq<Request>, id: nat, i: nat)
    requires i < |q| && q[i].id == id && forall k :: 0 <= k < i ==> q[k].id != id
    ensures FindRequest(q, id) == Some(i)
  {
    if i > 0 {
      FindFrom(q[1..], id, i - 1);
    }
  }

  /** `find_request`: a linear search from the front. */
  method Find(q: seq<Request>, id: nat) returns (at: Option<nat>)
    ensures at == FindRequest(q, id)
  {
    var i := 0;
    while i < |q|
      invariant i <= |q| && forall k :: 0 <= k < i ==> q[k].id != id
    {
      if q[i].id == id {
        FindFrom(q, id, i);
        return Some(i);
      }
      i := i + 1;
    }
    at := None;
  }

  method AddPrefillChunk(request: Request, plan: Plan, maxBatch: nat) returns (plan': Plan)
    ensures plan' == PrefillChunk(request, plan, maxBatch)
  {
    plan' := plan;
    if request.remaining == 0 {
      return;
    }
    if plan.scheduled >= maxBatch {
      return;
    }
    var chunk := Min(request.remaining, maxBatch - plan.scheduled);
    if chunk == 0 {
      return;
    }
    plan' := plan'.(prefill := plan'.prefill + [request.id]);
    plan' := plan'.(chunks := plan'.chunks + [chunk]);
    plan' := plan'.(scheduled := plan'.scheduled + chunk);
  }

  method AddDecodeTokens(active: seq<Request>, plan: Plan, maxBatch: nat) returns (plan': Plan)
    ensures plan' == PlanDecode(active, plan, maxBatch)
  {
    plan' := plan;
    var i := 0;
    assert active[0..] == active;
    while i < |active|
      invariant i <= |active| && PlanDecode(active[i..], plan', maxBatch) == PlanDecode(active, plan, maxBatch)
    {
      assert active[i..][0] == active[i] && active[i..][1..] == active[i + 1..];
      if active[i].state != Decode {
        i := i + 1;
        continue;
      }
      if plan'.scheduled >= maxBatch {
        return;
      }
      plan' := plan'.(decode := plan'.decode + [active[i].id], scheduled := plan'.scheduled + 1);
      i := i + 1;
    }
  }

  method AddCarriedPrefill(active: seq<Request>, plan: Plan, maxBatch: nat) returns (plan': Plan)
    ensures plan' == PlanPrefill(active, plan, maxBatch)
  {
    plan' := plan;
    var i := 0;
    assert active[0..] == active;
    while i < |active|
      invariant i <= |active| && PlanPrefill(active[i..], plan', maxBatch) == PlanPrefill(active, plan, maxBatch)
    {
      assert active[i..][0] == active[i] && active[i..][1..] == active[i + 1..];
      if active[i].state == Prefill {
        var already := active[i].id in plan'.prefill;
        if !already {
          plan' := AddPrefillChunk(active[i], plan', maxBatch);
        }
      }
      i := i + 1;
    }
  }

  /** Everybody before position `it` was skipped once more; the request at `it` leaves. */
  method SkipAndErase(pending: seq<Request>, it: nat) returns (left: seq<Request>)
    requires it < |pending|
    ensures left == BumpSkips(pending[..it]) + pending[it + 1..] && |left| == |pending| - 1
  {
    left := pending;
    var skipped := 0;
    while skipped < it
      invariant skipped <= it && |left| == |pending|
      invariant forall k :: 0 <= k < skipped ==> left[k] == pending[k].(skips := pending[k].skips + 1)
      invariant forall k :: skipped <= k < |pending| ==> left[k] == pending[k]
    {
      left := left[skipped := left[skipped].(skips := left[skipped].skips + 1)];
      skipped := skipped + 1;
    }
    assert left[..it] == BumpSkips(pending[..it]) && left[it + 1..] == pending[it + 1..];
    left := left[..it] + left[it + 1..];
  }

  class Scheduler {
    const config: Config
    const cacheManager: KVCacheManager
    var pending: seq<Request>
    var active: seq<Request>
    var preempted: seq<Request>
    var preemptionInfo: map<nat, PreemptionInfo>
    var lifetimeHeld: nat

    ghost function Repr(): set<object>
      reads this, cacheManager, cacheManager.allocator
    {
      {this} + cacheManager.Repr()
    }

    ghost function Model(): Sched
      reads this, cacheManager, cacheManager.allocator, cacheManager.allocator.backend
    {
      Sched(config, pending, active, preempted, preemptionInfo, lifetimeHeld, cacheManager.Model())
    }

    ghost predicate Valid()
      reads this, cacheManager, cacheManager.allocator, cacheManager.allocator.backend
    {
      cacheManager.Valid() && ValidPool(cacheManager.Model().pool)
    }

    constructor (config: Config, cacheManager: KVCacheManager)
      requires cacheManager.Valid()
      ensures Valid() && this.config == config && this.cacheManager == cacheManager
      ensures Model() == Sched(config, [], [], [], map[], 0, cacheManager.Model())
    {
      this.config := config;
      this.cacheManager := cacheManager;
      pending := [];
      active := [];
      preempted := [];
      preemptionInfo := map[];
      lifetimeHeld := 0;
      new;
      ManagerIsValid(cacheManager);
    }

    method EnqueueRequest(request: Request)
      requires Valid()
      modifies this`pending
      ensures Valid() && Model() == Enqueue(old(Model()), request)
    {
      pending := pending + [request.(state := RequestState.Pending, remaining := request.prompt, skips := 0, lifetime := 0)];
    }

    method CountBlocks(tokens: nat) returns (blocks: nat)
      requires Valid()
      ensures blocks == BlocksForTokens(cacheManager.Model().pool, tokens)
    {
      var tpb := cacheManager.TokensPerBlockOf();
      if tpb == 0 {
        return 0;
      }
      var tables := cacheManager.TableCountOf();
      blocks := CeilDiv(tokens, tpb) * tables;
    }

    method LifetimeBlocks(request: Request) returns (blocks: nat)
      requires Valid()
      ensures blocks == LifetimeBlocksFor(cacheManager.Model(), request)
    {
      hide ValidPool, CacheRuns.Inv, PrefixTokenCount, BlocksForTokens, KVCacheManager.Valid, KVCacheManager.Model;
      var cached := 0;
      if request.key != "" {
        cached := cacheManager.PrefixTokens(request.key);
      }
      var usable := if cached <= request.prompt then cached else 0;
      blocks := CountBlocks(request.prompt - usable + request.maxDecode);
    }

    method PreemptRequest(id: nat, reason: string) returns (ok: bool)
      requires Valid()
      modifies Repr()
      ensures Valid() && cacheManager.allocator.backend == old(cacheManager.allocator.backend)
      ensures (Model(), ok) == Preempt(old(Model()), id, reason)
    {
      hide SwapOutRequest, CacheRuns.Inv, ValidPool, KVCacheManager.Model, KVCacheManager.Valid;
      var it := Find(active, id);
      if it.None? {
        return false;
      }
      var request := active[it.value];
      active := active[..it.value] + active[it.value + 1..];
      request := request.(state := RequestState.Preempted);
      if request.lifetime > 0 && lifetimeHeld >= request.lifetime {
        lifetimeHeld := lifetimeHeld - request.lifetime;
      }
      var swapped := cacheManager.SwapOutRequested(request.id);
      ManagerIsValid(cacheManager);
      preemptionInfo := preemptionInfo[request.id := PreemptionInfo(reason, swapped)];
      preempted := preempted + [request];
      ok := true;
    }

    method ResumeRequest(id: nat) returns (ok: bool)
      requires Valid()
      modifies Repr()
      ensures Valid() && cacheManager.allocator.backend == old(cacheManager.allocator.backend)
      ensures (Model(), ok) == Resume(old(Model()), id)
    {
      hide SwapInRequest, CacheRuns.Inv, ValidPool, KVCacheManager.Model, KVCacheManager.Valid;
      var it := Find(preempted, id);
      if it.None? {
        return false;
      }
      var restored := cacheManager.SwapInRequested(preempted[it.value].id);
      ManagerIsValid(cacheManager);
      if !restored {
        return false;
      }
      var request := preempted[it.value];
      preempted := preempted[..it.value] + preempted[it.value + 1..];
      request := request.(state := if request.remaining > 0 then Prefill else Decode);
      lifetimeHeld := lifetimeHeld + request.lifetime;
      preemptionInfo := preemptionInfo - {id};
      active := active + [request];
      ok := true;
    }

    method DischargeLifetime(request: Request)
      modifies this`lifetimeHeld
      ensures lifetimeHeld == Discharge(old(lifetimeHeld), request.lifetime)
    {
      if request.lifetime > 0 && lifetimeHeld >= request.lifetime {
        lifetimeHeld := lifetimeHeld - request.lifetime;
      }
    }

    method CancelRequest(id: nat)
      requires Valid()
      modifies Repr()
      ensures Valid() && cacheManager.allocator.backend == old(cacheManager.allocator.backend)
      ensures Model() == Cancel(old(Model()), id)
    {
      hide Cancel, FindRequest, Discharge, ReleaseRequest, CacheRuns.Inv, ValidPool, KVCacheManager.Model, KVCacheManager.Valid;
      SchedulerLedger.CancelIs(Model(), id);
      var it := Find(pending, id);
      if it.Some? {
        DischargeLifetime(pending[it.value]);
        cacheManager.ReleaseRequested(pending[it.value].id);
        ManagerIsValid(cacheManager);
        pending := Removed(pending, it.value);
        preemptionInfo := preemptionInfo - {id};
        return;
      }
      it := Find(active, id);
      if it.Some? {
        DischargeLifetime(active[it.value]);
        cacheManager.ReleaseRequested(active[it.value].id);
        ManagerIsValid(cacheManager);
        active := Removed(active, it.value);
        preemptionInfo := preemptionInfo - {id};
        return;
      }
      it := Find(preempted, id);
      if it.Some? {
        DischargeLifetime(preempted[it.value]);
        cacheManager.ReleaseRequested(preempted[it.value].id);
        ManagerIsValid(cacheManager);
        preempted := Removed(preempted, it.value);
        preemptionInfo := preemptionInfo - {id};
      }
    }

    method CompleteRequest(id: nat, produced: nat)
      requires Valid()
      modifies this`active
      ensures Valid() && Model() == CompleteStep(old(Model()), id, produced)
    {
      var it := Find(active, id);
      if it.None? {
        return;
      }
      var request := active[it.value];
      if request.state == Prefill {
        if produced >= request.remaining {
          request := request.(remaining := 0, state := Decode);
        } else {
          request := request.(remaining := request.remaining - produced);
        }
      }
      active := active[it.value := request];
    }

    method State(id: nat) returns (state: Option<RequestState>)
      ensures state == StateOf(Model(), id)
    {
      var it := Find(pending, id);
      if it.Some? {
        return Some(pending[it.value].state);
      }
      it := Find(active, id);
      if it.Some? {
        return Some(active[it.value].state);
      }
      it := Find(preempted, id);
      if it.Some? {
        return Some(preempted[it.value].state);
      }
      state := None;
    }

    /** Preempts active requests, newest first, sparing those admitted in this step. */
    method Reclaim(prompt: nat, maxDecode: nat, admitted: nat)
      requires Valid()
      modifies Repr()
      ensures Valid() && cacheManager.allocator.backend == old(cacheManager.allocator.backend)
      ensures Model() == ReclaimForAdmission(old(Model()), prompt, maxDecode, admitted)
    {
      hide Preempt, CacheRuns.Inv, ValidPool, BlocksForTokens, ReclaimLoop, KVCacheManager.Valid, KVCacheManager.Model;
      ManagerSizes(cacheManager);
      if config.watermark == 0 {
        return;
      }
      var total := |cacheManager.allocator.infos|;
      var needed := CountBlocks(prompt + maxDecode);
      if needed == 0 || needed > total {
        return;
      }
      var required := Min(needed + config.watermark, total);
      SchedulerPlans.ReclaimStep(Model(), needed, required, admitted);
      while |active| > admitted && (|cacheManager.allocator.freeList| < required || lifetimeHeld + needed > |cacheManager.allocator.infos|)
        invariant Valid() && cacheManager.allocator.backend == old(cacheManager.allocator.backend)
        invariant ReclaimLoop(Model(), needed, required, admitted) == ReclaimLoop(old(Model()), needed, required, admitted)
        invariant Settled(Model(), needed, required, admitted)
        invariant FreeFrames(Model()) == |cacheManager.allocator.freeList| && TotalFrames(Model()) == |cacheManager.allocator.infos|
        decreases |active|
      {
        SchedulerPlans.ReclaimStep(Model(), needed, required, admitted);
        var before := |cacheManager.allocator.freeList|;
        var victim := active[|active| - admitted - 1].id;
        var ok := PreemptRequest(victim, WatermarkReason);
        ManagerSizes(cacheManager);
        if !ok {
          break;
        }
        if |cacheManager.allocator.freeList| <= before {
          break;
        }
        SchedulerPlans.ReclaimStep(Model(), needed, required, admitted);
      }
    }

    method PlaceSequence(candidate: Request) returns (ok: bool)
      requires Valid()
      modifies cacheManager.Repr()
      ensures Valid() && cacheManager.allocator.backend == old(cacheManager.allocator.backend)
      ensures (cacheManager.Model(), ok) == Place(old(cacheManager.Model()), candidate)
    {
      hide CreateSequence, AttachPrefix, ReserveTokens, ReleaseRequest, PrefixTokenCount, CacheRuns.Inv, ValidPool;
      CreateOrNothing(cacheManager.Model(), candidate.root, candidate.id);
      var created := cacheManager.Create(candidate.root, candidate.id);
      ManagerIsValid(cacheManager);
      if !created {
        return false;
      }
      var cached := 0;
      if candidate.key != "" {
        cached := cacheManager.PrefixTokens(candidate.key);
      }
      var attached := 0;
      if cached > 0 && cached <= candidate.prompt {
        attached := cacheManager.Attach(candidate.root, candidate.key);
      }
      ManagerIsValid(cacheManager);
      var stillNeed := if candidate.prompt > attached then candidate.prompt - attached else 0;
      var reserved := true;
      if stillNeed > 0 {
        reserved := cacheManager.Reserve(candidate.root, stillNeed);
      }
      ManagerIsValid(cacheManager);
      if !reserved || (candidate.prompt > 0 && attached == 0 && stillNeed == 0) {
        cacheManager.ReleaseRequested(candidate.id);
        ManagerIsValid(cacheManager);
        return false;
      }
      ok := true;
    }

    /** On success returns the request as admitted; the caller moves it. */
    method TryAdmitRequest(candidate: Request, plan: Plan, admitted: nat) returns (plan': Plan, request: Option<Request>)
      requires Valid()
      modifies Repr()
      ensures Valid() && cacheManager.allocator.backend == old(cacheManager.allocator.backend)
      ensures (Model(), plan', request) == TryAdmit(old(Model()), candidate, plan, admitted)
      ensures pending == old(pending)
    {
      hide ReclaimForAdmission, Place, PrefillChunk, LifetimeBlocksFor, CacheRuns.Inv, ValidPool;
      plan', request := plan, None;
      if plan.scheduled >= config.maxBatch {
        return;
      }
      var needed := LifetimeBlocks(candidate);
      if needed > |cacheManager.allocator.infos| {
        return;
      }
      Reclaim(candidate.prompt, candidate.maxDecode, admitted);
      if lifetimeHeld + needed > |cacheManager.allocator.infos| {
        return;
      }
      var ok := PlaceSequence(candidate);
      if !ok {
        return;
      }
      var c := candidate.(lifetime := needed, state := Prefill);
      lifetimeHeld := lifetimeHeld + needed;
      if c.remaining == 0 {
        c := c.(remaining := c.prompt);
      }
      plan' := AddPrefillChunk(c, plan, config.maxBatch);
      request := Some(c);
    }

    /** Size-aware admission: the first request of the queue that fits. */
    method ScanPending(plan: Plan) returns (plan': Plan, pick: Option<(nat, Request)>)
      requires Valid()
      modifies Repr()
      ensures Valid() && cacheManager.allocator.backend == old(cacheManager.allocator.backend)
      ensures (Model(), plan', pick) == Scan(old(Model()), plan, 0)
      ensures pending == old(pending)
    {
      hide TryAdmit, CacheRuns.Inv, ValidPool;
      plan', pick := plan, None;
      var it := 0;
      while it < |pending|
        invariant it <= |pending| && pending == old(pending) && pick.None?
        invariant Valid() && cacheManager.allocator.backend == old(cacheManager.allocator.backend)
        invariant Scan(Model(), plan', it) == Scan(old(Model()), plan, 0)
      {
        var request: Option<Request>;
        plan', request := TryAdmitRequest(pending[it], plan', |plan'.prefill|);
        if request.Some? {
          pick := Some((it, request.value));
          return;
        }
        it := it + 1;
      }
    }

    method AdmitFromPending(plan: Plan) returns (plan': Plan)
      requires Valid()
      modifies Repr()
      ensures Valid() && cacheManager.allocator.backend == old(cacheManager.allocator.backend)
      ensures (Model(), plan') == Admitting(old(Model()), plan)
    {
      hide Admitting, AdmitLoop, TryAdmit, Scan, BumpSkips, CacheRuns.Inv, ValidPool, KVCacheManager.Model, KVCacheManager.Valid;
      plan' := plan;
      while pending != [] && |active| < config.maxActive
        invariant Valid() && cacheManager.allocator.backend == old(cacheManager.allocator.backend)
        invariant Admitting(Model(), plan') == Admitting(old(Model()), plan)
        decreases |pending|
      {
        AdmitRound(Model(), plan');
        var mustTakeHead := !config.sizeAware || pending[0].skips >= config.skipLimit;
        if mustTakeHead {
          var request: Option<Request>;
          plan', request := TryAdmitRequest(pending[0], plan', |plan'.prefill|);
          if request.None? {
            break;
          }
          pending := SkipAndErase(pending, 0);
          active := active + [request.value];
        } else {
          var pick: Option<(nat, Request)>;
          plan', pick := ScanPending(plan');
          if pick.None? {
            break;
          }
          pending := SkipAndErase(pending, pick.value.0);
          active := active + [pick.value.1];
        }
      }
      AdmitRound(Model(), plan');
    }

    method Next() returns (plan: Plan)
      requires Valid()
      modifies Repr()
      ensures Valid() && cacheManager.allocator.backend == old(cacheManager.allocator.backend)
      ensures (Model(), plan) == ScheduleNext(old(Model()))
    {
      hide AdmitLoop, PlanPrefill, PlanDecode, CacheRuns.Inv, ValidPool;
      plan := AdmitFromPending(EmptyPlan);
      plan := AddCarriedPrefill(active, plan, config.maxBatch);
      plan := AddDecodeTokens(active, plan, config.maxBatch);
    }
  }
}
