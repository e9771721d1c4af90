/**
  The continuous-batching scheduler as a value: three queues, the lifetime ledger and the cache
  store it drives.  Each function is one call, or one loop of a call.
 */
module SchedulerModel {
  import opened Wrappers
  import opened Arithmetic
  import opened FramePool
  import opened CacheStore

  datatype RequestState = Pending | Prefill | Decode | Preempted

  datatype Request = Request(
    id: nat, root: nat, prompt: nat, maxDecode: nat, key: string,
    state: RequestState, remaining: nat, skips: nat, lifetime: nat)

  datatype Config = Config(
    maxActive: nat, maxBatch: nat, watermark: nat, sizeAware: bool, skipLimit: nat)

  datatype PreemptionInfo = PreemptionInfo(reason: string, swapped: nat)

  datatype Plan = Plan(prefill: seq<nat>, chunks: seq<nat>, decode: seq<nat>, scheduled: nat)

  datatype Sched = Sched(
    cfg: Config, pending: seq<Request>, active: seq<Request>, preempted: seq<Request>,
    info: map<nat, PreemptionInfo>, held: nat, store: Store)

  const EmptyPlan := Plan([], [], [], 0)

  function TotalFrames(s: Sched): nat { |s.store.pool.infos| }

  function FreeFrames(s: Sched): nat { |s.store.pool.free| }

  /** The first request with this id. */
  function FindRequest(q: seq<Request>, id: nat): (r: Option<nat>)
    ensures r.Some? ==> r.value < |q| && q[r.value].id == id
    ensures r.None? ==> forall i :: 0 <= i < |q| ==> q[i].id != id
  {
    if q == [] then None
    else if q[0].id == id then Some(0)
    else
      var r := FindRequest(q[1..], id);
      if r.Some? then Some(r.value + 1) else None
  }

  function Removed<T>(q: seq<T>, i: nat): seq<T>
    requires i < |q|
  {
    q[..i] + q[i + 1..]
  }

  /** How many frames that many tokens occupy: one block per table and token block. */
  function BlocksForTokens(p: Pool, tokens: nat): nat {
    var tpb := TokensPerBlock(p);
    if tpb == 0 then 0 else CeilDiv(tokens, tpb) * TableCount(p)
  }

  function UsablePrefix(st: Store, r: Request): (n: nat)
    ensures n <= r.prompt
  {
    var cached := if r.key == "" then 0 else PrefixTokenCount(st, r.key);
    if cached <= r.prompt then cached else 0
  }

  function LifetimeBlocksFor(st: Store, r: Request): nat {
    BlocksForTokens(st.pool, r.prompt - UsablePrefix(st, r) + r.maxDecode)
  }

  // ---- Queue moves -----------------------------------------------------------------------

  function Enqueue(s: Sched, r: Request): Sched {
    s.(pending := s.pending + [r.(state := Pending, remaining := r.prompt, skips := 0, lifetime := 0)])
  }

  function Discharge(held: nat, lifetime: nat): nat {
    if lifetime > 0 && held >= lifetime then held - lifetime else held
  }

  function Preempt(s: Sched, id: nat, reason: string): (r: (Sched, bool))
    requires ValidPool(s.store.pool)
    ensures ValidPool(r.0.store.pool) && r.0.pending == s.pending && r.0.cfg == s.cfg
    ensures |r.0.active| == |s.active| - if r.1 then 1 else 0
  {
    match FindRequest(s.active, id)
    case None => (s, false)
    case Some(i) =>
      var r := s.active[i].(state := Preempted);
      var (store, swapped) := SwapOutRequest(s.store, id);
      (s.(active := Removed(s.active, i), preempted := s.preempted + [r],
          held := Discharge(s.held, r.lifetime),
          info := s.info[id := PreemptionInfo(reason, swapped)], store := store), true)
  }

  function Resume(s: Sched, id: nat): (r: (Sched, bool))
    requires ValidPool(s.store.pool)
    ensures ValidPool(r.0.store.pool)
  {
    match FindRequest(s.preempted, id)
    case None => (s, false)
    case Some(i) =>
      var (store, ok) := SwapInRequest(s.store, id);
      if !ok then (s.(store := store), false)
      else
        var r := s.preempted[i];
        (s.(preempted := Removed(s.preempted, i),
            active := s.active + [r.(state := if r.remaining > 0 then Prefill else Decode)],
            held := s.held + r.lifetime, info := s.info - {id}, store := store), true)
  }

  /** Looks in the pending, active and preempted queues, in that order. */
  function Cancel(s: Sched, id: nat): (r: Sched)
    requires ValidPool(s.store.pool)
    ensures ValidPool(r.store.pool)
  {
    var freed := s.(store := ReleaseRequest(s.store, id), info := s.info - {id});
    match FindRequest(s.pending, id)
    case Some(i) => freed.(pending := Removed(s.pending, i), held := Discharge(s.held, s.pending[i].lifetime))
    case None =>
      match FindRequest(s.active, id)
      case Some(i) => freed.(active := Removed(s.active, i), held := Discharge(s.held, s.active[i].lifetime))
      case None =>
        match FindRequest(s.preempted, id)
        case Some(i) => freed.(preempted := Removed(s.preempted, i), held := Discharge(s.held, s.preempted[i].lifetime))
        case None => s
  }

  function Progress(r: Request, produced: nat): Request {
    if r.state != Prefill then r
    else if produced >= r.remaining then r.(remaining := 0, state := Decode)
    else r.(remaining := r.remaining - produced)
  }

  function CompleteStep(s: Sched, id: nat, produced: nat): Sched {
    match FindRequest(s.active, id)
    case None => s
    case Some(i) => s.(active := s.active[i := Progress(s.active[i], produced)])
  }

  function StateOf(s: Sched, id: nat): Option<RequestState> {
    match FindRequest(s.pending, id)
    case Some(i) => Some(s.pending[i].state)
    case None =>
      match FindRequest(s.active, id)
      case Some(i) => Some(s.active[i].state)
      case None =>
        match FindRequest(s.preempted, id)
        case Some(i) => Some(s.preempted[i].state)
        case None => None
  }

  // ---- Building a plan ----------------------------------------------------------------------

  function PrefillChunk(r: Request, plan: Plan, maxBatch: nat): Plan {
    if r.remaining == 0 || plan.scheduled >= maxBatch then plan
    else
      var chunk := Min(r.remaining, maxBatch - plan.scheduled);
      plan.(prefill := plan.prefill + [r.id], chunks := plan.chunks + [chunk], scheduled := plan.scheduled + chunk)
  }

  const WatermarkReason: string := "cache pressure watermark"

  /** Preempts the newest request not admitted in this call until the demand fits or nothing more is gained. */
  function ReclaimLoop(s: Sched, needed: nat, required: nat, admitted: nat): (r: Sched)
    requires ValidPool(s.store.pool)
    ensures ValidPool(r.store.pool) && r.pending == s.pending && r.cfg == s.cfg
    decreases |s.active|
  {
    if |s.active| <= admitted || (FreeFrames(s) >= required && s.held + needed <= TotalFrames(s)) then s
    else
      var (s1, ok) := Preempt(s, s.active[|s.active| - admitted - 1].id, WatermarkReason);
      if !ok || FreeFrames(s1) <= FreeFrames(s) then s1 else ReclaimLoop(s1, needed, required, admitted)
  }

  function ReclaimForAdmission(s: Sched, prompt: nat, maxDecode: nat, admitted: nat): (r: Sched)
    requires ValidPool(s.store.pool)
    ensures ValidPool(r.store.pool) && r.pending == s.pending && r.cfg == s.cfg
  {
    var needed := BlocksForTokens(s.store.pool, prompt + maxDecode);
    if s.cfg.watermark == 0 || needed == 0 || needed > TotalFrames(s) then s
    else ReclaimLoop(s, needed, Min(needed + s.cfg.watermark, TotalFrames(s)), admitted)
  }

  /** Creates the root sequence, attaches the published prefix if it fits, and reserves the rest. */
  function Place(st: Store, c: Request): (r: (Store, bool))
    requires ValidPool(st.pool)
    ensures ValidPool(r.0.pool)
  {
    var (st1, created) := CreateSequence(st, c.root, c.id);
    if !created then (st, false)
    else
      var cached := if c.key == "" then 0 else PrefixTokenCount(st1, c.key);
      var (st2, attached) := if 0 < cached <= c.prompt then AttachPrefix(st1, c.root, c.key) else (st1, 0);
      var stillNeed := if c.prompt > attached then c.prompt - attached else 0;
      var (st3, reserved) := if stillNeed > 0 then ReserveTokens(st2, c.root, stillNeed) else (st2, true);
      if !reserved || (c.prompt > 0 && attached == 0 && stillNeed == 0) then (ReleaseRequest(st3, c.id), false)
      else (st3, true)
  }

  /** On success, the request as it joins the active queue. */
  function TryAdmit(s: Sched, c: Request, plan: Plan, admitted: nat): (r: (Sched, Plan, Option<Request>))
    requires ValidPool(s.store.pool)
    ensures ValidPool(r.0.store.pool) && r.0.pending == s.pending && r.0.cfg == s.cfg
    ensures r.2.None? ==> r.1 == plan
  {
    var needed := LifetimeBlocksFor(s.store, c);
    if plan.scheduled >= s.cfg.maxBatch || needed > TotalFrames(s) then (s, plan, None)
    else
      var s1 := ReclaimForAdmission(s, c.prompt, c.maxDecode, admitted);
      if s1.held + needed > TotalFrames(s1) then (s1, plan, None)
      else
        var (store, ok) := Place(s1.store, c);
        if !ok then (s1.(store := store), plan, None)
        else
          var c1 := c.(lifetime := needed, state := Prefill,
                       remaining := if c.remaining == 0 then c.prompt else c.remaining);
          (s1.(store := store, held := s1.held + needed), PrefillChunk(c1, plan, s.cfg.maxBatch), Some(c1))
  }

  function BumpSkips(q: seq<Request>): (r: seq<Request>) {
    seq(|q|, i requires 0 <= i < |q| => q[i].(skips := q[i].skips + 1))
  }

  /** The request at position i leaves the pending queue; everything before it was skipped. */
  function MoveToActive(s: Sched, i: nat, c: Request): Sched
    requires i < |s.pending|
  {
    s.(pending := BumpSkips(s.pending[..i]) + s.pending[i + 1..], active := s.active + [c])
  }

  /** The first request from position i on that can be admitted. */
  function Scan(s: Sched, plan: Plan, i: nat): (r: (Sched, Plan, Option<(nat, Request)>))
    requires ValidPool(s.store.pool) && i <= |s.pending|
    ensures ValidPool(r.0.store.pool) && r.0.pending == s.pending && r.0.cfg == s.cfg
    ensures r.2.Some? ==> i <= r.2.value.0 < |s.pending|
    decreases |s.pending| - i
  {
    if i == |s.pending| then (s, plan, None)
    else
      var (s1, plan1, c) := TryAdmit(s, s.pending[i], plan, |plan.prefill|);
      if c.Some? then (s1, plan1, Some((i, c.value))) else Scan(s1, plan1, i + 1)
  }

  predicate MustTakeHead(s: Sched)
    requires s.pending != []
  {
    !s.cfg.sizeAware || s.pending[0].skips >= s.cfg.skipLimit
  }

  /** One round of admission: the head alone, or the first of the queue that fits. */
  function Pick(s: Sched, plan: Plan): (r: (Sched, Plan, Option<(nat, Request)>))
    requires ValidPool(s.store.pool) && s.pending != []
    ensures ValidPool(r.0.store.pool) && r.0.pending == s.pending && r.0.cfg == s.cfg
    ensures r.2.Some? ==> r.2.value.0 < |s.pending| && (MustTakeHead(s) ==> r.2.value.0 == 0)
  {
    if MustTakeHead(s) then
      var (s1, plan1, c) := TryAdmit(s, s.pending[0], plan, |plan.prefill|);
      (s1, plan1, if c.Some? then Some((0, c.value)) else None)
    else Scan(s, plan, 0)
  }

  /** Admits until a round fails; also says which queue position each round took. */
  function AdmitLoop(s: Sched, plan: Plan): (r: (Sched, Plan, seq<nat>))
    requires ValidPool(s.store.pool)
    ensures ValidPool(r.0.store.pool) && r.0.cfg == s.cfg
    decreases |s.pending|
  {
    if s.pending == [] || |s.active| >= s.cfg.maxActive then (s, plan, [])
    else
      var (s1, plan1, pick) := Pick(s, plan);
      if pick.None? then (s1, plan1, [])
      else
        var (i, c) := pick.value;
        var (s2, plan2, picks) := AdmitLoop(MoveToActive(s1, i, c), plan1);
        (s2, plan2, [i] + picks)
  }

  /** Prefill work of requests that are not in the plan yet, in queue order. */
  function PlanPrefill(q: seq<Request>, plan: Plan, maxBatch: nat): Plan
    decreases |q|
  {
    if q == [] then plan
    else
      PlanPrefill(q[1..],
                  if q[0].state == Prefill && q[0].id !in plan.prefill then PrefillChunk(q[0], plan, maxBatch) else plan,
                  maxBatch)
  }

  function PlanDecode(q: seq<Request>, plan: Plan, maxBatch: nat): Plan
    decreases |q|
  {
    if q == [] then plan
    else if q[0].state != Decode then PlanDecode(q[1..], plan, maxBatch)
    else if plan.scheduled >= maxBatch then plan
    else PlanDecode(q[1..], plan.(decode := plan.decode + [q[0].id], scheduled := plan.scheduled + 1), maxBatch)
  }

  function ScheduleNext(s: Sched): (r: (Sched, Plan))
    requires ValidPool(s.store.pool)
    ensures ValidPool(r.0.store.pool)
  {
    var (s1, plan1, _) := AdmitLoop(s, EmptyPlan);
    (s1, PlanDecode(s1.active, PlanPrefill(s1.active, plan1, s.cfg.maxBatch), s.cfg.maxBatch))
  }
}
