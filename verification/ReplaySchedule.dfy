/**
  The schedule of the contiguous replay, told without its loops: requests are booked in order, each
  at the first step at which the active limit and the free blocks admit it, in the lowest run of free
  blocks that holds it, and it keeps that run for as many steps as it has turns.
 */
module ReplaySchedule {
  import opened Wrappers
  import opened Arithmetic

  datatype TraceRequest = TraceRequest(prompt: nat, decodeBudget: nat, decodeActual: nat)

  datatype ReplayConfig = ReplayConfig(tokensPerBlock: nat, maxBlocks: nat, maxActive: nat, maxContext: nat, maxSteps: nat)

  function RequestBlocks(r: TraceRequest, c: ReplayConfig): nat
    requires c.tokensPerBlock > 0
  {
    CeilDiv(Min(c.maxContext, r.prompt + r.decodeBudget), c.tokensPerBlock)
  }

  predicate Servable(r: TraceRequest, c: ReplayConfig)
    requires c.tokensPerBlock > 0
  {
    r.prompt + r.decodeBudget <= c.maxContext && RequestBlocks(r, c) <= c.maxBlocks
  }

  /** A request can be served exactly when its declared tokens fit the context limit and the whole pool. */
  lemma ServableIff(r: TraceRequest, c: ReplayConfig)
    requires c.tokensPerBlock > 0
    ensures var tokens := r.prompt + r.decodeBudget;
            && (Servable(r, c) <==> tokens <= c.maxContext && tokens <= c.maxBlocks * c.tokensPerBlock)
            && (Servable(r, c) ==> forall n: nat :: RequestBlocks(r, c) <= n <==> tokens <= n * c.tokensPerBlock)
  {
    var tokens := r.prompt + r.decodeBudget;
    CeilDivIsLeastCover(Min(c.maxContext, tokens), c.tokensPerBlock, c.maxBlocks);
    if Servable(r, c) {
      forall n: nat
        ensures RequestBlocks(r, c) <= n <==> tokens <= n * c.tokensPerBlock
      {
        CeilDivIsLeastCover(tokens, c.tokensPerBlock, n);
      }
    }
  }

  /** Steps a request decodes for once admitted. */
  function Turns(r: TraceRequest): nat { if r.decodeActual == 0 then 1 else r.decodeActual }

  predicate FreeRun(used: seq<bool>, start: nat, n: nat) {
    start + n <= |used| && forall b :: start <= b < start + n ==> !used[b]
  }

  /**
    The lowest free run of a positive length, or nothing exactly when there is none.  A request for
    no blocks at all is placed behind the first used block, and so finds no place on an idle pool.
   */
  ghost predicate LowestFit(used: seq<bool>, needed: nat, start: Option<nat>) {
    if needed > 0 then
      && (start.Some? ==> FreeRun(used, start.value, needed) && forall s :: 0 <= s < start.value ==> !FreeRun(used, s, needed))
      && (start.None? <==> forall s :: 0 <= s ==> !FreeRun(used, s, needed))
    else
      && (start.None? <==> forall b :: 0 <= b < |used| ==> !used[b])
      && (start.Some? ==> 0 < start.value <= |used| && used[start.value - 1] && forall b :: 0 <= b < start.value - 1 ==> !used[b])
  }

  lemma LowestFitIsUnique(used: seq<bool>, needed: nat, a: Option<nat>, b: Option<nat>)
    requires LowestFit(used, needed, a) && LowestFit(used, needed, b)
    ensures a == b
  {
    if a.Some? && b.Some? && needed > 0 {
      assert FreeRun(used, a.value, needed) && FreeRun(used, b.value, needed);
    }
  }

  // ---- Bookings --------------------------------------------------------------------------------------------

  /** The step at which a request is admitted (or passed over, if no pool could serve it), and its first block. */
  datatype Booking = Booking(step: nat, start: nat)

  /** The last step in which request i is active. */
  function Last(reqs: seq<TraceRequest>, c: ReplayConfig, bs: seq<Booking>, i: nat): nat
    requires c.tokensPerBlock > 0 && i < |bs| <= |reqs|
  {
    bs[i].step + if Servable(reqs[i], c) then Turns(reqs[i]) - 1 else 0
  }

  /** Request i is active while requests are admitted in step t. */
  predicate Runs(reqs: seq<TraceRequest>, c: ReplayConfig, bs: seq<Booking>, i: nat, t: nat)
    requires c.tokensPerBlock > 0 && i < |bs| <= |reqs|
  {
    Servable(reqs[i], c) && bs[i].step <= t <= Last(reqs, c, bs, i)
  }

  predicate Occupies(reqs: seq<TraceRequest>, c: ReplayConfig, bs: seq<Booking>, i: nat, b: int)
    requires c.tokensPerBlock > 0 && i < |bs| <= |reqs|
  {
    bs[i].start <= b < bs[i].start + RequestBlocks(reqs[i], c)
  }

  /** The blocks that the first n requests occupy in step t. */
  ghost function Occupied(reqs: seq<TraceRequest>, c: ReplayConfig, bs: seq<Booking>, n: nat, t: nat): (r: seq<bool>)
    requires c.tokensPerBlock > 0 && n <= |bs| <= |reqs|
    ensures |r| == c.maxBlocks
  {
    seq(c.maxBlocks, b requires 0 <= b < c.maxBlocks => exists i :: 0 <= i < n && Runs(reqs, c, bs, i, t) && Occupies(reqs, c, bs, i, b))
  }

  /** How many of the first n requests are active in step t. */
  function Running(reqs: seq<TraceRequest>, c: ReplayConfig, bs: seq<Booking>, n: nat, t: nat): nat
    requires c.tokensPerBlock > 0 && n <= |bs| <= |reqs|
  {
    if n == 0 then 0 else Running(reqs, c, bs, n - 1, t) + if Runs(reqs, c, bs, n - 1, t) then 1 else 0
  }

  /** Request i cannot be admitted in step t, those before it being booked: too many are active, or it has no place. */
  ghost predicate Refused(reqs: seq<TraceRequest>, c: ReplayConfig, bs: seq<Booking>, i: nat, t: nat)
    requires c.tokensPerBlock > 0 && i <= |bs| <= |reqs| && i < |reqs|
  {
    || Running(reqs, c, bs, i, t) >= c.maxActive
    || (Servable(reqs[i], c) && LowestFit(Occupied(reqs, c, bs, i, t), RequestBlocks(reqs[i], c), None))
  }

  /** The first step at which request i has its turn. */
  function Turn(bs: seq<Booking>, i: nat): nat
    requires i <= |bs|
  {
    if i == 0 then 1 else bs[i - 1].step
  }

  /** Request i is admitted at the first step at which it is not refused, in the lowest place. */
  ghost predicate Booked(reqs: seq<TraceRequest>, c: ReplayConfig, bs: seq<Booking>, i: nat)
    requires c.tokensPerBlock > 0 && i < |bs| <= |reqs|
  {
    && Turn(bs, i) <= bs[i].step && !Refused(reqs, c, bs, i, bs[i].step)
    && (forall t :: Turn(bs, i) <= t < bs[i].step ==> Refused(reqs, c, bs, i, t))
    && (Servable(reqs[i], c) ==> LowestFit(Occupied(reqs, c, bs, i, bs[i].step), RequestBlocks(reqs[i], c), Some(bs[i].start)))
    && (!Servable(reqs[i], c) ==> bs[i].start == 0)
  }

  ghost predicate Schedule(reqs: seq<TraceRequest>, c: ReplayConfig, bs: seq<Booking>)
    requires c.tokensPerBlock > 0
  {
    |bs| <= |reqs| && forall i :: 0 <= i < |bs| ==> Booked(reqs, c, bs, i)
  }

  /** The next request in line was refused in every step up to t. */
  ghost predicate Waits(reqs: seq<TraceRequest>, c: ReplayConfig, bs: seq<Booking>, t: nat)
    requires c.tokensPerBlock > 0 && |bs| <= |reqs|
  {
    |bs| < |reqs| ==> forall u :: Turn(bs, |bs|) <= u <= t ==> Refused(reqs, c, bs, |bs|, u)
  }

  // ---- What a booking depends on -----------------------------------------------------------------------------

  lemma {:induction false} RunningOnPrefix(reqs: seq<TraceRequest>, c: ReplayConfig, bs: seq<Booking>, bs': seq<Booking>, n: nat, t: nat)
    requires c.tokensPerBlock > 0 && n <= |bs| <= |reqs| && n <= |bs'| <= |reqs| && bs[..n] == bs'[..n]
    ensures Running(reqs, c, bs, n, t) == Running(reqs, c, bs', n, t)
  {
    hide Servable;
    if n > 0 {
      assert bs[n - 1] == bs[..n][n - 1] && bs'[n - 1] == bs'[..n][n - 1];
      assert bs[..n - 1] == bs[..n][..n - 1] && bs'[..n - 1] == bs'[..n][..n - 1];
      RunningOnPrefix(reqs, c, bs, bs', n - 1, t);
    }
  }

  lemma OccupiedOnPrefix(reqs: seq<TraceRequest>, c: ReplayConfig, bs: seq<Booking>, bs': seq<Booking>, n: nat, t: nat)
    requires c.tokensPerBlock > 0 && n <= |bs| <= |reqs| && n <= |bs'| <= |reqs| && bs[..n] == bs'[..n]
    ensures Occupied(reqs, c, bs, n, t) == Occupied(reqs, c, bs', n, t)
  {
    hide Servable, RequestBlocks;
    forall i | 0 <= i < n
      ensures bs[i] == bs'[i]
    {
      assert bs[..n][i] == bs'[..n][i];
    }
    forall b | 0 <= b < c.maxBlocks
      ensures Occupied(reqs, c, bs, n, t)[b] == Occupied(reqs, c, bs', n, t)[b]
    {
      assert forall i :: 0 <= i < n ==> Runs(reqs, c, bs, i, t) == Runs(reqs, c, bs', i, t) && Occupies(reqs, c, bs, i, b) == Occupies(reqs, c, bs', i, b);
    }
  }

  lemma RefusedOnPrefix(reqs: seq<TraceRequest>, c: ReplayConfig, bs: seq<Booking>, bs': seq<Booking>, i: nat, t: nat)
    requires c.tokensPerBlock > 0 && i <= |bs| <= |reqs| && i <= |bs'| <= |reqs| && i < |reqs| && bs[..i] == bs'[..i]
    ensures Refused(reqs, c, bs, i, t) == Refused(reqs, c, bs', i, t)
  {
    hide Servable, RequestBlocks, LowestFit, Occupied, Running;
    RunningOnPrefix(reqs, c, bs, bs', i, t);
    OccupiedOnPrefix(reqs, c, bs, bs', i, t);
  }

  lemma BookedOnPrefix(reqs: seq<TraceRequest>, c: ReplayConfig, bs: seq<Booking>, bs': seq<Booking>, i: nat)
    requires c.tokensPerBlock > 0 && i < |bs| <= |reqs| && i < |bs'| <= |reqs| && bs[..i + 1] == bs'[..i + 1]
    ensures Booked(reqs, c, bs, i) ==> Booked(reqs, c, bs', i)
  {
    hide Servable, RequestBlocks, LowestFit, Occupied, Refused;
    assert bs[i] == bs[..i + 1][i] && bs'[i] == bs'[..i + 1][i];
    assert bs[..i] == bs[..i + 1][..i] && bs'[..i] == bs'[..i + 1][..i];
    assert i > 0 ==> bs[i - 1] == bs[..i + 1][i - 1] && bs'[i - 1] == bs'[..i + 1][i - 1];
    forall t: nat
      ensures Refused(reqs, c, bs, i, t) == Refused(reqs, c, bs', i, t)
    {
      RefusedOnPrefix(reqs, c, bs, bs', i, t);
    }
    OccupiedOnPrefix(reqs, c, bs, bs', i, bs[i].step);
  }

  /** One more booking keeps a schedule. */
  lemma ScheduleMore(reqs: seq<TraceRequest>, c: ReplayConfig, bs: seq<Booking>, b: Booking)
    requires c.tokensPerBlock > 0 && Schedule(reqs, c, bs) && |bs| < |reqs| && Booked(reqs, c, bs + [b], |bs|)
    ensures Schedule(reqs, c, bs + [b])
  {
    hide Booked;
    var bs' := bs + [b];
    forall i | 0 <= i < |bs'|
      ensures Booked(reqs, c, bs', i)
    {
      if i < |bs| {
        assert bs[..i + 1] == bs'[..i + 1];
        BookedOnPrefix(reqs, c, bs, bs', i);
      }
    }
  }

  /** Whoever has its turn and is not refused in step t is admitted then, in the lowest place. */
  lemma ScheduleAdmits(reqs: seq<TraceRequest>, c: ReplayConfig, bs: seq<Booking>, t: nat, b: Booking)
    requires c.tokensPerBlock > 0 && Schedule(reqs, c, bs) && |bs| < |reqs| && t > 0 && Waits(reqs, c, bs, t - 1)
    requires b.step == t && Running(reqs, c, bs, |bs|, t) < c.maxActive && forall i :: 0 <= i < |bs| ==> bs[i].step <= t
    requires Servable(reqs[|bs|], c) ==> LowestFit(Occupied(reqs, c, bs, |bs|, t), RequestBlocks(reqs[|bs|], c), Some(b.start))
    requires !Servable(reqs[|bs|], c) ==> b.start == 0
    ensures Schedule(reqs, c, bs + [b]) && Waits(reqs, c, bs + [b], t - 1)
  {
    hide Servable, RequestBlocks, LowestFit, Occupied, Running, Schedule;
    var n, bs' := |bs|, bs + [b];
    assert bs[..n] == bs'[..n];
    forall u: nat
      ensures Refused(reqs, c, bs', n, u) == Refused(reqs, c, bs, n, u)
    {
      RefusedOnPrefix(reqs, c, bs, bs', n, u);
    }
    OccupiedOnPrefix(reqs, c, bs, bs', n, t);
    if Servable(reqs[n], c) && LowestFit(Occupied(reqs, c, bs, n, t), RequestBlocks(reqs[n], c), None) {
      LowestFitIsUnique(Occupied(reqs, c, bs, n, t), RequestBlocks(reqs[n], c), None, Some(b.start));
    }
    assert Turn(bs', n) == Turn(bs, n);
    ScheduleMore(reqs, c, bs, b);
  }

  /** There is only one schedule: the replay has no choice. */
  lemma {:induction false} ScheduleIsUnique(reqs: seq<TraceRequest>, c: ReplayConfig, bs: seq<Booking>, bs': seq<Booking>, n: nat)
    requires c.tokensPerBlock > 0 && Schedule(reqs, c, bs) && Schedule(reqs, c, bs') && n <= |bs| && n <= |bs'|
    ensures bs[..n] == bs'[..n]
  {
    if n > 0 {
      ScheduleIsUnique(reqs, c, bs, bs', n - 1);
      BookingIsUnique(reqs, c, bs, bs', n - 1);
      assert bs[..n] == bs[..n - 1] + [bs[n - 1]] && bs'[..n] == bs'[..n - 1] + [bs'[n - 1]];
    }
  }

  lemma BookingIsUnique(reqs: seq<TraceRequest>, c: ReplayConfig, bs: seq<Booking>, bs': seq<Booking>, i: nat)
    requires c.tokensPerBlock > 0 && i < |bs| <= |reqs| && i < |bs'| <= |reqs| && bs[..i] == bs'[..i]
    requires Booked(reqs, c, bs, i) && Booked(reqs, c, bs', i)
    ensures bs[i] == bs'[i]
  {
    hide Servable, RequestBlocks, LowestFit, Occupied, Refused;
    assert i > 0 ==> bs[i - 1] == bs[..i][i - 1] && bs'[i - 1] == bs'[..i][i - 1];
    forall t: nat
      ensures Refused(reqs, c, bs, i, t) == Refused(reqs, c, bs', i, t)
    {
      RefusedOnPrefix(reqs, c, bs, bs', i, t);
    }
    OccupiedOnPrefix(reqs, c, bs, bs', i, bs[i].step);
    if Servable(reqs[i], c) {
      LowestFitIsUnique(Occupied(reqs, c, bs, i, bs[i].step), RequestBlocks(reqs[i], c), Some(bs[i].start), Some(bs'[i].start));
    }
  }

  // ---- How long it takes ---------------------------------------------------------------------------------------

  lemma StepsGrow(reqs: seq<TraceRequest>, c: ReplayConfig, bs: seq<Booking>, i: nat)
    requires c.tokensPerBlock > 0 && Schedule(reqs, c, bs) && i < |bs|
    ensures bs[i].step >= 1 && Last(reqs, c, bs, i) >= bs[i].step
    ensures Servable(reqs[i], c) ==> Last(reqs, c, bs, i) >= Turns(reqs[i])
  {
    hide Servable, RequestBlocks, LowestFit, Occupied, Refused;
    assert Booked(reqs, c, bs, i);
    if i > 0 {
      StepsGrow(reqs, c, bs, i - 1);
    }
  }

  /** How many of the first n requests are done after step t. */
  function Done(reqs: seq<TraceRequest>, c: ReplayConfig, bs: seq<Booking>, n: nat, t: nat): nat
    requires c.tokensPerBlock > 0 && n <= |bs| <= |reqs|
  {
    if n == 0 then 0 else Done(reqs, c, bs, n - 1, t) + if Last(reqs, c, bs, n - 1) <= t then 1 else 0
  }

  /** Whoever was booked is done or still active. */
  lemma {:induction false} DoneOrRunning(reqs: seq<TraceRequest>, c: ReplayConfig, bs: seq<Booking>, n: nat, t: nat)
    requires c.tokensPerBlock > 0 && n <= |bs| <= |reqs| && forall i :: 0 <= i < n ==> bs[i].step <= t
    ensures Done(reqs, c, bs, n, t) + Running(reqs, c, bs, n, t + 1) == n
  {
    hide Servable;
    if n > 0 {
      DoneOrRunning(reqs, c, bs, n - 1, t);
    }
  }

  lemma {:induction false} DoneIffAll(reqs: seq<TraceRequest>, c: ReplayConfig, bs: seq<Booking>, n: nat, t: nat)
    requires c.tokensPerBlock > 0 && n <= |bs| <= |reqs|
    ensures Done(reqs, c, bs, n, t) <= n
    ensures Done(reqs, c, bs, n, t) == n <==> forall i :: 0 <= i < n ==> Last(reqs, c, bs, i) <= t
  {
    hide Servable;
    if n > 0 {
      DoneIffAll(reqs, c, bs, n - 1, t);
    }
  }

  /** Every request can be served and needs a block. */
  ghost predicate AllServable(reqs: seq<TraceRequest>, c: ReplayConfig)
    requires c.tokensPerBlock > 0
  {
    forall i :: 0 <= i < |reqs| ==> Servable(reqs[i], c) && RequestBlocks(reqs[i], c) > 0
  }

  function TotalTurns(reqs: seq<TraceRequest>, n: nat): nat
    requires n <= |reqs|
  {
    if n == 0 then 0 else TotalTurns(reqs, n - 1) + Turns(reqs[n - 1])
  }

  lemma {:induction false} NobodyRuns(reqs: seq<TraceRequest>, c: ReplayConfig, bs: seq<Booking>, n: nat, t: nat)
    requires c.tokensPerBlock > 0 && n <= |bs| <= |reqs|
    ensures Running(reqs, c, bs, n, t) == 0 <==> forall i :: 0 <= i < n ==> !Runs(reqs, c, bs, i, t)
  {
    hide Servable, Runs;
    if n > 0 {
      NobodyRuns(reqs, c, bs, n - 1, t);
    }
  }

  lemma IdlePoolAdmits(reqs: seq<TraceRequest>, c: ReplayConfig, bs: seq<Booking>, i: nat, t: nat)
    requires c.tokensPerBlock > 0 && i <= |bs| <= |reqs| && i < |reqs| && c.maxActive > 0
    requires Servable(reqs[i], c) && RequestBlocks(reqs[i], c) > 0
    requires forall j :: 0 <= j < i ==> !Runs(reqs, c, bs, j, t)
    ensures !Refused(reqs, c, bs, i, t)
  {
    hide Runs, Occupies;
    NobodyRuns(reqs, c, bs, i, t);
    var used := Occupied(reqs, c, bs, i, t);
    assert forall b :: 0 <= b < |used| ==> !used[b];
    assert FreeRun(used, 0, RequestBlocks(reqs[i], c));
  }

  /** One request at a time: each starts when the one before is done, so the last step is the sum of all turns. */
  lemma {:induction false} OneAtATime(reqs: seq<TraceRequest>, c: ReplayConfig, bs: seq<Booking>, n: nat)
    requires c.tokensPerBlock > 0 && Schedule(reqs, c, bs) && n <= |bs| && c.maxActive == 1 && AllServable(reqs, c)
    ensures forall i :: 0 <= i < n ==> Last(reqs, c, bs, i) == TotalTurns(reqs, i + 1) && bs[i].step == TotalTurns(reqs, i) + 1
  {
    hide *;
    if n > 0 {
      OneAtATime(reqs, c, bs, n - 1);
      OneMoreAlone(reqs, c, bs, n - 1);
    }
  }

  lemma {:induction false} TotalGrows(reqs: seq<TraceRequest>, i: nat, n: nat)
    requires i <= n <= |reqs|
    ensures TotalTurns(reqs, i) <= TotalTurns(reqs, n)
  {
    if i < n {
      TotalGrows(reqs, i, n - 1);
    }
  }

  lemma OneMoreAlone(reqs: seq<TraceRequest>, c: ReplayConfig, bs: seq<Booking>, k: nat)
    requires c.tokensPerBlock > 0 && Schedule(reqs, c, bs) && k < |bs| && c.maxActive == 1 && AllServable(reqs, c)
    requires forall i :: 0 <= i < k ==> Last(reqs, c, bs, i) == TotalTurns(reqs, i + 1) && bs[i].step == TotalTurns(reqs, i) + 1
    ensures Last(reqs, c, bs, k) == TotalTurns(reqs, k + 1) && bs[k].step == TotalTurns(reqs, k) + 1
  {
    hide Servable, RequestBlocks, Refused;
    assert Servable(reqs[k], c) && RequestBlocks(reqs[k], c) > 0;
    assert Booked(reqs, c, bs, k);
    var t := TotalTurns(reqs, k) + 1;
    forall i | 0 <= i < k
      ensures !Runs(reqs, c, bs, i, t)
    {
      TotalGrows(reqs, i + 1, k);
    }
    IdlePoolAdmits(reqs, c, bs, k, t);
    if k > 0 {
      assert Servable(reqs[k - 1], c);
      forall u | bs[k - 1].step <= u < t
        ensures Refused(reqs, c, bs, k, u)
      {
        BusyRefuses(reqs, c, bs, k, k - 1, u);
      }
    }
  }

  lemma BusyRefuses(reqs: seq<TraceRequest>, c: ReplayConfig, bs: seq<Booking>, k: nat, i: nat, t: nat)
    requires c.tokensPerBlock > 0 && k <= |bs| <= |reqs| && k < |reqs| && i < k && Runs(reqs, c, bs, i, t) && c.maxActive == 1
    ensures Refused(reqs, c, bs, k, t)
  {
    hide Runs, Occupied, LowestFit;
    NobodyRuns(reqs, c, bs, k, t);
  }

  /** Blocks of the first n requests, side by side. */
  function TotalBlocks(reqs: seq<TraceRequest>, c: ReplayConfig, n: nat): nat
    requires c.tokensPerBlock > 0 && n <= |reqs|
  {
    if n == 0 then 0 else TotalBlocks(reqs, c, n - 1) + RequestBlocks(reqs[n - 1], c)
  }

  /** Everything fits at once: the active limit and the pool hold all requests side by side. */
  ghost predicate AllFit(reqs: seq<TraceRequest>, c: ReplayConfig)
    requires c.tokensPerBlock > 0
  {
    AllServable(reqs, c) && |reqs| <= c.maxActive && TotalBlocks(reqs, c, |reqs|) <= c.maxBlocks
  }

  lemma {:induction false} BlocksGrow(reqs: seq<TraceRequest>, c: ReplayConfig, i: nat, n: nat)
    requires c.tokensPerBlock > 0 && i <= n <= |reqs|
    ensures TotalBlocks(reqs, c, i) <= TotalBlocks(reqs, c, n)
  {
    hide RequestBlocks;
    if i < n {
      BlocksGrow(reqs, c, i, n - 1);
    }
  }

  /** One more request: a block is occupied if the others occupy it or the newcomer does. */
  lemma OccupiedByOneMore(reqs: seq<TraceRequest>, c: ReplayConfig, bs: seq<Booking>, k: nat, t: nat, b: nat)
    requires c.tokensPerBlock > 0 && k < |bs| <= |reqs| && b < c.maxBlocks
    ensures Occupied(reqs, c, bs, k + 1, t)[b] <==>
            Occupied(reqs, c, bs, k, t)[b] || (Runs(reqs, c, bs, k, t) && Occupies(reqs, c, bs, k, b))
  {
    hide Runs, Occupies;
    if Occupied(reqs, c, bs, k, t)[b] {
      var i :| 0 <= i < k && Runs(reqs, c, bs, i, t) && Occupies(reqs, c, bs, i, b);
    }
  }

  /** The requests admitted so far in the first step lie side by side from the first block on. */
  lemma {:induction false} SideBySide(reqs: seq<TraceRequest>, c: ReplayConfig, bs: seq<Booking>, k: nat, b: nat)
    requires c.tokensPerBlock > 0 && k <= |bs| <= |reqs| && AllServable(reqs, c) && b < c.maxBlocks
    requires forall i :: 0 <= i < k ==> bs[i] == Booking(1, TotalBlocks(reqs, c, i))
    ensures Occupied(reqs, c, bs, k, 1)[b] <==> b < TotalBlocks(reqs, c, k)
    decreases k
  {
    hide Servable, RequestBlocks;
    if k > 0 {
      SideBySide(reqs, c, bs, k - 1, b);
      OccupiedByOneMore(reqs, c, bs, k - 1, 1, b);
      assert Servable(reqs[k - 1], c);
    }
  }

  lemma {:induction false} RunningAtMost(reqs: seq<TraceRequest>, c: ReplayConfig, bs: seq<Booking>, n: nat, t: nat)
    requires c.tokensPerBlock > 0 && n <= |bs| <= |reqs|
    ensures Running(reqs, c, bs, n, t) <= n
  {
    hide Runs;
    if n > 0 {
      RunningAtMost(reqs, c, bs, n - 1, t);
    }
  }

  /** Everybody is admitted in the first step, so everybody takes just its turns. */
  lemma {:induction false} AllAtOnce(reqs: seq<TraceRequest>, c: ReplayConfig, bs: seq<Booking>, n: nat)
    requires c.tokensPerBlock > 0 && Schedule(reqs, c, bs) && n <= |bs| && AllFit(reqs, c)
    ensures forall i :: 0 <= i < n ==> bs[i] == Booking(1, TotalBlocks(reqs, c, i)) && Last(reqs, c, bs, i) == Turns(reqs[i])
  {
    hide *;
    if n > 0 {
      AllAtOnce(reqs, c, bs, n - 1);
      OneMoreBeside(reqs, c, bs, n - 1);
    }
  }

  lemma LowestIsBehind(used: seq<bool>, full: nat, needed: nat)
    requires needed > 0 && full + needed <= |used| && forall b :: 0 <= b < |used| ==> (used[b] <==> b < full)
    ensures LowestFit(used, needed, Some(full)) && !LowestFit(used, needed, None)
  {
    assert FreeRun(used, full, needed);
    forall s | 0 <= s < full
      ensures !FreeRun(used, s, needed)
    {
      assert used[s];
    }
  }

  lemma OneMoreBeside(reqs: seq<TraceRequest>, c: ReplayConfig, bs: seq<Booking>, k: nat)
    requires c.tokensPerBlock > 0 && Schedule(reqs, c, bs) && k < |bs| && AllFit(reqs, c)
    requires forall i :: 0 <= i < k ==> bs[i] == Booking(1, TotalBlocks(reqs, c, i))
    ensures bs[k] == Booking(1, TotalBlocks(reqs, c, k)) && Last(reqs, c, bs, k) == Turns(reqs[k])
  {
    hide Servable, RequestBlocks, LowestFit, Occupied, Running;
    assert Servable(reqs[k], c) && RequestBlocks(reqs[k], c) > 0;
    assert Booked(reqs, c, bs, k);
    var used, full := Occupied(reqs, c, bs, k, 1), TotalBlocks(reqs, c, k);
    forall b | 0 <= b < |used|
      ensures used[b] <==> b < full
    {
      SideBySide(reqs, c, bs, k, b);
    }
    BlocksGrow(reqs, c, k + 1, |reqs|);
    LowestIsBehind(used, full, RequestBlocks(reqs[k], c));
    RunningAtMost(reqs, c, bs, k, 1);
    assert !Refused(reqs, c, bs, k, 1);
    LowestFitIsUnique(used, RequestBlocks(reqs[k], c), Some(full), Some(bs[k].start));
  }

  // ---- A whole replay ------------------------------------------------------------------------------------------

  /** Somebody is admitted, passed over or active in step t. */
  ghost predicate Busy(reqs: seq<TraceRequest>, c: ReplayConfig, bs: seq<Booking>, t: nat)
    requires c.tokensPerBlock > 0 && |bs| <= |reqs|
  {
    exists i :: 0 <= i < |bs| && bs[i].step <= t <= Last(reqs, c, bs, i)
  }

  /** A replay of so many steps: the schedule, as far as it goes, with nobody admitted late and no step wasted. */
  ghost predicate Replays(reqs: seq<TraceRequest>, c: ReplayConfig, bs: seq<Booking>, steps: nat)
    requires c.tokensPerBlock > 0
  {
    && Schedule(reqs, c, bs) && Waits(reqs, c, bs, steps)
    && (forall i :: 0 <= i < |bs| ==> bs[i].step <= steps)
    && (forall t :: 1 <= t < steps ==> Busy(reqs, c, bs, t))
  }

  lemma BusyStays(reqs: seq<TraceRequest>, c: ReplayConfig, bs: seq<Booking>, bs': seq<Booking>, t: nat)
    requires c.tokensPerBlock > 0 && bs <= bs' && |bs'| <= |reqs| && Busy(reqs, c, bs, t)
    ensures Busy(reqs, c, bs', t)
  {
    hide Servable;
    var i :| 0 <= i < |bs| && bs[i].step <= t <= Last(reqs, c, bs, i);
    assert bs'[i] == bs[i];
  }

  /** How many steps a finished replay took. */
  lemma StepsOfFinished(reqs: seq<TraceRequest>, c: ReplayConfig, bs: seq<Booking>, steps: nat)
    requires c.tokensPerBlock > 0 && Replays(reqs, c, bs, steps) && Done(reqs, c, bs, |bs|, steps) == |reqs|
    requires if reqs == [] then steps == 0 else Busy(reqs, c, bs, steps)
    ensures forall i :: 0 <= i < |reqs| && Servable(reqs[i], c) ==> Turns(reqs[i]) <= steps
    ensures c.maxActive == 1 && AllServable(reqs, c) ==> steps == TotalTurns(reqs, |reqs|)
    ensures AllFit(reqs, c) && reqs != [] ==> exists i :: 0 <= i < |reqs| && Turns(reqs[i]) == steps
  {
    hide Servable, RequestBlocks, Booked, Refused, TotalBlocks, Done, Waits, Turns;
    DoneIffAll(reqs, c, bs, |bs|, steps);
    forall i | 0 <= i < |reqs| && Servable(reqs[i], c)
      ensures Turns(reqs[i]) <= steps
    {
      StepsGrow(reqs, c, bs, i);
    }
    if reqs != [] {
      var i :| 0 <= i < |bs| && bs[i].step <= steps <= Last(reqs, c, bs, i);
      if c.maxActive == 1 && AllServable(reqs, c) {
        OneAtATime(reqs, c, bs, |bs|);
        TotalGrows(reqs, i + 1, |reqs|);
      }
      if AllFit(reqs, c) {
        AllAtOnce(reqs, c, bs, |bs|);
      }
    }
  }
}
