/**
  The contiguous baseline of the trace replay: a first-fit allocator of block runs inside a
  closed-loop simulation that admits in order, decodes one token per active request and step,
  and gives a run back when its request is done.
 */
module Contiguous {
  import opened Wrappers
  import opened Arithmetic
  import opened ReplaySchedule

  datatype Reservation = Reservation(index: nat, start: nat, count: nat, decoded: nat)

  datatype Metrics = Metrics(steps: nat, admitted: nat, neverAdmissible: nat, completed: nat, leakFree: bool)

  // ---- First fit --------------------------------------------------------------------------------

  /** Walks the pool once, counting the free blocks in a row. */
  method FirstFit(used: array<bool>, needed: nat) returns (start: Option<nat>)
    ensures LowestFit(used[..], needed, start)
  {
    var run := 0;
    var block := 0;
    while block < used.Length
      invariant block <= used.Length && run <= block
      invariant forall b :: block - run <= b < block ==> !used[b]
      invariant needed > 0 ==> run < needed && (run < block ==> used[block - run - 1])
      invariant needed > 0 ==> forall s :: 0 <= s && s + needed <= block ==> !FreeRun(used[..], s, needed)
      invariant needed == 0 ==> run == block
    {
      run := if used[block] then 0 else run + 1;
      if run == needed {
        if needed > 0 {
          forall s | 0 <= s < block + 1 - needed
            ensures !FreeRun(used[..], s, needed)
          {
            assert s + needed <= block;
          }
        }
        return Some(block + 1 - needed);
      }
      if needed > 0 {
        forall s | 0 <= s && s + needed <= block + 1
          ensures !FreeRun(used[..], s, needed)
        {
          if s + needed == block + 1 {
            if run < block + 1 {
              assert used[..][block - run];
            }
          }
        }
      }
      block := block + 1;
    }
    start := None;
    if needed > 0 {
      forall s | 0 <= s
        ensures !FreeRun(used[..], s, needed)
      {
        if s + needed <= used.Length {
          assert !FreeRun(used[..], s, needed);
        }
      }
    }
  }

  // ---- The books -----------------------------------------------------------------------------------

  function CountUsed(used: seq<bool>): nat {
    if used == [] then 0 else CountUsed(used[..|used| - 1]) + if used[|used| - 1] then 1 else 0
  }

  lemma {:induction false} CountAfterPut(used: seq<bool>, b: nat, now: bool)
    requires b < |used|
    ensures CountUsed(used[b := now]) == CountUsed(used) - (if used[b] then 1 else 0) + (if now then 1 else 0)
  {
    var n := |used| - 1;
    if b < n {
      assert used[b := now][..n] == used[..n][b := now];
      CountAfterPut(used[..n], b, now);
    } else {
      assert used[b := now][..n] == used[..n];
    }
  }

  lemma {:induction false} NoneUsed(used: seq<bool>)
    ensures CountUsed(used) == 0 <==> forall b :: 0 <= b < |used| ==> !used[b]
  {
    if used != [] {
      NoneUsed(used[..|used| - 1]);
      assert forall b :: 0 <= b < |used| - 1 ==> used[..|used| - 1][b] == used[b];
    }
  }

  predicate Owns(r: Reservation, b: int) { r.start <= b < r.start + r.count }

  predicate Apart(r: Reservation, q: Reservation) {
    r.start + r.count <= q.start || q.start + q.count <= r.start || r.count == 0 || q.count == 0
  }

  /** Active runs are disjoint, inside the pool, and exactly the used blocks. */
  ghost predicate Placed(used: seq<bool>, active: seq<Reservation>) {
    && (forall i :: 0 <= i < |active| ==> active[i].start + active[i].count <= |used|)
    && (forall i, j :: 0 <= i < j < |active| ==> Apart(active[i], active[j]))
    && (forall b :: 0 <= b < |used| ==> (used[b] <==> exists i :: 0 <= i < |active| && Owns(active[i], b)))
  }

  function BlocksOf(active: seq<Reservation>): nat {
    if active == [] then 0 else BlocksOf(active[..|active| - 1]) + active[|active| - 1].count
  }

  /** Each active reservation is its request's, and has turns left. */
  ghost predicate InService(reqs: seq<TraceRequest>, c: ReplayConfig, active: seq<Reservation>, next: nat)
    requires c.tokensPerBlock > 0
  {
    && next <= |reqs|
    && (forall i :: 0 <= i < |active| ==>
          && active[i].index < next && Servable(reqs[active[i].index], c)
          && active[i].count == RequestBlocks(reqs[active[i].index], c)
          && active[i].decoded < Turns(reqs[active[i].index]))
    && (forall i, j :: 0 <= i < j < |active| ==> active[i].index != active[j].index)
  }

  function TurnsLeft(reqs: seq<TraceRequest>, active: seq<Reservation>): int {
    if active == [] then 0
    else
      var r := active[|active| - 1];
      TurnsLeft(reqs, active[..|active| - 1]) + (if r.index < |reqs| then Turns(reqs[r.index]) - r.decoded else 0)
  }

  function PendingTurns(reqs: seq<TraceRequest>, c: ReplayConfig, next: nat): nat
    requires c.tokensPerBlock > 0 && next <= |reqs|
    decreases |reqs| - next
  {
    if next == |reqs| then 0
    else PendingTurns(reqs, c, next + 1) + if Servable(reqs[next], c) then Turns(reqs[next]) else 0
  }

  // ---- Placing and releasing a run ---------------------------------------------------------------------

  method MarkRun(used: array<bool>, start: nat, count: nat, now: bool)
    requires start + count <= used.Length && forall b :: start <= b < start + count ==> used[b] != now
    modifies used
    ensures forall b :: 0 <= b < used.Length ==> used[b] == if start <= b < start + count then now else old(used[b])
    ensures CountUsed(used[..]) == CountUsed(old(used[..])) + (if now then count as int else -(count as int))
  {
    var block := 0;
    while block < count
      invariant block <= count
      invariant forall b :: 0 <= b < used.Length ==> used[b] == if start <= b < start + block then now else old(used[b])
      invariant CountUsed(used[..]) == CountUsed(old(used[..])) + (if now then block as int else -(block as int))
    {
      CountAfterPut(used[..], start + block, now);
      ghost var before := used[..];
      used[start + block] := now;
      assert used[..] == before[start + block := now];
      block := block + 1;
    }
  }

  lemma ApartIfNoneShared(r: Reservation, q: Reservation)
    requires forall b :: Owns(q, b) ==> !Owns(r, b)
    ensures Apart(r, q)
  {
    assert !Owns(q, q.start) || !Owns(r, q.start);
    assert !Owns(q, r.start) || !Owns(r, r.start);
  }

  lemma PlacedAfterAdd(used: seq<bool>, used': seq<bool>, active: seq<Reservation>, r: Reservation)
    requires Placed(used, active) && |used'| == |used| && r.start + r.count <= |used|
    requires forall b :: r.start <= b < r.start + r.count ==> !used[b]
    requires forall b :: 0 <= b < |used| ==> used'[b] == if r.start <= b < r.start + r.count then true else used[b]
    ensures Placed(used', active + [r])
  {
    var active' := active + [r];
    forall i | 0 <= i < |active|
      ensures Apart(active[i], r)
    {
      forall b | Owns(r, b)
        ensures !Owns(active[i], b)
      {
        assert !used[b];
      }
      ApartIfNoneShared(active[i], r);
    }
    forall b | 0 <= b < |used'|
      ensures used'[b] <==> exists i :: 0 <= i < |active'| && Owns(active'[i], b)
    {
      if Owns(r, b) {
        assert Owns(active'[|active|], b);
      } else if used[b] {
        var i :| 0 <= i < |active| && Owns(active[i], b);
        assert Owns(active'[i], b);
      }
    }
  }

  /** `active[i] = active.back(); active.pop_back()`. */
  function SwapRemoved(active: seq<Reservation>, i: nat): seq<Reservation>
    requires i < |active|
  {
    active[i := active[|active| - 1]][..|active| - 1]
  }

  lemma PlacedAfterRemove(used: seq<bool>, used': seq<bool>, active: seq<Reservation>, i: nat)
    requires Placed(used, active) && i < |active| && |used'| == |used|
    requires forall b :: 0 <= b < |used| ==> used'[b] == if active[i].start <= b < active[i].start + active[i].count then false else used[b]
    ensures Placed(used', SwapRemoved(active, i))
  {
    var active' := SwapRemoved(active, i);
    var n := |active| - 1;
    assert forall k :: 0 <= k < n ==> active'[k] == active[if k == i then n else k];
    forall b | 0 <= b < |used'|
      ensures used'[b] <==> exists k :: 0 <= k < |active'| && Owns(active'[k], b)
    {
      if used'[b] {
        var k :| 0 <= k < |active| && Owns(active[k], b);
        assert k != i;
        assert Owns(active'[if k == n then i else k], b);
      }
      if k :| 0 <= k < |active'| && Owns(active'[k], b) {
        var j := if k == i then n else k;
        assert Owns(active[j], b) && j != i;
        assert Apart(active[if j < i then j else i], active[if j < i then i else j]);
      }
    }
  }

  lemma BlocksAppend(active: seq<Reservation>, r: Reservation)
    ensures BlocksOf(active + [r]) == BlocksOf(active) + r.count
  {
    assert (active + [r])[..|active|] == active;
  }

  lemma {:induction false} BlocksAfterPut(active: seq<Reservation>, i: nat, r: Reservation)
    requires i < |active|
    ensures BlocksOf(active[i := r]) == BlocksOf(active) - active[i].count + r.count
  {
    var n := |active| - 1;
    if i < n {
      assert active[i := r][..n] == active[..n][i := r];
      BlocksAfterPut(active[..n], i, r);
    } else {
      assert active[i := r][..n] == active[..n];
    }
  }

  lemma BlocksAfterRemove(active: seq<Reservation>, i: nat)
    requires i < |active|
    ensures BlocksOf(SwapRemoved(active, i)) == BlocksOf(active) - active[i].count
  {
    hide BlocksOf;
    var n := |active| - 1;
    BlocksAfterPut(active, i, active[n]);
    BlocksOfLast(active[i := active[n]]);
  }

  lemma BlocksOfLast(active: seq<Reservation>)
    requires active != []
    ensures BlocksOf(active) == BlocksOf(active[..|active| - 1]) + active[|active| - 1].count
  {}

  function Left(reqs: seq<TraceRequest>, r: Reservation): int {
    if r.index < |reqs| then Turns(reqs[r.index]) - r.decoded else 0
  }

  lemma TurnsAppend(reqs: seq<TraceRequest>, active: seq<Reservation>, r: Reservation)
    ensures TurnsLeft(reqs, active + [r]) == TurnsLeft(reqs, active) + Left(reqs, r)
  {
    assert (active + [r])[..|active|] == active;
  }

  lemma {:induction false} TurnsAfterPut(reqs: seq<TraceRequest>, active: seq<Reservation>, i: nat, r: Reservation)
    requires i < |active|
    ensures TurnsLeft(reqs, active[i := r]) == TurnsLeft(reqs, active) - Left(reqs, active[i]) + Left(reqs, r)
  {
    var n := |active| - 1;
    if i < n {
      assert active[i := r][..n] == active[..n][i := r];
      TurnsAfterPut(reqs, active[..n], i, r);
    } else {
      assert active[i := r][..n] == active[..n];
    }
  }

  lemma TurnsAfterRemove(reqs: seq<TraceRequest>, active: seq<Reservation>, i: nat)
    requires i < |active|
    ensures TurnsLeft(reqs, SwapRemoved(active, i)) == TurnsLeft(reqs, active) - Left(reqs, active[i])
  {
    hide TurnsLeft;
    var n := |active| - 1;
    TurnsAfterPut(reqs, active, i, active[n]);
    TurnsOfLast(reqs, active[i := active[n]]);
  }

  lemma TurnsOfLast(reqs: seq<TraceRequest>, active: seq<Reservation>)
    requires active != []
    ensures TurnsLeft(reqs, active) == TurnsLeft(reqs, active[..|active| - 1]) + Left(reqs, active[|active| - 1])
  {}

  lemma {:induction false} TurnsLeftPositive(reqs: seq<TraceRequest>, c: ReplayConfig, active: seq<Reservation>, next: nat)
    requires c.tokensPerBlock > 0 && InService(reqs, c, active, next)
    ensures TurnsLeft(reqs, active) >= |active|
  {
    if active != [] {
      TurnsLeftPositive(reqs, c, active[..|active| - 1], next);
    }
  }

  /** How many of the first n requests no pool of this size could serve. */
  function Unservable(reqs: seq<TraceRequest>, c: ReplayConfig, n: nat): nat
    requires c.tokensPerBlock > 0 && n <= |reqs|
  {
    if n == 0 then 0 else Unservable(reqs, c, n - 1) + if Servable(reqs[n - 1], c) then 0 else 1
  }

  // ---- The schedule behind the books ------------------------------------------------------------------------

  /** An active reservation is one the schedule has active in step t, in its place and with its turns so far. */
  predicate Follows(reqs: seq<TraceRequest>, c: ReplayConfig, bs: seq<Booking>, r: Reservation, t: nat)
    requires c.tokensPerBlock > 0 && |bs| <= |reqs|
  {
    r.index < |bs| && Runs(reqs, c, bs, r.index, t) && r.start == bs[r.index].start && r.decoded == t - bs[r.index].step
  }

  predicate Active(active: seq<Reservation>, j: nat) { exists i :: 0 <= i < |active| && active[i].index == j }

  ghost predicate Listed(reqs: seq<TraceRequest>, c: ReplayConfig, bs: seq<Booking>, active: seq<Reservation>, t: nat)
    requires c.tokensPerBlock > 0 && |bs| <= |reqs|
  {
    forall j :: 0 <= j < |bs| && Runs(reqs, c, bs, j, t) ==> Active(active, j)
  }

  /** The active requests are those of the schedule in step t, its bookings reaching no further. */
  ghost predicate Tracks(reqs: seq<TraceRequest>, c: ReplayConfig, bs: seq<Booking>, active: seq<Reservation>, t: nat)
    requires c.tokensPerBlock > 0
  {
    && |bs| <= |reqs| && (forall i :: 0 <= i < |bs| ==> bs[i].step <= t)
    && (forall i :: 0 <= i < |active| ==> Follows(reqs, c, bs, active[i], t))
    && Listed(reqs, c, bs, active, t)
  }

  /** Half way through step t: the first n active requests have had their turn and stay. */
  ghost predicate Turning(reqs: seq<TraceRequest>, c: ReplayConfig, bs: seq<Booking>, active: seq<Reservation>, t: nat, n: nat)
    requires c.tokensPerBlock > 0
  {
    && |bs| <= |reqs| && n <= |active| && (forall i :: 0 <= i < |bs| ==> bs[i].step <= t)
    && (forall i :: 0 <= i < n ==> Follows(reqs, c, bs, active[i], t + 1))
    && (forall i :: n <= i < |active| ==> Follows(reqs, c, bs, active[i], t))
    && Listed(reqs, c, bs, active, t + 1)
  }

  ghost function ActiveIndices(active: seq<Reservation>): set<nat> { set i | 0 <= i < |active| :: active[i].index }

  lemma {:induction false} DistinctIndices(active: seq<Reservation>)
    requires forall i, j :: 0 <= i < j < |active| ==> active[i].index != active[j].index
    ensures |ActiveIndices(active)| == |active|
  {
    if active != [] {
      var n := |active| - 1;
      DistinctIndices(active[..n]);
      assert active[n].index !in ActiveIndices(active[..n]);
      assert ActiveIndices(active) == ActiveIndices(active[..n]) + {active[n].index} by {
        assert forall i :: 0 <= i < n ==> active[..n][i] == active[i];
      }
    }
  }

  ghost function RunningSet(reqs: seq<TraceRequest>, c: ReplayConfig, bs: seq<Booking>, n: nat, t: nat): set<nat>
    requires c.tokensPerBlock > 0 && n <= |bs| <= |reqs|
  {
    set j: nat | j < n && Runs(reqs, c, bs, j, t)
  }

  lemma {:induction false} RunningCounts(reqs: seq<TraceRequest>, c: ReplayConfig, bs: seq<Booking>, n: nat, t: nat)
    requires c.tokensPerBlock > 0 && n <= |bs| <= |reqs|
    ensures |RunningSet(reqs, c, bs, n, t)| == Running(reqs, c, bs, n, t)
  {
    hide Runs;
    if n > 0 {
      RunningCounts(reqs, c, bs, n - 1, t);
      assert RunningSet(reqs, c, bs, n, t) == RunningSet(reqs, c, bs, n - 1, t) + if Runs(reqs, c, bs, n - 1, t) then {n - 1} else {};
    } else {
      assert RunningSet(reqs, c, bs, n, t) == {};
    }
  }

  /** So many are active, and the schedule's runs are the used blocks. */
  lemma TrackedState(reqs: seq<TraceRequest>, c: ReplayConfig, bs: seq<Booking>, used: seq<bool>, active: seq<Reservation>, next: nat, t: nat)
    requires c.tokensPerBlock > 0 && Tracks(reqs, c, bs, active, t) && |used| == c.maxBlocks
    requires Placed(used, active) && InService(reqs, c, active, next)
    ensures |active| == Running(reqs, c, bs, |bs|, t) && used == Occupied(reqs, c, bs, |bs|, t)
  {
    hide Servable, RequestBlocks, Running;
    DistinctIndices(active);
    RunningCounts(reqs, c, bs, |bs|, t);
    assert ActiveIndices(active) == RunningSet(reqs, c, bs, |bs|, t);
    forall b | 0 <= b < |used|
      ensures used[b] == Occupied(reqs, c, bs, |bs|, t)[b]
    {
      if used[b] {
        var i :| 0 <= i < |active| && Owns(active[i], b);
        assert Occupies(reqs, c, bs, active[i].index, b);
      }
      if j :| 0 <= j < |bs| && Runs(reqs, c, bs, j, t) && Occupies(reqs, c, bs, j, b) {
        assert Active(active, j);
        var i :| 0 <= i < |active| && active[i].index == j;
        assert Owns(active[i], b);
      }
    }
  }

  lemma TracksNewcomer(reqs: seq<TraceRequest>, c: ReplayConfig, bs: seq<Booking>, active: seq<Reservation>, t: nat, r: Reservation)
    requires c.tokensPerBlock > 0 && Tracks(reqs, c, bs, active, t) && |bs| < |reqs| && Servable(reqs[|bs|], c)
    requires r.index == |bs| && r.decoded == 0
    ensures Tracks(reqs, c, bs + [Booking(t, r.start)], active + [r], t)
  {
    hide Servable, RequestBlocks;
    var bs', active' := bs + [Booking(t, r.start)], active + [r];
    forall j | 0 <= j < |bs'| && Runs(reqs, c, bs', j, t)
      ensures Active(active', j)
    {
      if j < |bs| {
        assert Runs(reqs, c, bs, j, t) && Active(active, j);
        var i :| 0 <= i < |active| && active[i].index == j;
        assert active'[i].index == j;
      } else {
        assert active'[|active|].index == j;
      }
    }
  }

  lemma TracksSkipped(reqs: seq<TraceRequest>, c: ReplayConfig, bs: seq<Booking>, active: seq<Reservation>, t: nat)
    requires c.tokensPerBlock > 0 && Tracks(reqs, c, bs, active, t) && |bs| < |reqs| && !Servable(reqs[|bs|], c)
    ensures Tracks(reqs, c, bs + [Booking(t, 0)], active, t)
  {
    hide Servable, RequestBlocks;
    var bs' := bs + [Booking(t, 0)];
    forall j | 0 <= j < |bs'| && Runs(reqs, c, bs', j, t)
      ensures Active(active, j)
    {
      assert Runs(reqs, c, bs, j, t);
    }
  }

  lemma TurnsBegin(reqs: seq<TraceRequest>, c: ReplayConfig, bs: seq<Booking>, active: seq<Reservation>, t: nat)
    requires c.tokensPerBlock > 0 && Tracks(reqs, c, bs, active, t)
    ensures Turning(reqs, c, bs, active, t, 0)
  {
    hide Servable, RequestBlocks;
    forall j | 0 <= j < |bs| && Runs(reqs, c, bs, j, t + 1)
      ensures Active(active, j)
    {
      assert Runs(reqs, c, bs, j, t);
    }
  }

  /** After everybody's turn the next step begins. */
  lemma TurnsEnd(reqs: seq<TraceRequest>, c: ReplayConfig, bs: seq<Booking>, active: seq<Reservation>, t: nat)
    requires c.tokensPerBlock > 0 && Turning(reqs, c, bs, active, t, |active|)
    ensures Tracks(reqs, c, bs, active, t + 1)
  {
    hide Listed, Follows;
  }

  /** Request i had its turn and stays: the schedule has it active in the next step too. */
  lemma TurnStays(reqs: seq<TraceRequest>, c: ReplayConfig, bs: seq<Booking>, active: seq<Reservation>, t: nat, i: nat, r: Reservation)
    requires c.tokensPerBlock > 0 && Turning(reqs, c, bs, active, t, i) && i < |active|
    requires r == active[i].(decoded := active[i].decoded + 1) && r.index < |reqs| && r.decoded < reqs[r.index].decodeActual
    ensures Turning(reqs, c, bs, active[i := r], t, i + 1)
  {
    hide Servable, RequestBlocks;
    forall j: nat | Active(active, j)
      ensures Active(active[i := r], j)
    {
      var k :| 0 <= k < |active| && active[k].index == j;
      assert active[i := r][k].index == j;
    }
  }

  /** Request i had its last turn: the schedule has it no longer active in the next step. */
  lemma TurnLeaves(reqs: seq<TraceRequest>, c: ReplayConfig, bs: seq<Booking>, active: seq<Reservation>, t: nat, i: nat)
    requires c.tokensPerBlock > 0 && Turning(reqs, c, bs, active, t, i) && i < |active|
    requires active[i].index < |reqs| && active[i].decoded + 1 >= reqs[active[i].index].decodeActual
    ensures Turning(reqs, c, bs, SwapRemoved(active, i), t, i)
  {
    hide Servable, RequestBlocks;
    var n, active' := |active| - 1, SwapRemoved(active, i);
    assert Follows(reqs, c, bs, active[i], t);
    assert !Runs(reqs, c, bs, active[i].index, t + 1);
    forall j: nat | Active(active, j) && j != active[i].index
      ensures Active(active', j)
    {
      var k :| 0 <= k < |active| && active[k].index == j;
      assert active'[if k == n then i else k].index == j;
    }
  }

  // ---- One phase after the other ---------------------------------------------------------------------------

  /** The books at any point: placement, counts, conservation. */
  ghost predicate Books(reqs: seq<TraceRequest>, c: ReplayConfig, used: seq<bool>, inUse: nat, active: seq<Reservation>, next: nat, completed: nat)
    requires c.tokensPerBlock > 0
  {
    && |used| == c.maxBlocks && Placed(used, active) && InService(reqs, c, active, next)
    && inUse == BlocksOf(active) && inUse == CountUsed(used)
    && completed + |active| + (|reqs| - next) == |reqs|
  }

  lemma AdmitBooks(reqs: seq<TraceRequest>, c: ReplayConfig, used: seq<bool>, used': seq<bool>, inUse: nat, active: seq<Reservation>, next: nat, completed: nat, r: Reservation)
    requires c.tokensPerBlock > 0 && Books(reqs, c, used, inUse, active, next, completed) && next < |reqs| && Servable(reqs[next], c)
    requires r == Reservation(next, r.start, RequestBlocks(reqs[next], c), 0) && r.start + r.count <= |used|
    requires |used'| == |used| && forall b :: r.start <= b < r.start + r.count ==> !used[b]
    requires forall b :: 0 <= b < |used| ==> used'[b] == if r.start <= b < r.start + r.count then true else used[b]
    requires CountUsed(used') == CountUsed(used) + r.count
    ensures Books(reqs, c, used', inUse + r.count, active + [r], next + 1, completed)
    ensures TurnsLeft(reqs, active + [r]) + PendingTurns(reqs, c, next + 1) == TurnsLeft(reqs, active) + PendingTurns(reqs, c, next)
  {
    hide *;
    BooksAre(reqs, c, used, inUse, active, next, completed);
    BooksAre(reqs, c, used', inUse + r.count, active + [r], next + 1, completed);
    PlacedAfterAdd(used, used', active, r);
    InServiceAfterAdd(reqs, c, active, next, r);
    BlocksAppend(active, r);
    TurnsAppend(reqs, active, r);
    NewcomerTurns(reqs, c, next, r);
  }

  lemma BooksAre(reqs: seq<TraceRequest>, c: ReplayConfig, used: seq<bool>, inUse: nat, active: seq<Reservation>, next: nat, completed: nat)
    requires c.tokensPerBlock > 0
    ensures Books(reqs, c, used, inUse, active, next, completed) <==>
            && |used| == c.maxBlocks && Placed(used, active) && InService(reqs, c, active, next)
            && inUse == BlocksOf(active) && inUse == CountUsed(used)
            && completed + |active| + (|reqs| - next) == |reqs|
  {
    hide Placed, InService, BlocksOf, CountUsed;
  }

  lemma InServiceAfterAdd(reqs: seq<TraceRequest>, c: ReplayConfig, active: seq<Reservation>, next: nat, r: Reservation)
    requires c.tokensPerBlock > 0 && InService(reqs, c, active, next) && next < |reqs| && Servable(reqs[next], c)
    requires r == Reservation(next, r.start, RequestBlocks(reqs[next], c), 0)
    ensures InService(reqs, c, active + [r], next + 1)
  {
    hide Servable, RequestBlocks;
  }

  lemma NewcomerTurns(reqs: seq<TraceRequest>, c: ReplayConfig, next: nat, r: Reservation)
    requires c.tokensPerBlock > 0 && next < |reqs| && Servable(reqs[next], c) && r.index == next && r.decoded == 0
    ensures PendingTurns(reqs, c, next) == PendingTurns(reqs, c, next + 1) + Left(reqs, r)
  {
    hide Servable;
  }

  lemma BooksShow(reqs: seq<TraceRequest>, c: ReplayConfig, used: seq<bool>, inUse: nat, active: seq<Reservation>, next: nat, completed: nat)
    requires c.tokensPerBlock > 0 && Books(reqs, c, used, inUse, active, next, completed)
    ensures next <= |reqs| && |used| == c.maxBlocks && completed + |active| == next
  {}

  /** Skipping a request no pool could serve. */
  lemma SkipBooks(reqs: seq<TraceRequest>, c: ReplayConfig, used: seq<bool>, inUse: nat, active: seq<Reservation>, next: nat, completed: nat)
    requires c.tokensPerBlock > 0 && Books(reqs, c, used, inUse, active, next, completed) && next < |reqs| && !Servable(reqs[next], c)
    ensures Books(reqs, c, used, inUse, active, next + 1, completed + 1)
    ensures PendingTurns(reqs, c, next + 1) == PendingTurns(reqs, c, next)
  {
    hide Placed, CeilDiv;
  }

  lemma ServableFits(r: TraceRequest, c: ReplayConfig)
    requires c.tokensPerBlock > 0 && Servable(r, c)
    ensures RequestBlocks(r, c) <= c.maxBlocks
  {}

  /** On an idle pool only a request for no blocks at all finds no place. */
  lemma IdleRefusal(reqs: seq<TraceRequest>, c: ReplayConfig, used: seq<bool>, inUse: nat, active: seq<Reservation>, next: nat, completed: nat, needed: nat)
    requires c.tokensPerBlock > 0 && Books(reqs, c, used, inUse, active, next, completed) && needed <= c.maxBlocks
    ensures active == [] ==> FreeRun(used, 0, needed)
  {
    if active == [] {
      NoneUsed(used);
    }
  }

  /** Some pool could serve this request, and it asks for no blocks at all. */
  predicate WantsNothing(reqs: seq<TraceRequest>, c: ReplayConfig, i: nat)
    requires c.tokensPerBlock > 0
  {
    i < |reqs| && Servable(reqs[i], c) && RequestBlocks(reqs[i], c) == 0
  }

  /** The first request any pool could serve is one for no blocks: it meets an idle pool and waits for ever. */
  ghost predicate StallsAt(reqs: seq<TraceRequest>, c: ReplayConfig, i: nat)
    requires c.tokensPerBlock > 0
  {
    WantsNothing(reqs, c, i) && forall j :: 0 <= j < i ==> !Servable(reqs[j], c)
  }

  lemma IdleMeansFree(reqs: seq<TraceRequest>, c: ReplayConfig, used: seq<bool>, inUse: nat, active: seq<Reservation>, next: nat, completed: nat)
    requires c.tokensPerBlock > 0 && Books(reqs, c, used, inUse, active, next, completed)
    ensures active == [] ==> forall b :: 0 <= b < |used| ==> !used[b]
  {}

  /** In step t the active requests and the next in line are those of the schedule, which nobody was late for so far. */
  ghost predicate OnSchedule(reqs: seq<TraceRequest>, c: ReplayConfig, bs: seq<Booking>, active: seq<Reservation>, next: nat, t: nat)
    requires c.tokensPerBlock > 0
  {
    t > 0 && next == |bs| && Tracks(reqs, c, bs, active, t) && Schedule(reqs, c, bs) && Waits(reqs, c, bs, t - 1)
  }

  /** The free blocks and the number of active requests are the schedule's. */
  lemma BooksTrack(reqs: seq<TraceRequest>, c: ReplayConfig, used: seq<bool>, inUse: nat, active: seq<Reservation>, next: nat, completed: nat, bs: seq<Booking>, t: nat)
    requires c.tokensPerBlock > 0 && Books(reqs, c, used, inUse, active, next, completed) && OnSchedule(reqs, c, bs, active, next, t)
    ensures |bs| == next <= |reqs| && |active| == Running(reqs, c, bs, next, t) && used == Occupied(reqs, c, bs, next, t)
  {
    hide *;
    BooksAre(reqs, c, used, inUse, active, next, completed);
    BooksShow(reqs, c, used, inUse, active, next, completed);
    OnScheduleIs(reqs, c, bs, active, next, t);
    TrackedState(reqs, c, bs, used, active, next, t);
  }

  lemma OnScheduleIs(reqs: seq<TraceRequest>, c: ReplayConfig, bs: seq<Booking>, active: seq<Reservation>, next: nat, t: nat)
    requires c.tokensPerBlock > 0
    ensures OnSchedule(reqs, c, bs, active, next, t) <==>
            t > 0 && next == |bs| && Tracks(reqs, c, bs, active, t) && Schedule(reqs, c, bs) && Waits(reqs, c, bs, t - 1)
    ensures Tracks(reqs, c, bs, active, t) ==> forall i :: 0 <= i < |bs| ==> bs[i].step <= t
  {
    hide Schedule, Waits;
  }

  lemma AdmittedOnSchedule(reqs: seq<TraceRequest>, c: ReplayConfig, used: seq<bool>, inUse: nat, active: seq<Reservation>, next: nat, completed: nat,
                           bs: seq<Booking>, t: nat, r: Reservation)
    requires c.tokensPerBlock > 0 && Books(reqs, c, used, inUse, active, next, completed) && OnSchedule(reqs, c, bs, active, next, t)
    requires next < |reqs| && |active| < c.maxActive && Servable(reqs[next], c) && r.index == next && r.decoded == 0
    requires LowestFit(used, RequestBlocks(reqs[next], c), Some(r.start))
    ensures OnSchedule(reqs, c, bs + [Booking(t, r.start)], active + [r], next + 1, t)
  {
    hide *;
    BooksTrack(reqs, c, used, inUse, active, next, completed, bs, t);
    OnScheduleIs(reqs, c, bs, active, next, t);
    OnScheduleIs(reqs, c, bs + [Booking(t, r.start)], active + [r], next + 1, t);
    ScheduleAdmits(reqs, c, bs, t, Booking(t, r.start));
    TracksNewcomer(reqs, c, bs, active, t, r);
  }

  lemma SkippedOnSchedule(reqs: seq<TraceRequest>, c: ReplayConfig, used: seq<bool>, inUse: nat, active: seq<Reservation>, next: nat, completed: nat, bs: seq<Booking>, t: nat)
    requires c.tokensPerBlock > 0 && Books(reqs, c, used, inUse, active, next, completed) && OnSchedule(reqs, c, bs, active, next, t)
    requires next < |reqs| && |active| < c.maxActive && !Servable(reqs[next], c)
    ensures OnSchedule(reqs, c, bs + [Booking(t, 0)], active, next + 1, t)
  {
    hide *;
    BooksTrack(reqs, c, used, inUse, active, next, completed, bs, t);
    OnScheduleIs(reqs, c, bs, active, next, t);
    OnScheduleIs(reqs, c, bs + [Booking(t, 0)], active, next + 1, t);
    ScheduleAdmits(reqs, c, bs, t, Booking(t, 0));
    TracksSkipped(reqs, c, bs, active, t);
  }

  /** Nobody more is admitted in this step: the next in line is refused. */
  lemma NobodyMore(reqs: seq<TraceRequest>, c: ReplayConfig, used: seq<bool>, inUse: nat, active: seq<Reservation>, next: nat, completed: nat, bs: seq<Booking>, t: nat)
    requires c.tokensPerBlock > 0 && Books(reqs, c, used, inUse, active, next, completed) && OnSchedule(reqs, c, bs, active, next, t)
    requires next < |reqs| && |active| < c.maxActive ==> Servable(reqs[next], c) && LowestFit(used, RequestBlocks(reqs[next], c), None)
    ensures Waits(reqs, c, bs, t)
  {
    hide Books, Servable, RequestBlocks, LowestFit, Occupied, Running, Schedule, Tracks;
    BooksTrack(reqs, c, used, inUse, active, next, completed, bs, t);
  }

  /**
    Admits in order until a request does not fit; skips those no pool could serve.  Everybody
    admitted or passed over is booked for this very step, and the next in line is left waiting
    only if too many are active or no run of free blocks holds it.
   */
  method AdmitPending(reqs: seq<TraceRequest>, c: ReplayConfig, used: array<bool>, inUse: nat, active: seq<Reservation>, next: nat, completed: nat,
          ghost bs: seq<Booking>, ghost t: nat)
    returns (inUse': nat, active': seq<Reservation>, next': nat, completed': nat, admitted: nat, progress: bool, ghost bs': seq<Booking>)
    requires c.tokensPerBlock > 0 && Books(reqs, c, used[..], inUse, active, next, completed)
    requires OnSchedule(reqs, c, bs, active, next, t)
    modifies used
    ensures Books(reqs, c, used[..], inUse', active', next', completed')
    ensures next <= next' <= |reqs| && next' - next == admitted + (Unservable(reqs, c, next') - Unservable(reqs, c, next))
    ensures TurnsLeft(reqs, active') + PendingTurns(reqs, c, next') == TurnsLeft(reqs, active) + PendingTurns(reqs, c, next)
    ensures (progress <==> next' > next) && |active'| >= |active|
    ensures forall i :: StallsAt(reqs, c, i) && next <= i && active == [] ==> next' <= i && active' == []
    ensures c.maxActive == 1 ==> forall i :: next <= i < next' ==> !WantsNothing(reqs, c, i)
    ensures c.maxActive == 0 || (active == [] && WantsNothing(reqs, c, next)) ==> next' == next && active' == active
    ensures next' < |reqs| && |active'| < c.maxActive ==>
              && Servable(reqs[next'], c)
              && (active' == [] ==> WantsNothing(reqs, c, next'))
    ensures next' < |reqs| && |active'| < c.maxActive ==> LowestFit(used[..], RequestBlocks(reqs[next'], c), None)
    ensures OnSchedule(reqs, c, bs', active', next', t) && Waits(reqs, c, bs', t)
    ensures bs <= bs' && forall i :: |bs| <= i < |bs'| ==> bs'[i].step == t
  {
    hide Books, OnSchedule, Waits, LowestFit, Servable, RequestBlocks, PendingTurns, TurnsLeft, FreeRun, CountUsed;
    inUse', active', next', completed', admitted, progress := inUse, active, next, completed, 0, false;
    bs' := bs;
    BooksShow(reqs, c, used[..], inUse', active', next', completed');
    while next' < |reqs| && |active'| < c.maxActive
      invariant next <= next' <= |reqs| && |active'| >= |active|
      invariant Books(reqs, c, used[..], inUse', active', next', completed')
      invariant TurnsLeft(reqs, active') + PendingTurns(reqs, c, next') == TurnsLeft(reqs, active) + PendingTurns(reqs, c, next)
      invariant progress <==> next' > next
      invariant forall i :: StallsAt(reqs, c, i) && next <= i && active == [] ==> next' <= i && active' == []
      invariant next' - next == admitted + (Unservable(reqs, c, next') - Unservable(reqs, c, next))
      invariant c.maxActive == 1 ==> forall i :: next <= i < next' ==> !WantsNothing(reqs, c, i)
      invariant c.maxActive == 0 || (active == [] && WantsNothing(reqs, c, next)) ==> next' == next && active' == active
      invariant OnSchedule(reqs, c, bs', active', next', t) && bs <= bs' && forall i :: |bs| <= i < |bs'| ==> bs'[i].step == t
      decreases |reqs| - next'
    {
      if !Servable(reqs[next'], c) {
        SkippedOnSchedule(reqs, c, used[..], inUse', active', next', completed', bs', t);
        bs' := bs' + [Booking(t, 0)];
        SkipBooks(reqs, c, used[..], inUse', active', next', completed');
        next', completed', progress := next' + 1, completed' + 1, true;
        continue;
      }
      ServableFits(reqs[next'], c);
      var needed := RequestBlocks(reqs[next'], c);
      IdleRefusal(reqs, c, used[..], inUse', active', next', completed', needed);
      IdleMeansFree(reqs, c, used[..], inUse', active', next', completed');
      var start := FirstFit(used, needed);
      if start.None? {
        break;
      }
      ghost var before := used[..];
      RunIsFree(before, start.value, needed);
      MarkRun(used, start.value, needed, true);
      AdmittedOnSchedule(reqs, c, before, inUse', active', next', completed', bs', t, Reservation(next', start.value, needed, 0));
      bs' := bs' + [Booking(t, start.value)];
      AdmitBooks(reqs, c, before, used[..], inUse', active', next', completed', Reservation(next', start.value, needed, 0));
      inUse' := inUse' + needed;
      active' := active' + [Reservation(next', start.value, needed, 0)];
      next', admitted, progress := next' + 1, admitted + 1, true;
    }
    NobodyMore(reqs, c, used[..], inUse', active', next', completed', bs', t);
  }

  lemma RunIsFree(used: seq<bool>, start: nat, n: nat)
    requires n > 0 ==> FreeRun(used, start, n)
    requires n == 0 ==> start <= |used|
    ensures start + n <= |used| && forall b :: start <= b < start + n ==> !used[b]
  {}

  /** Which requests ask for no blocks at all. */
  lemma AsksForNothing(r: TraceRequest, c: ReplayConfig)
    requires c.tokensPerBlock > 0
    ensures RequestBlocks(r, c) == 0 <==> c.maxContext == 0 || r.prompt + r.decodeBudget == 0
  {
    CeilDivIsLeastCover(Min(c.maxContext, r.prompt + r.decodeBudget), c.tokensPerBlock, 0);
  }

  lemma TurnTaken(reqs: seq<TraceRequest>, c: ReplayConfig, used: seq<bool>, inUse: nat, active: seq<Reservation>, next: nat, completed: nat, i: nat)
    requires c.tokensPerBlock > 0 && Books(reqs, c, used, inUse, active, next, completed) && i < |active|
    ensures active[i].index < |reqs|
    ensures var r := active[i].(decoded := active[i].decoded + 1);
            && TurnsLeft(reqs, active[i := r]) == TurnsLeft(reqs, active) - 1
            && (r.decoded < reqs[r.index].decodeActual ==> Books(reqs, c, used, inUse, active[i := r], next, completed))
  {
    hide Placed, CeilDiv;
    var r := active[i].(decoded := active[i].decoded + 1);
    TurnsAfterPut(reqs, active, i, r);
    BlocksAfterPut(active, i, r);
    if r.decoded < reqs[r.index].decodeActual {
      PlacedAfterTurn(used, active, i, r);
    }
  }

  lemma PlacedAfterTurn(used: seq<bool>, active: seq<Reservation>, i: nat, r: Reservation)
    requires Placed(used, active) && i < |active| && r == active[i].(decoded := r.decoded)
    ensures Placed(used, active[i := r])
  {
    var active' := active[i := r];
    assert forall k, b :: 0 <= k < |active| ==> Owns(active'[k], b) == Owns(active[k], b);
    forall b | 0 <= b < |used|
      ensures used[b] <==> exists k :: 0 <= k < |active'| && Owns(active'[k], b)
    {
      if k :| 0 <= k < |active| && Owns(active[k], b) {
        assert Owns(active'[k], b);
      }
      if k :| 0 <= k < |active'| && Owns(active'[k], b) {
        assert Owns(active[k], b);
      }
    }
  }

  /** The last turn: the run goes back and the reservation leaves. */
  lemma RequestDone(reqs: seq<TraceRequest>, c: ReplayConfig, used: seq<bool>, used': seq<bool>, inUse: nat, active: seq<Reservation>, next: nat, completed: nat, i: nat)
    requires c.tokensPerBlock > 0 && Books(reqs, c, used, inUse, active, next, completed) && i < |active| && |used'| == |used|
    requires active[i].index < |reqs| && active[i].decoded + 1 >= reqs[active[i].index].decodeActual
    requires forall b :: 0 <= b < |used| ==> used'[b] == if active[i].start <= b < active[i].start + active[i].count then false else used[b]
    requires CountUsed(used') == CountUsed(used) - active[i].count
    ensures active[i].count <= inUse
    ensures Books(reqs, c, used', inUse - active[i].count, SwapRemoved(active, i), next, completed + 1)
    ensures TurnsLeft(reqs, SwapRemoved(active, i)) == TurnsLeft(reqs, active) - 1
  {
    hide Placed, InService, CeilDiv, CountUsed, SwapRemoved;
    InServiceAfterRemove(reqs, c, active, i, next);
    PlacedAfterRemove(used, used', active, i);
    BlocksAfterRemove(active, i);
    TurnsAfterRemove(reqs, active, i);
  }

  lemma InServiceAfterRemove(reqs: seq<TraceRequest>, c: ReplayConfig, active: seq<Reservation>, i: nat, next: nat)
    requires c.tokensPerBlock > 0 && InService(reqs, c, active, next) && i < |active|
    ensures InService(reqs, c, SwapRemoved(active, i), next) && |SwapRemoved(active, i)| == |active| - 1
    ensures active[i].index < |reqs| && active[i].decoded < Turns(reqs[active[i].index])
  {
    hide Servable, RequestBlocks;
    var active' := SwapRemoved(active, i);
    assert forall k :: 0 <= k < |active'| ==> active'[k] == active[if k == i then |active| - 1 else k];
  }

  lemma RunIsUsed(reqs: seq<TraceRequest>, c: ReplayConfig, used: seq<bool>, inUse: nat, active: seq<Reservation>, next: nat, completed: nat, i: nat)
    requires c.tokensPerBlock > 0 && Books(reqs, c, used, inUse, active, next, completed) && i < |active|
    ensures active[i].start + active[i].count <= |used|
    ensures forall b :: active[i].start <= b < active[i].start + active[i].count ==> used[b]
  {
    assert forall b :: active[i].start <= b < active[i].start + active[i].count ==> Owns(active[i], b);
  }

  /** One token for every active request; those that are done leave, the last one filling the gap. */
  method DecodeActive(reqs: seq<TraceRequest>, c: ReplayConfig, used: array<bool>, inUse: nat, active: seq<Reservation>, next: nat, completed: nat,
          ghost bs: seq<Booking>, ghost t: nat)
    returns (inUse': nat, active': seq<Reservation>, completed': nat, progress: bool)
    requires c.tokensPerBlock > 0 && Books(reqs, c, used[..], inUse, active, next, completed) && Tracks(reqs, c, bs, active, t)
    modifies used
    ensures Books(reqs, c, used[..], inUse', active', next, completed')
    ensures TurnsLeft(reqs, active') == TurnsLeft(reqs, active) - |active| && (progress <==> active != [])
    ensures Tracks(reqs, c, bs, active', t + 1)
  {
    hide Books, TurnsLeft, CountUsed, Tracks, Turning;
    inUse', active', completed', progress := inUse, active, completed, false;
    BooksShow(reqs, c, used[..], inUse', active', next, completed');
    TurnsBegin(reqs, c, bs, active', t);
    var i := 0;
    ghost var taken := 0;
    while i < |active'|
      invariant i <= |active'| && taken + (|active'| - i) == |active| && (progress <==> taken > 0)
      invariant Books(reqs, c, used[..], inUse', active', next, completed')
      invariant TurnsLeft(reqs, active') == TurnsLeft(reqs, active) - taken
      invariant Turning(reqs, c, bs, active', t, i)
      decreases |active'| - i
    {
      TurnTaken(reqs, c, used[..], inUse', active', next, completed', i);
      var reservation := active'[i].(decoded := active'[i].decoded + 1);
      progress := true;
      taken := taken + 1;
      if reservation.decoded >= reqs[reservation.index].decodeActual {
        RunIsUsed(reqs, c, used[..], inUse', active', next, completed', i);
        ghost var before := used[..];
        MarkRun(used, reservation.start, reservation.count, false);
        RequestDone(reqs, c, before, used[..], inUse', active', next, completed', i);
        TurnLeaves(reqs, c, bs, active', t, i);
        inUse' := inUse' - reservation.count;
        active' := SwapRemoved(active', i);
        completed' := completed' + 1;
      } else {
        TurnStays(reqs, c, bs, active', t, i, reservation);
        active' := active'[i := reservation];
        i := i + 1;
      }
    }
    TurnsEnd(reqs, c, bs, active', t);
  }

  // ---- The whole replay ------------------------------------------------------------------------------------------

  /** Steps that suffice: every servable request's turns, and one to notice the end. */
  function StepBound(reqs: seq<TraceRequest>, c: ReplayConfig): nat
    requires c.tokensPerBlock > 0
  {
    PendingTurns(reqs, c, 0) + 1
  }

  lemma NothingPlaced(reqs: seq<TraceRequest>, c: ReplayConfig, used: seq<bool>)
    requires c.tokensPerBlock > 0 && |used| == c.maxBlocks && forall b :: 0 <= b < |used| ==> !used[b]
    ensures Books(reqs, c, used, 0, [], 0, 0)
  {
    NoneUsed(used);
  }

  lemma AllDone(reqs: seq<TraceRequest>, c: ReplayConfig, used: seq<bool>, inUse: nat, active: seq<Reservation>, next: nat, completed: nat)
    requires c.tokensPerBlock > 0 && Books(reqs, c, used, inUse, active, next, completed)
    ensures completed <= next <= |reqs| && completed + |active| == next
    ensures completed == |reqs| ==> active == []
    ensures active == [] ==> inUse == 0 && forall b :: 0 <= b < |used| ==> !used[b]
    ensures TurnsLeft(reqs, active) >= |active|
  {
    if active == [] {
      NoneUsed(used);
    }
    TurnsLeftPositive(reqs, c, active, next);
  }

  /** Every request some pool could serve asks for at least one block. */
  ghost predicate NeedsBlocks(reqs: seq<TraceRequest>, c: ReplayConfig)
    requires c.tokensPerBlock > 0
  {
    forall i :: 0 <= i < |reqs| ==> !WantsNothing(reqs, c, i)
  }

  /** One request for no tokens is enough: any pool could serve it, and by its contract the replay below never does. */
  lemma NothingIsNeverServed(c: ReplayConfig, decodeActual: nat)
    requires c.tokensPerBlock > 0
    ensures var reqs := [TraceRequest(0, 0, decodeActual)];
            StallsAt(reqs, c, 0) && !NeedsBlocks(reqs, c)
  {
    hide RequestBlocks;
    AsksForNothing(TraceRequest(0, 0, decodeActual), c);
    assert WantsNothing([TraceRequest(0, 0, decodeActual)], c, 0);
  }

  lemma NothingBooked(reqs: seq<TraceRequest>, c: ReplayConfig)
    requires c.tokensPerBlock > 0
    ensures OnSchedule(reqs, c, [], [], 0, 1) && Replays(reqs, c, [], 0)
  {}

  /** The bookings of this step come after those of the steps before. */
  lemma StepAdmitted(reqs: seq<TraceRequest>, c: ReplayConfig, bs: seq<Booking>, bs': seq<Booking>, active: seq<Reservation>, next: nat, t: nat)
    requires c.tokensPerBlock > 0 && t > 0 && Replays(reqs, c, bs, t - 1) && (t > 1 ==> Busy(reqs, c, bs, t - 1))
    requires OnSchedule(reqs, c, bs', active, next, t) && Waits(reqs, c, bs', t) && bs <= bs'
    ensures |bs'| == next <= |reqs| && Tracks(reqs, c, bs', active, t) && Replays(reqs, c, bs', t)
  {
    hide Booked, Refused, Busy, Waits, Follows, Listed;
    forall u | 1 <= u < t
      ensures Busy(reqs, c, bs', u)
    {
      BusyStays(reqs, c, bs, bs', u);
    }
  }

  /** The step was busy exactly when somebody was admitted, passed over or decoded. */
  lemma StepTaken(reqs: seq<TraceRequest>, c: ReplayConfig, bs: seq<Booking>, bs': seq<Booking>, active: seq<Reservation>, active': seq<Reservation>, next: nat, t: nat)
    requires c.tokensPerBlock > 0 && t > 0 && Replays(reqs, c, bs, t - 1) && bs <= bs' && next == |bs'|
    requires Tracks(reqs, c, bs', active, t) && Replays(reqs, c, bs', t) && Tracks(reqs, c, bs', active', t + 1)
    requires forall i :: |bs| <= i < |bs'| ==> bs'[i].step == t
    ensures Busy(reqs, c, bs', t) <==> |bs'| > |bs| || active != []
    ensures OnSchedule(reqs, c, bs', active', next, t + 1)
  {
    hide Booked, Refused, Waits, Servable, RequestBlocks;
    if |bs'| > |bs| {
      assert bs'[|bs|].step <= t <= Last(reqs, c, bs', |bs|);
    }
    if active != [] {
      assert Follows(reqs, c, bs', active[0], t);
    }
    if i :| 0 <= i < |bs| && bs'[i].step <= t <= Last(reqs, c, bs', i) {
      assert bs'[i] == bs[i];
      assert Runs(reqs, c, bs', i, t) && Active(active, i);
    }
  }

  /** What the bookings say at the end. */
  lemma RunOver(reqs: seq<TraceRequest>, c: ReplayConfig, used: seq<bool>, inUse: nat, active: seq<Reservation>, next: nat, completed: nat, bs: seq<Booking>, steps: nat)
    requires c.tokensPerBlock > 0 && Books(reqs, c, used, inUse, active, next, completed) && OnSchedule(reqs, c, bs, active, next, steps + 1)
    requires Replays(reqs, c, bs, steps) && (completed == |reqs| ==> if reqs == [] then steps == 0 else Busy(reqs, c, bs, steps))
    ensures |bs| == next <= |reqs| && completed == Done(reqs, c, bs, |bs|, steps) && used == Occupied(reqs, c, bs, |bs|, steps + 1)
    ensures completed == |reqs| ==> forall i :: 0 <= i < |reqs| && Servable(reqs[i], c) ==> Turns(reqs[i]) <= steps
    ensures completed == |reqs| && c.maxActive == 1 && AllServable(reqs, c) ==> steps == TotalTurns(reqs, |reqs|)
    ensures completed == |reqs| && AllFit(reqs, c) && reqs != [] ==> exists i :: 0 <= i < |reqs| && Turns(reqs[i]) == steps
  {
    hide OnSchedule, Placed, InService, CountUsed, BlocksOf, Done, Occupied, Running, Busy, Servable, AllServable, AllFit, TotalTurns, Schedule, Waits, Turns;
    BooksTrack(reqs, c, used, inUse, active, next, completed, bs, steps + 1);
    DoneOrRunning(reqs, c, bs, |bs|, steps);
    if completed == |reqs| {
      StepsOfFinished(reqs, c, bs, steps);
    }
  }

  /** Marks the requests that could never be served, before the replay starts. */
  method CountUnservable(reqs: seq<TraceRequest>, c: ReplayConfig) returns (n: nat)
    requires c.tokensPerBlock > 0
    ensures n == Unservable(reqs, c, |reqs|)
  {
    hide Servable;
    n := 0;
    var i := 0;
    while i < |reqs|
      invariant i <= |reqs| && n == Unservable(reqs, c, i)
    {
      if !Servable(reqs[i], c) {
        n := n + 1;
      }
      i := i + 1;
    }
  }

  /**
    Main result on the baseline: the books hold throughout; with room for at least one active
    request and no step cap in the way, every trace whose servable requests need a block each
    finishes within the bound, and finishing leaves the pool empty.  Given one step more, any
    replay either finishes or stops, its pool empty, in front of a servable request for no blocks
    at all; one whose first servable request asks for none never gets past it.  One request at a
    time, a replay given its steps finishes exactly when every servable request needs a block.

    What it does step by step is the one schedule there is: nobody admitted late, the lowest place
    for each, no idle step.  So a finished replay takes no fewer steps than any of its requests has
    turns, their sum when requests go one at a time, and their largest when all fit at once.
   */
  method RunContiguous(reqs: seq<TraceRequest>, c: ReplayConfig) returns (m: Metrics, left: seq<bool>, ghost bs: seq<Booking>)
    requires c.tokensPerBlock > 0
    ensures |left| == c.maxBlocks && m.completed <= |reqs| && m.steps <= c.maxSteps
    ensures m.neverAdmissible == Unservable(reqs, c, |reqs|)
    ensures m.completed == |reqs| ==>
              && m.leakFree && (forall b :: 0 <= b < |left| ==> !left[b])
              && m.admitted + m.neverAdmissible == |reqs|
    ensures c.maxActive > 0 && NeedsBlocks(reqs, c) ==> m.steps <= StepBound(reqs, c)
    ensures c.maxActive > 0 && NeedsBlocks(reqs, c) && c.maxSteps >= StepBound(reqs, c) ==> m.completed == |reqs|
    ensures c.maxActive > 0 ==> m.steps <= StepBound(reqs, c) + 1
    ensures c.maxActive > 0 && (m.steps < c.maxSteps || c.maxSteps > StepBound(reqs, c)) ==>
              m.completed == |reqs| || (WantsNothing(reqs, c, m.completed) && m.leakFree && forall b :: 0 <= b < |left| ==> !left[b])
    ensures c.maxActive == 0 ==> m.completed == 0
    ensures forall i :: StallsAt(reqs, c, i) ==> m.completed <= i
    ensures c.maxActive == 1 ==> forall i :: WantsNothing(reqs, c, i) ==> m.completed <= i
    ensures c.maxActive == 1 && c.maxSteps >= StepBound(reqs, c) ==> (m.completed == |reqs| <==> NeedsBlocks(reqs, c))
    ensures Replays(reqs, c, bs, m.steps) && m.completed == Done(reqs, c, bs, |bs|, m.steps)
    ensures m.admitted == |bs| - Unservable(reqs, c, |bs|) && left == Occupied(reqs, c, bs, |bs|, m.steps + 1)
    ensures m.completed < |reqs| ==> m.steps == c.maxSteps || !Busy(reqs, c, bs, m.steps)
    ensures m.completed == |reqs| ==> if reqs == [] then m.steps == 0 else Busy(reqs, c, bs, m.steps)
    ensures m.completed == |reqs| ==> forall i :: 0 <= i < |reqs| && Servable(reqs[i], c) ==> Turns(reqs[i]) <= m.steps
    ensures m.completed == |reqs| && c.maxActive == 1 && AllServable(reqs, c) ==> m.steps == TotalTurns(reqs, |reqs|)
    ensures m.completed == |reqs| && AllFit(reqs, c) && reqs != [] ==> exists i :: 0 <= i < |reqs| && Turns(reqs[i]) == m.steps
  {
    hide Replays, OnSchedule, Tracks, Waits, Done, Busy, Occupied, AllServable, AllFit, TotalTurns, Turns,
         Books, Servable, RequestBlocks, PendingTurns, TurnsLeft, CountUsed, Unservable;
    var never := CountUnservable(reqs, c);
    var used := new bool[c.maxBlocks](_ => false);
    var inUse: nat, active: seq<Reservation>, next: nat, completed: nat := 0, [], 0, 0;
    var steps: nat, admitted: nat := 0, 0;
    bs := [];
    NothingPlaced(reqs, c, used[..]);
    NothingBooked(reqs, c);
    NoTurnsYet(reqs, c);
    AllDone(reqs, c, used[..], inUse, active, next, completed);
    ghost var stuck := false;
    while completed < |reqs| && steps < c.maxSteps
      invariant completed <= next <= |reqs| && steps <= c.maxSteps && !stuck
      invariant Books(reqs, c, used[..], inUse, active, next, completed)
      invariant next == admitted + Unservable(reqs, c, next) && TurnsLeft(reqs, active) >= 0
      invariant forall i :: StallsAt(reqs, c, i) ==> next <= i && active == []
      invariant c.maxActive == 1 ==> forall i :: WantsNothing(reqs, c, i) ==> next <= i
      invariant c.maxActive == 0 ==> next == 0
      invariant c.maxActive > 0 ==>
                  steps + TurnsLeft(reqs, active) + PendingTurns(reqs, c, next)
                  <= PendingTurns(reqs, c, 0) + if completed == |reqs| || (active == [] && WantsNothing(reqs, c, next)) then 1 else 0
      invariant |bs| == next && OnSchedule(reqs, c, bs, active, next, steps + 1) && Replays(reqs, c, bs, steps)
      invariant if steps == 0 then completed == 0 else reqs != [] && Busy(reqs, c, bs, steps)
      decreases c.maxSteps - steps
    {
      AllDone(reqs, c, used[..], inUse, active, next, completed);
      steps := steps + 1;
      var admittedNow: nat;
      var progress, decoded: bool;
      ghost var before := bs;
      inUse, active, next, completed, admittedNow, progress, bs := AdmitPending(reqs, c, used, inUse, active, next, completed, bs, steps);
      StepAdmitted(reqs, c, before, bs, active, next, steps);
      ghost var during := active;
      admitted := admitted + admittedNow;
      AllDone(reqs, c, used[..], inUse, active, next, completed);
      assert c.maxActive > 0 && active == [] ==> next == |reqs| || WantsNothing(reqs, c, next);
      inUse, active, completed, decoded := DecodeActive(reqs, c, used, inUse, active, next, completed, bs, steps);
      StepTaken(reqs, c, before, bs, during, active, next, steps);
      AllDone(reqs, c, used[..], inUse, active, next, completed);
      if !progress && !decoded {
        assert completed < |reqs|;
        stuck := true;
        break;
      }
    }
    AllDone(reqs, c, used[..], inUse, active, next, completed);
    RunOver(reqs, c, used[..], inUse, active, next, completed, bs, steps);
    m := Metrics(steps, admitted, never, completed, inUse == 0);
    left := used[..];
  }

  lemma NoTurnsYet(reqs: seq<TraceRequest>, c: ReplayConfig)
    requires c.tokensPerBlock > 0
    ensures TurnsLeft(reqs, []) == 0 && Unservable(reqs, c, 0) == 0
  {}
}
