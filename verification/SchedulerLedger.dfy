/**
  The scheduler's books: every tracked request sits in exactly one queue with a matching state,
  preemption records exist for exactly the preempted requests, and the lifetime ledger is the
  sum over the active queue.
 */
module SchedulerLedger {
  import opened Wrappers
  import opened FramePool
  import opened CacheStore
  import opened SchedulerModel

  function IdsOf(q: seq<Request>): (r: seq<nat>)
    ensures |r| == |q|
  {
    seq(|q|, i requires 0 <= i < |q| => q[i].id)
  }

  function Lifetimes(q: seq<Request>): nat {
    if q == [] then 0 else q[0].lifetime + Lifetimes(q[1..])
  }

  ghost function Ids(q: seq<Request>): multiset<nat> {
    multiset(IdsOf(q))
  }

  /** How often each id is tracked, over all three queues. */
  ghost function TrackedIds(s: Sched): multiset<nat> {
    Ids(s.pending) + Ids(s.active) + Ids(s.preempted)
  }

  ghost predicate Unique(s: Sched) {
    forall id :: TrackedIds(s)[id] <= 1
  }

  ghost predicate WaitingOk(r: Request) {
    r.state == Pending && r.lifetime == 0 && r.remaining == r.prompt
  }

  ghost predicate RunningOk(r: Request) {
    && (r.state == Prefill || r.state == Decode)
    && (r.state == Decode ==> r.remaining == 0)
    && (r.state == Prefill && r.prompt > 0 ==> r.remaining > 0)
    && r.remaining <= r.prompt
  }

  ghost predicate StoppedOk(r: Request) {
    r.state == Preempted && r.remaining <= r.prompt
  }

  ghost predicate StatesMatch(s: Sched) {
    && (forall r :: r in s.pending ==> WaitingOk(r))
    && (forall r :: r in s.active ==> RunningOk(r))
    && (forall r :: r in s.preempted ==> StoppedOk(r))
  }

  ghost predicate InfoMatches(s: Sched) {
    forall id :: id in s.info <==> id in Ids(s.preempted)
  }

  ghost predicate LedgerExact(s: Sched) {
    s.held == Lifetimes(s.active)
  }

  ghost predicate Books(s: Sched) {
    && Unique(s) && StatesMatch(s) && InfoMatches(s) && LedgerExact(s)
    && ValidPool(s.store.pool)
  }

  // ---- Queues as multisets ------------------------------------------------------------------

  lemma IdsAppend(q: seq<Request>, q': seq<Request>)
    ensures IdsOf(q + q') == IdsOf(q) + IdsOf(q')
    ensures Ids(q + q') == Ids(q) + Ids(q')
  {
    assert IdsOf(q + q') == IdsOf(q) + IdsOf(q');
  }

  lemma {:induction false} LifetimesAppend(q: seq<Request>, q': seq<Request>)
    ensures Lifetimes(q + q') == Lifetimes(q) + Lifetimes(q')
  {
    if q == [] {
      assert q + q' == q';
    } else {
      assert (q + q')[1..] == q[1..] + q';
      LifetimesAppend(q[1..], q');
    }
  }

  lemma OnlyOne(r: Request)
    ensures Lifetimes([r]) == r.lifetime && Ids([r]) == multiset{r.id}
  {
    assert [r][1..] == [];
    assert IdsOf([r]) == [r.id];
  }

  lemma AppendedIds(q: seq<Request>, r: Request)
    ensures Ids(q + [r]) == Ids(q) + multiset{r.id}
    ensures Lifetimes(q + [r]) == Lifetimes(q) + r.lifetime
  {
    hide *;
    OnlyOne(r);
    IdsAppend(q, [r]);
    LifetimesAppend(q, [r]);
  }

  lemma SplitAt(q: seq<Request>, i: nat)
    requires i < |q|
    ensures q == (q[..i] + [q[i]]) + q[i + 1..]
  {}

  lemma RemovedIds(q: seq<Request>, i: nat)
    requires i < |q|
    ensures Ids(q) == Ids(Removed(q, i)) + multiset{q[i].id}
    ensures Lifetimes(q) == Lifetimes(Removed(q, i)) + q[i].lifetime
  {
    hide Ids, Lifetimes, IdsOf;
    SplitAt(q, i);
    AppendedIds(q[..i], q[i]);
    IdsAppend(q[..i] + [q[i]], q[i + 1..]);
    LifetimesAppend(q[..i] + [q[i]], q[i + 1..]);
    IdsAppend(q[..i], q[i + 1..]);
    LifetimesAppend(q[..i], q[i + 1..]);
  }

  lemma RemovedIn(q: seq<Request>, i: nat)
    requires i < |q|
    ensures forall r :: r in Removed(q, i) ==> r in q
    ensures forall k :: 0 <= k < |q| && k != i ==> q[k] in Removed(q, i)
  {
    forall k | 0 <= k < |q| && k != i
      ensures q[k] in Removed(q, i)
    {
      assert Removed(q, i)[if k < i then k else k - 1] == q[k];
    }
  }

  lemma LifetimeWithin(q: seq<Request>, i: nat)
    requires i < |q|
    ensures q[i].lifetime <= Lifetimes(q)
  {
    RemovedIds(q, i);
  }

  lemma LifetimesAfterPut(q: seq<Request>, i: nat, r: Request)
    requires i < |q|
    ensures Lifetimes(q[i := r]) == Lifetimes(q) - q[i].lifetime + r.lifetime
  {
    RemovedIds(q, i);
    RemovedIds(q[i := r], i);
    assert Removed(q[i := r], i) == Removed(q, i);
  }

  lemma IdIn(q: seq<Request>, id: nat)
    ensures id in Ids(q) <==> exists i :: 0 <= i < |q| && q[i].id == id
    ensures FindRequest(q, id).Some? <==> id in Ids(q)
  {
    if i :| 0 <= i < |q| && q[i].id == id {
      assert IdsOf(q)[i] == id;
    }
  }

  lemma OtherIdsStay(q: seq<Request>, i: nat, j: nat)
    requires i < |q| && j < |q| && i != j
    ensures q[i].id in Ids(Removed(q, j))
  {
    IdIn(Removed(q, j), q[i].id);
    assert Removed(q, j)[if i < j then i else i - 1] == q[i];
  }

  /** With unique ids the search finds the very request it is asked for. */
  lemma FindIsExact(q: seq<Request>, i: nat)
    requires i < |q| && Ids(q)[q[i].id] <= 1
    ensures FindRequest(q, q[i].id) == Some(i)
  {
    hide Ids, FindRequest, Removed;
    IdIn(q, q[i].id);
    assert exists k :: 0 <= k < |q| && q[k].id == q[i].id;
    var j := FindRequest(q, q[i].id).value;
    RemovedIds(q, j);
    if j != i {
      OtherIdsStay(q, i, j);
    }
  }

  lemma UniqueQueues(s: Sched, id: nat)
    requires Unique(s)
    ensures Ids(s.active)[id] <= 1 && Ids(s.preempted)[id] <= 1 && Ids(s.pending)[id] <= 1
    ensures id in Ids(s.preempted) ==> id !in Ids(s.active) && id !in Ids(s.pending)
    ensures id in Ids(s.active) ==> id !in Ids(s.pending)
  {
    assert TrackedIds(s)[id] == Ids(s.pending)[id] + Ids(s.active)[id] + Ids(s.preempted)[id];
  }

  lemma UniqueUnderSameIds(s: Sched, s': Sched)
    requires Unique(s) && TrackedIds(s') == TrackedIds(s)
    ensures Unique(s')
  {}

  lemma InfoAfterRemoval(s: Sched, s': Sched, id: nat)
    requires Unique(s) && InfoMatches(s) && s'.info == s.info - {id}
    requires Ids(s.preempted) == Ids(s'.preempted) + multiset{id} || (s'.preempted == s.preempted && id !in Ids(s.preempted))
    ensures InfoMatches(s')
  {
    UniqueQueues(s, id);
    forall x
      ensures x in s'.info <==> x in Ids(s'.preempted)
    {
      if x != id {
        assert Ids(s.preempted)[x] == Ids(s'.preempted)[x];
      }
    }
  }

  // ---- Each call -------------------------------------------------------------------------------

  lemma EnqueueKeepsBooks(s: Sched, r: Request)
    requires Books(s)
    ensures Books(Enqueue(s, r)) <==> r.id !in TrackedIds(s)
    ensures TrackedIds(Enqueue(s, r)) == TrackedIds(s) + multiset{r.id}
  {
    hide Ids, Lifetimes, WaitingOk, RunningOk, StoppedOk;
    var r' := r.(state := Pending, remaining := r.prompt, skips := 0, lifetime := 0);
    var s' := Enqueue(s, r);
    AppendedIds(s.pending, r');
    assert TrackedIds(s') == TrackedIds(s) + multiset{r.id};
    UniqueAfterAdding(s, s', r.id);
    WaitingAfter(r);
    assert StatesMatch(s');
  }

  lemma WaitingAfter(r: Request)
    ensures WaitingOk(r.(state := Pending, remaining := r.prompt, skips := 0, lifetime := 0))
  {}

  lemma UniqueAfterAdding(s: Sched, s': Sched, id: nat)
    requires Unique(s) && TrackedIds(s') == TrackedIds(s) + multiset{id}
    ensures Unique(s') <==> id !in TrackedIds(s)
  {
    assert TrackedIds(s')[id] == TrackedIds(s)[id] + 1;
  }

  lemma UniqueAfterRemoving(s: Sched, s': Sched, id: nat)
    requires Unique(s) && TrackedIds(s') == TrackedIds(s) - multiset{id}
    ensures Unique(s')
  {}

  lemma PreemptIs(s: Sched, id: nat, reason: string, i: nat)
    requires ValidPool(s.store.pool) && i < |s.active| && FindRequest(s.active, id) == Some(i)
    ensures var r := Preempt(s, id, reason);
            && r.1
            && r.0 == s.(active := Removed(s.active, i), preempted := s.preempted + [s.active[i].(state := Preempted)],
                         held := Discharge(s.held, s.active[i].lifetime), info := r.0.info, store := r.0.store)
            && r.0.info == s.info[id := PreemptionInfo(reason, SwapOutRequest(s.store, id).1)]
            && r.0.store == SwapOutRequest(s.store, id).0
  {}

  lemma PreemptKeepsBooks(s: Sched, id: nat, reason: string)
    requires Books(s)
    ensures Books(Preempt(s, id, reason).0)
    ensures TrackedIds(Preempt(s, id, reason).0) == TrackedIds(s)
  {
    hide FindRequest, Preempt, Ids, Lifetimes, Removed, SwapOutRequest, ValidPool;
    PreemptNothing(s, id, reason);
    if FindRequest(s.active, id).Some? {
      var i := FindRequest(s.active, id).value;
      var s' := Preempt(s, id, reason).0;
      PreemptIs(s, id, reason, i);
      var r := s.active[i].(state := Preempted);
      RemovedIds(s.active, i);
      RemovedIn(s.active, i);
      AppendedIds(s.preempted, r);
      assert RunningOk(s.active[i]);
      assert TrackedIds(s') == TrackedIds(s);
    }
  }

  lemma PreemptNothing(s: Sched, id: nat, reason: string)
    requires ValidPool(s.store.pool)
    ensures FindRequest(s.active, id).None? ==> Preempt(s, id, reason) == (s, false)
  {}

  lemma ResumeIs(s: Sched, id: nat, i: nat)
    requires ValidPool(s.store.pool) && i < |s.preempted| && FindRequest(s.preempted, id) == Some(i)
    ensures var r := Resume(s, id);
            var w := SwapInRequest(s.store, id);
            && r.1 == w.1
            && r.0 == if !w.1 then s.(store := w.0)
                      else s.(preempted := Removed(s.preempted, i),
                              active := s.active + [s.preempted[i].(state := if s.preempted[i].remaining > 0 then Prefill else Decode)],
                              held := s.held + s.preempted[i].lifetime, info := s.info - {id}, store := w.0)
  {}

  lemma ResumeKeepsBooks(s: Sched, id: nat)
    requires Books(s)
    ensures Books(Resume(s, id).0)
    ensures TrackedIds(Resume(s, id).0) == TrackedIds(s)
  {
    hide FindRequest, Resume, Ids, Lifetimes, Removed, SwapInRequest, ValidPool;
    ResumeNothing(s, id);
    if FindRequest(s.preempted, id).Some? {
      var i := FindRequest(s.preempted, id).value;
      ResumeIs(s, id, i);
      var s' := Resume(s, id).0;
      if Resume(s, id).1 {
        var r := s.preempted[i].(state := if s.preempted[i].remaining > 0 then Prefill else Decode);
        RemovedIds(s.preempted, i);
        RemovedIn(s.preempted, i);
        AppendedIds(s.active, r);
        assert StoppedOk(s.preempted[i]);
        assert TrackedIds(s') == TrackedIds(s);
        InfoAfterRemoval(s, s', id);
      } else {
        assert TrackedIds(s') == TrackedIds(s);
      }
    }
  }

  lemma ResumeNothing(s: Sched, id: nat)
    requires ValidPool(s.store.pool)
    ensures FindRequest(s.preempted, id).None? ==> Resume(s, id) == (s, false)
  {}

  lemma CompleteKeepsBooks(s: Sched, id: nat, produced: nat)
    requires Books(s)
    ensures Books(CompleteStep(s, id, produced))
    ensures TrackedIds(CompleteStep(s, id, produced)) == TrackedIds(s)
  {
    hide *;
    BooksParts(s);
    var at := FindRequest(s.active, id);
    if at.Some? {
      ProgressKeeps(s, at.value, produced);
      CompleteIs(s, id, produced);
      PutKeepsBooks(s, at.value, Progress(s.active[at.value], produced));
    } else {
      CompleteIs(s, id, produced);
    }
  }

  lemma CompleteIs(s: Sched, id: nat, produced: nat)
    ensures var at := FindRequest(s.active, id);
            CompleteStep(s, id, produced)
            == if at.Some? then s.(active := s.active[at.value := Progress(s.active[at.value], produced)]) else s
  {
    hide Progress, FindRequest;
  }

  lemma ProgressKeeps(s: Sched, i: nat, produced: nat)
    requires StatesMatch(s) && i < |s.active|
    ensures var r := Progress(s.active[i], produced);
            RunningOk(r) && r.id == s.active[i].id && r.lifetime == s.active[i].lifetime
  {
    assert RunningOk(s.active[i]);
  }

  lemma PutKeepsBooks(s: Sched, i: nat, r: Request)
    requires Books(s) && i < |s.active| && RunningOk(r) && r.id == s.active[i].id && r.lifetime == s.active[i].lifetime
    ensures Books(s.(active := s.active[i := r])) && TrackedIds(s.(active := s.active[i := r])) == TrackedIds(s)
  {
    hide Lifetimes, RunningOk, WaitingOk, StoppedOk, ValidPool;
    var s' := s.(active := s.active[i := r]);
    assert IdsOf(s'.active) == IdsOf(s.active);
    LifetimesAfterPut(s.active, i, r);
    UniqueUnderSameIds(s, s');
  }

  /** What cancelling does, by the queue that holds the request. */
  lemma CancelIs(s: Sched, id: nat)
    requires ValidPool(s.store.pool)
    ensures var s' := Cancel(s, id);
            var freed := s.(store := ReleaseRequest(s.store, id), info := s.info - {id});
            var p, a, e := FindRequest(s.pending, id), FindRequest(s.active, id), FindRequest(s.preempted, id);
            && (p.Some? ==> s' == freed.(pending := Removed(s.pending, p.value), held := Discharge(s.held, s.pending[p.value].lifetime)))
            && (p.None? && a.Some? ==> s' == freed.(active := Removed(s.active, a.value), held := Discharge(s.held, s.active[a.value].lifetime)))
            && (p.None? && a.None? && e.Some? ==>
                  s' == freed.(preempted := Removed(s.preempted, e.value), held := Discharge(s.held, s.preempted[e.value].lifetime)))
            && (p.None? && a.None? && e.None? ==> s' == s)
  {}

  /** What leaving a queue with a lifetime taken off the ledger does to the books. */
  lemma LeftBooks(s: Sched, s': Sched, id: nat, lifetime: nat)
    requires Books(s) && StatesMatch(s') && ValidPool(s'.store.pool) && s'.info == s.info - {id}
    requires TrackedIds(s') == TrackedIds(s) - multiset{id} && s'.held == Discharge(s.held, lifetime)
    requires Ids(s.preempted) == Ids(s'.preempted) + multiset{id} || (s'.preempted == s.preempted && id !in Ids(s.preempted))
    ensures Books(s') <==> Discharge(s.held, lifetime) == Lifetimes(s'.active)
  {
    hide *;
    BooksParts(s);
    InfoAfterRemoval(s, s', id);
    UniqueAfterRemoving(s, s', id);
    LedgerIs(s');
    BooksIffLedger(s');
  }

  lemma CancelPending(s: Sched, s': Sched, i: nat)
    requires Books(s) && i < |s.pending| && s.pending[i].id !in Ids(s.preempted) && ValidPool(s'.store.pool)
    requires s' == s.(pending := Removed(s.pending, i), held := Discharge(s.held, s.pending[i].lifetime),
                      info := s.info - {s.pending[i].id}, store := s'.store)
    ensures Books(s') && TrackedIds(s') == TrackedIds(s) - multiset{s.pending[i].id}
  {
    hide *;
    BooksParts(s);
    TrackedAre(s);
    TrackedAre(s');
    RemovedIds(s.pending, i);
    WaitingIsOffTheLedger(s, i);
    DischargeIs(s.held, s.pending[i].lifetime);
    StatesAfterRemoval(s, s', Removed(s.pending, i), s.active, s.preempted);
    LeftBooks(s, s', s.pending[i].id, s.pending[i].lifetime);
  }

  lemma CancelActive(s: Sched, s': Sched, i: nat)
    requires Books(s) && i < |s.active| && s.active[i].id !in Ids(s.preempted) && ValidPool(s'.store.pool)
    requires s' == s.(active := Removed(s.active, i), held := Discharge(s.held, s.active[i].lifetime),
                      info := s.info - {s.active[i].id}, store := s'.store)
    ensures Books(s') && TrackedIds(s') == TrackedIds(s) - multiset{s.active[i].id}
  {
    hide *;
    BooksParts(s);
    TrackedAre(s);
    TrackedAre(s');
    RemovedIds(s.active, i);
    DischargeIs(s.held, s.active[i].lifetime);
    StatesAfterRemoval(s, s', s.pending, Removed(s.active, i), s.preempted);
    LeftBooks(s, s', s.active[i].id, s.active[i].lifetime);
  }

  lemma CancelPreempted(s: Sched, s': Sched, i: nat)
    requires Books(s) && i < |s.preempted| && ValidPool(s'.store.pool)
    requires s' == s.(preempted := Removed(s.preempted, i), held := Discharge(s.held, s.preempted[i].lifetime),
                      info := s.info - {s.preempted[i].id}, store := s'.store)
    ensures Books(s') <==> s.preempted[i].lifetime == 0 || s.held < s.preempted[i].lifetime
    ensures TrackedIds(s') == TrackedIds(s) - multiset{s.preempted[i].id}
  {
    hide *;
    BooksParts(s);
    TrackedAre(s);
    TrackedAre(s');
    RemovedIds(s.preempted, i);
    DischargeIs(s.held, s.preempted[i].lifetime);
    StatesAfterRemoval(s, s', s.pending, s.active, Removed(s.preempted, i));
    LeftBooks(s, s', s.preempted[i].id, s.preempted[i].lifetime);
  }

  /**
    Cancelling takes the request out of its queue and off the ledger.  A preempted request left
    the ledger when it was preempted; cancelling it subtracts its lifetime again, which goes
    unnoticed exactly when there was nothing to subtract or not enough left to subtract from.
   */
  lemma CancelKeepsBooksIff(s: Sched, id: nat)
    requires Books(s)
    ensures var e := FindRequest(s.preempted, id);
            Books(Cancel(s, id)) <==> (e.Some? ==> s.preempted[e.value].lifetime == 0 || s.held < s.preempted[e.value].lifetime)
    ensures TrackedIds(Cancel(s, id)) == TrackedIds(s) - multiset{id}
  {
    hide *;
    BooksParts(s);
    CancelIs(s, id);
    CancelLeavesPool(s, id);
    UniqueQueues(s, id);
    IdIn(s.pending, id);
    IdIn(s.active, id);
    IdIn(s.preempted, id);
    TrackedAre(s);
    var p, a, e := FindRequest(s.pending, id), FindRequest(s.active, id), FindRequest(s.preempted, id);
    if p.Some? {
      CancelPending(s, Cancel(s, id), p.value);
    } else if a.Some? {
      CancelActive(s, Cancel(s, id), a.value);
    } else if e.Some? {
      CancelPreempted(s, Cancel(s, id), e.value);
    }
  }

  lemma BooksParts(s: Sched)
    requires Books(s)
    ensures Unique(s) && StatesMatch(s) && InfoMatches(s) && ValidPool(s.store.pool) && s.held == Lifetimes(s.active)
  {}

  lemma BooksIffLedger(s: Sched)
    requires Unique(s) && StatesMatch(s) && InfoMatches(s) && ValidPool(s.store.pool)
    ensures Books(s) <==> LedgerExact(s)
  {}

  lemma LedgerIs(s: Sched)
    ensures LedgerExact(s) <==> s.held == Lifetimes(s.active)
  {}

  lemma DischargeIs(held: nat, lifetime: nat)
    ensures Discharge(held, lifetime) == if lifetime > 0 && held >= lifetime then held - lifetime else held
  {}

  lemma TrackedAre(s: Sched)
    ensures TrackedIds(s) == Ids(s.pending) + Ids(s.active) + Ids(s.preempted)
  {}

  lemma WaitingIsOffTheLedger(s: Sched, i: nat)
    requires StatesMatch(s) && i < |s.pending|
    ensures s.pending[i].lifetime == 0
  {
    assert WaitingOk(s.pending[i]);
  }

  lemma StatesAfterRemoval(s: Sched, s': Sched, p: seq<Request>, a: seq<Request>, e: seq<Request>)
    requires StatesMatch(s) && s'.pending == p && s'.active == a && s'.preempted == e
    requires p == s.pending || exists i :: 0 <= i < |s.pending| && p == Removed(s.pending, i)
    requires a == s.active || exists i :: 0 <= i < |s.active| && a == Removed(s.active, i)
    requires e == s.preempted || exists i :: 0 <= i < |s.preempted| && e == Removed(s.preempted, i)
    ensures StatesMatch(s')
  {
    hide WaitingOk, RunningOk, StoppedOk;
  }

  lemma CancelLeavesPool(s: Sched, id: nat)
    requires ValidPool(s.store.pool)
    ensures ValidPool(Cancel(s, id).store.pool)
  {}
}
