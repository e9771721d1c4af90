/**
  What a request asked for, and how much of its prefill is left, over whole runs: no call changes
  the first, and only completed steps take anything off the second.
 */
module SchedulerProgress {
  import opened Wrappers
  import opened Arithmetic
  import opened FramePool
  import opened CacheStore
  import opened SchedulerModel
  import opened SchedulerLedger
  import opened SchedulerPlans
  import opened SchedulerRounds
  import opened SchedulerRuns
  import CacheRuns

  // ---- One completed step ---------------------------------------------------------------------------

  /**
    A completed step takes the tokens it produced off what the request has left of its prefill, but
    not more than is left, and moves it to Decode exactly when that was everything; a request that
    decodes already, and every other request, stays as it was.
   */
  lemma CompleteTakesOff(s: Sched, i: nat, produced: nat)
    requires i < |s.active| && FindRequest(s.active, s.active[i].id) == Some(i)
    ensures var r, s' := s.active[i], CompleteStep(s, s.active[i].id, produced);
            && |s'.active| == |s.active| && s' == s.(active := s.active[i := s'.active[i]])
            && s'.active[i] == r.(remaining := s'.active[i].remaining, state := s'.active[i].state)
            && (r.state == Prefill ==>
                  && s'.active[i].remaining == r.remaining - Min(produced, r.remaining)
                  && s'.active[i].state == (if produced >= r.remaining then Decode else Prefill))
            && (r.state != Prefill ==> s' == s)
  {
    hide FindRequest;
    assert s.active[i := s.active[i]] == s.active;
  }

  lemma CompleteUnknown(s: Sched, id: nat, produced: nat)
    requires FindRequest(s.active, id).None?
    ensures CompleteStep(s, id, produced) == s
  {
    hide FindRequest;
  }

  // ---- What requests ask for ----------------------------------------------------------------------------

  /** What a request asks for, and how much of its prefill is left. */
  datatype Card = Card(id: nat, root: nat, prompt: nat, maxDecode: nat, key: string, remaining: nat)

  function CardOf(r: Request): Card {
    Card(r.id, r.root, r.prompt, r.maxDecode, r.key, r.remaining)
  }

  function CardsOf(q: seq<Request>): (r: seq<Card>)
    ensures |r| == |q|
  {
    seq(|q|, i requires 0 <= i < |q| => CardOf(q[i]))
  }

  ghost function Cards(q: seq<Request>): multiset<Card> {
    multiset(CardsOf(q))
  }

  /** The cards of all tracked requests, whichever queue they are in. */
  ghost function TrackedCards(s: Sched): multiset<Card> {
    Cards(s.pending) + Cards(s.active) + Cards(s.preempted)
  }

  lemma CardsAppend(q: seq<Request>, q': seq<Request>)
    ensures Cards(q + q') == Cards(q) + Cards(q')
  {
    assert CardsOf(q + q') == CardsOf(q) + CardsOf(q');
  }

  lemma OneCard(r: Request)
    ensures Cards([r]) == multiset{CardOf(r)}
  {
    assert CardsOf([r]) == [CardOf(r)];
  }

  lemma CardsRemoved(q: seq<Request>, i: nat)
    requires i < |q|
    ensures Cards(q) == Cards(Removed(q, i)) + multiset{CardOf(q[i])}
  {
    hide Cards, CardsOf, CardOf;
    SplitAt(q, i);
    CardsAppend(q[..i] + [q[i]], q[i + 1..]);
    CardsAppend(q[..i], [q[i]]);
    CardsAppend(q[..i], q[i + 1..]);
    OneCard(q[i]);
  }

  lemma CardsPut(q: seq<Request>, i: nat, r: Request)
    requires i < |q|
    ensures Cards(q[i := r]) == Cards(q) - multiset{CardOf(q[i])} + multiset{CardOf(r)}
  {
    hide Cards, CardsOf, CardOf;
    CardsRemoved(q, i);
    CardsRemoved(q[i := r], i);
    assert Removed(q[i := r], i) == Removed(q, i);
  }

  lemma CardIn(q: seq<Request>, card: Card)
    ensures card in Cards(q) <==> exists i :: 0 <= i < |q| && CardOf(q[i]) == card
  {
    if i :| 0 <= i < |q| && CardOf(q[i]) == card {
      assert CardsOf(q)[i] == card;
    }
  }

  lemma TrackedCardsAre(s: Sched)
    ensures TrackedCards(s) == Cards(s.pending) + Cards(s.active) + Cards(s.preempted)
  {}

  /** The state a request is in, its lifetime and its skips are not on the card. */
  lemma SameCard(r: Request, state: RequestState, lifetime: nat, skips: nat)
    ensures CardOf(r.(state := state, lifetime := lifetime, skips := skips)) == CardOf(r)
    ensures CardOf(r.(state := state)) == CardOf(r)
  {}

  // ---- Calls that leave every card alone -------------------------------------------------------------------

  lemma PreemptKeepsCards(s: Sched, id: nat, reason: string)
    requires ValidPool(s.store.pool)
    ensures TrackedCards(Preempt(s, id, reason).0) == TrackedCards(s)
  {
    hide *;
    PreemptNothing(s, id, reason);
    var at := FindRequest(s.active, id);
    if at.Some? {
      var i := at.value;
      PreemptIs(s, id, reason, i);
      var r := s.active[i].(state := Preempted);
      CardsRemoved(s.active, i);
      CardsAppend(s.preempted, [r]);
      OneCard(r);
      SameCard(s.active[i], Preempted, 0, 0);
      TrackedCardsAre(s);
      TrackedCardsAre(Preempt(s, id, reason).0);
    }
  }

  lemma ResumeKeepsCards(s: Sched, id: nat)
    requires ValidPool(s.store.pool)
    ensures TrackedCards(Resume(s, id).0) == TrackedCards(s)
  {
    hide *;
    ResumeNothing(s, id);
    var at := FindRequest(s.preempted, id);
    TrackedCardsAre(s);
    TrackedCardsAre(Resume(s, id).0);
    if at.Some? {
      var i := at.value;
      ResumeIs(s, id, i);
      var state := if s.preempted[i].remaining > 0 then Prefill else Decode;
      CardsRemoved(s.preempted, i);
      CardsAppend(s.active, [s.preempted[i].(state := state)]);
      OneCard(s.preempted[i].(state := state));
      SameCard(s.preempted[i], state, 0, 0);
    }
  }

  lemma {:induction false} VictimsKeepCards(s: Sched, spared: nat, k: nat)
    requires ValidPool(s.store.pool) && k + spared <= |s.active|
    ensures TrackedCards(AfterVictims(s, spared, k)) == TrackedCards(s)
    decreases k
  {
    hide *;
    VictimStep(s, spared, k);
    if k > 0 {
      VictimsKeepCards(s, spared, k - 1);
      var t := AfterVictims(s, spared, k - 1);
      PreemptKeepsCards(t, t.active[|t.active| - spared - 1].id, WatermarkReason);
    }
  }

  lemma CardsOnStore(s: Sched, store: Store, held: nat)
    ensures TrackedCards(s.(store := store)) == TrackedCards(s)
    ensures TrackedCards(s.(store := store, held := held)) == TrackedCards(s)
  {}

  /** While waiting nothing was prefilled yet. */
  ghost predicate NothingPrefilled(q: seq<Request>) {
    forall r :: r in q ==> r.remaining == r.prompt
  }

  /** An attempt changes no card; the request it admits has the candidate's. */
  lemma AttemptKeepsCards(s: Sched, c: Request, plan: Plan, admitted: nat)
    requires ValidPool(s.store.pool) && c.remaining == c.prompt
    ensures var (s1, _, r) := TryAdmit(s, c, plan, admitted);
            TrackedCards(s1) == TrackedCards(s) && (r.Some? ==> CardOf(r.value) == CardOf(c))
  {
    hide *;
    if admitted < |s.active| {
      var k := ReclaimTakes(s, c.prompt, c.maxDecode, admitted);
      VictimsKeepCards(s, admitted, k);
    } else {
      NobodyToTake(s, c.prompt, c.maxDecode, admitted);
    }
    TryAdmitCases(s, c, plan, admitted);
    var s1 := ReclaimForAdmission(s, c.prompt, c.maxDecode, admitted);
    CardsOnStore(s1, Place(s1.store, c).0, s1.held + LifetimeBlocksFor(s.store, c));
    CardsOnStore(s1, Place(s1.store, c).0, s1.held);
    AdmittedCard(c, LifetimeBlocksFor(s.store, c));
  }

  lemma AdmittedCard(c: Request, lifetime: nat)
    requires c.remaining == c.prompt
    ensures CardOf(c.(lifetime := lifetime, state := Prefill, remaining := if c.remaining == 0 then c.prompt else c.remaining)) == CardOf(c)
  {}

  lemma BumpKeepsCards(q: seq<Request>)
    ensures Cards(BumpSkips(q)) == Cards(q) && (NothingPrefilled(q) ==> NothingPrefilled(BumpSkips(q)))
  {
    assert CardsOf(BumpSkips(q)) == CardsOf(q);
    if NothingPrefilled(q) {
      forall r | r in BumpSkips(q)
        ensures r.remaining == r.prompt
      {
        var i :| 0 <= i < |q| && BumpSkips(q)[i] == r;
        assert q[i] in q;
      }
    }
  }

  lemma MoveKeepsCards(s: Sched, i: nat, c: Request)
    requires i < |s.pending| && CardOf(c) == CardOf(s.pending[i]) && NothingPrefilled(s.pending)
    ensures TrackedCards(MoveToActive(s, i, c)) == TrackedCards(s) && NothingPrefilled(MoveToActive(s, i, c).pending)
  {
    hide *;
    MoveFields(s, i, c);
    WaitingParts(s.pending, i);
    BumpKeepsCards(s.pending[..i]);
    CardsRemoved(s.pending, i);
    CardsAppend(s.pending[..i], s.pending[i + 1..]);
    CardsAppend(BumpSkips(s.pending[..i]), s.pending[i + 1..]);
    CardsAppend(s.active, [c]);
    OneCard(c);
    TrackedCardsAre(s);
    TrackedCardsAre(MoveToActive(s, i, c));
    RemovedIs(s.pending, i);
    JoinedWaiting(BumpSkips(s.pending[..i]), s.pending[i + 1..]);
  }

  lemma RemovedIs(q: seq<Request>, i: nat)
    requires i < |q|
    ensures Removed(q, i) == q[..i] + q[i + 1..]
  {}

  lemma WaitingParts(q: seq<Request>, i: nat)
    requires i < |q| && NothingPrefilled(q)
    ensures NothingPrefilled(q[..i]) && NothingPrefilled(q[i + 1..]) && q[i].remaining == q[i].prompt
  {
    assert q[i] in q;
  }

  lemma JoinedWaiting(q: seq<Request>, q': seq<Request>)
    requires NothingPrefilled(q) && NothingPrefilled(q')
    ensures NothingPrefilled(q + q')
  {}

  lemma {:induction false} AttemptsKeepCards(s: Sched, plan: Plan, k: nat)
    requires ValidPool(s.store.pool) && k <= |s.pending| && NothingPrefilled(s.pending)
    ensures TrackedCards(AfterAttempts(s, plan, k)) == TrackedCards(s)
    decreases k
  {
    hide TryAdmit, ValidPool, TrackedCards, Attempt, NothingPrefilled, CardOf;
    if k > 0 {
      AttemptsKeepCards(s, plan, k - 1);
      AttemptStep(s, plan, k - 1);
      WaitingParts(s.pending, k - 1);
      AttemptKeepsCards(AfterAttempts(s, plan, k - 1), s.pending[k - 1], plan, |plan.prefill|);
    }
  }

  lemma PickKeepsCards(s: Sched, plan: Plan)
    requires ValidPool(s.store.pool) && s.pending != [] && NothingPrefilled(s.pending)
    ensures var (s1, _, pick) := Pick(s, plan);
            TrackedCards(s1) == TrackedCards(s) && (pick.Some? ==> CardOf(pick.value.1) == CardOf(s.pending[pick.value.0]))
  {
    hide *;
    PicksTheFirst(s, plan);
    var (s1, _, pick) := Pick(s, plan);
    if pick.Some? {
      var n := pick.value.0;
      AttemptsKeepCards(s, plan, n);
      AttemptStep(s, plan, n);
      WaitingParts(s.pending, n);
      AttemptKeepsCards(AfterAttempts(s, plan, n), s.pending[n], plan, |plan.prefill|);
    } else {
      AttemptsKeepCards(s, plan, if !s.cfg.sizeAware || s.pending[0].skips >= s.cfg.skipLimit then 1 else |s.pending|);
    }
  }

  lemma {:induction false} AdmissionKeepsCards(s: Sched, plan: Plan)
    requires ValidPool(s.store.pool) && NothingPrefilled(s.pending)
    ensures TrackedCards(AdmitLoop(s, plan).0) == TrackedCards(s)
    decreases |s.pending|
  {
    hide *;
    AdmitLoopUnfolds(s, plan);
    if s.pending != [] && |s.active| < s.cfg.maxActive {
      PickKeepsCards(s, plan);
      var (s1, plan1, pick) := Pick(s, plan);
      if pick.Some? {
        MovedLengths(s1, pick.value.0, pick.value.1);
        MoveKeepsCards(s1, pick.value.0, pick.value.1);
        AdmissionKeepsCards(MoveToActive(s1, pick.value.0, pick.value.1), plan1);
      }
    }
  }

  lemma BooksNothingPrefilled(s: Sched)
    requires Books(s)
    ensures NothingPrefilled(s.pending) && ValidPool(s.store.pool)
  {
    forall r | r in s.pending
      ensures r.remaining == r.prompt
    {
      assert WaitingOk(r);
    }
  }

  lemma ScheduleKeepsCards(s: Sched)
    requires Books(s)
    ensures ValidPool(s.store.pool) && TrackedCards(ScheduleNext(s).0) == TrackedCards(s)
  {
    hide *;
    BooksNothingPrefilled(s);
    ScheduleIs(s);
    AdmissionKeepsCards(s, EmptyPlan);
  }

  // ---- Calls that change one card ------------------------------------------------------------------------------

  /** A submitted request joins with everything it asks for, and all of its prompt to prefill. */
  lemma EnqueueAddsCard(s: Sched, r: Request)
    ensures TrackedCards(Enqueue(s, r)) == TrackedCards(s) + multiset{CardOf(r).(remaining := r.prompt)}
  {
    var r' := r.(state := Pending, remaining := r.prompt, skips := 0, lifetime := 0);
    CardsAppend(s.pending, [r']);
    OneCard(r');
    hide Cards;
  }

  /** A completed step changes the card of the active request it is for, and only what is left to prefill. */
  lemma CompleteChangesCard(s: Sched, i: nat, produced: nat)
    requires StatesMatch(s) && i < |s.active| && FindRequest(s.active, s.active[i].id) == Some(i)
    ensures var card := CardOf(s.active[i]);
            TrackedCards(CompleteStep(s, s.active[i].id, produced))
            == TrackedCards(s) - multiset{card} + multiset{card.(remaining := card.remaining - Min(produced, card.remaining))}
  {
    hide *;
    CompleteTakesOff(s, i, produced);
    DecodingHasNothingLeft(s, i);
    var s' := CompleteStep(s, s.active[i].id, produced);
    CardsPut(s.active, i, s'.active[i]);
    CardFields(s.active[i], s'.active[i]);
    MinIs(produced, s.active[i].remaining);
    CardsRemoved(s.active, i);
    TrackedCardsAre(s);
    TrackedCardsAre(s');
  }

  lemma DecodingHasNothingLeft(s: Sched, i: nat)
    requires StatesMatch(s) && i < |s.active|
    ensures s.active[i].state == Prefill || (s.active[i].state == Decode && s.active[i].remaining == 0)
  {
    assert RunningOk(s.active[i]);
  }

  lemma CardFields(r: Request, r': Request)
    ensures CardOf(r).id == r.id && CardOf(r).remaining == r.remaining && CardOf(r).prompt == r.prompt
    ensures r' == r.(remaining := r'.remaining, state := r'.state) ==> CardOf(r') == CardOf(r).(remaining := r'.remaining)
  {}

  /** Cancelling takes away the card of the cancelled request. */
  lemma CancelRemovesCard(s: Sched, id: nat)
    requires ValidPool(s.store.pool)
    ensures TrackedCards(Cancel(s, id)) <= TrackedCards(s)
    ensures forall card :: card in TrackedCards(s) && card.id != id ==> TrackedCards(Cancel(s, id))[card] == TrackedCards(s)[card]
  {
    hide *;
    CancelIs(s, id);
    TrackedCardsAre(s);
    TrackedCardsAre(Cancel(s, id));
    var p, a, e := FindRequest(s.pending, id), FindRequest(s.active, id), FindRequest(s.preempted, id);
    if p.Some? {
      CardsRemoved(s.pending, p.value);
      CardFields(s.pending[p.value], s.pending[p.value]);
    } else if a.Some? {
      CardsRemoved(s.active, a.value);
      CardFields(s.active[a.value], s.active[a.value]);
    } else if e.Some? {
      CardsRemoved(s.preempted, e.value);
      CardFields(s.preempted[e.value], s.preempted[e.value]);
    }
  }

  // ---- Over runs ------------------------------------------------------------------------------------------------------

  /** The tokens a call completes for a request: those of a completed step, while the request is active. */
  ghost function CreditOf(s: Sched, call: Call, id: nat): nat {
    if call.Complete? && call.id == id && id in Ids(s.active) then call.produced else 0
  }

  /** The tokens completed for a request over a run. */
  ghost function Credit(s: Sched, calls: seq<Call>, id: nat, hash: ContentHash): nat
    requires ValidPool(s.store.pool)
    decreases |calls|
  {
    if calls == [] then 0 else CreditOf(s, calls[0], id) + Credit(Step(s, calls[0], hash), calls[1..], id, hash)
  }

  function Prefilled(card: Card, tokens: nat): Card {
    card.(remaining := card.remaining - Min(tokens, card.remaining))
  }

  lemma CompleteOnCards(s: Sched, id: nat, produced: nat, card: Card)
    requires Books(s) && card in TrackedCards(s)
    ensures ValidPool(s.store.pool)
    ensures Prefilled(card, if id == card.id && id in Ids(s.active) then produced else 0) in TrackedCards(CompleteStep(s, id, produced))
  {
    hide *;
    BooksParts(s);
    IdIn(s.active, id);
    NoTokens(card);
    var at := FindRequest(s.active, id);
    if at.None? {
      CompleteUnknown(s, id, produced);
    } else {
      var i := at.value;
      CompleteChangesCard(s, i, produced);
      CardFields(s.active[i], s.active[i]);
      if id == card.id {
        OneCardPerId(s, card, i);
        PrefilledIs(card, produced);
      }
    }
  }

  lemma NoTokens(card: Card)
    ensures Prefilled(card, 0) == card
  {}

  lemma PrefilledIs(card: Card, tokens: nat)
    ensures Prefilled(card, tokens) == card.(remaining := card.remaining - Min(tokens, card.remaining))
  {}

  /** With unique ids there is one card for an active request. */
  lemma OneCardPerId(s: Sched, card: Card, i: nat)
    requires Unique(s) && card in TrackedCards(s) && i < |s.active| && s.active[i].id == card.id
    ensures card == CardOf(s.active[i])
  {
    hide Cards, Ids, Unique, FindRequest;
    UniqueQueues(s, card.id);
    IdIn(s.active, card.id);
    IdIn(s.pending, card.id);
    IdIn(s.preempted, card.id);
    CardIn(s.pending, card);
    CardIn(s.active, card);
    CardIn(s.preempted, card);
    var j :| 0 <= j < |s.active| && CardOf(s.active[j]) == card;
    FindIsExact(s.active, i);
    FindIsExact(s.active, j);
  }

  /** One call: what a tracked request asks for stays, and its prefill shrinks by what was completed for it. */
  lemma StepOnCard(s: Sched, call: Call, hash: ContentHash, card: Card)
    requires Books(s) && card in TrackedCards(s) && call != Abort(card.id)
    ensures ValidPool(s.store.pool) && Prefilled(card, CreditOf(s, call, card.id)) in TrackedCards(Step(s, call, hash))
  {
    hide *;
    BooksParts(s);
    StepCases(s, call, hash);
    CreditIs(s, call, card.id);
    NoTokens(card);
    match call
    case Submit(request) => EnqueueAddsCard(s, request);
    case Schedule => ScheduleKeepsCards(s);
    case Complete(id, produced) => CompleteOnCards(s, id, produced, card);
    case Abort(id) => CancelRemovesCard(s, id);
    case Evict(id, reason) => PreemptKeepsCards(s, id, reason);
    case Restore(id) => ResumeKeepsCards(s, id);
    case Client(op) => CardsOnStore(s, CacheRuns.Step(s.store, op, hash).0, s.held);
  }

  lemma StepCases(s: Sched, call: Call, hash: ContentHash)
    requires ValidPool(s.store.pool)
    ensures call.Submit? ==> Step(s, call, hash) == Enqueue(s, call.request)
    ensures call.Schedule? ==> Step(s, call, hash) == ScheduleNext(s).0
    ensures call.Complete? ==> Step(s, call, hash) == CompleteStep(s, call.id, call.produced)
    ensures call.Abort? ==> Step(s, call, hash) == Cancel(s, call.id)
    ensures call.Evict? ==> Step(s, call, hash) == Preempt(s, call.id, call.reason).0
    ensures call.Restore? ==> Step(s, call, hash) == Resume(s, call.id).0
    ensures call.Client? ==> Step(s, call, hash) == s.(store := CacheRuns.Step(s.store, call.op, hash).0)
  {
    hide Enqueue, ScheduleNext, CompleteStep, Cancel, Preempt, Resume, CacheRuns.Step, ValidPool;
  }

  lemma CreditIs(s: Sched, call: Call, id: nat)
    ensures call.Complete? ==> CreditOf(s, call, id) == if call.id == id && id in Ids(s.active) then call.produced else 0
    ensures !call.Complete? ==> CreditOf(s, call, id) == 0
  {
    hide Ids;
  }

  /**
    Main result on prefill: over every disciplined run in which it is not cancelled, a request stays
    tracked with what it asked for, and what it has left to prefill is what it had less the tokens
    completed for it, through preemption, resumption and everybody else's calls.
   */
  lemma {:induction false} PrefillOverRuns(s: Sched, calls: seq<Call>, hash: ContentHash, card: Card)
    requires Books(s) && PromptsPositive(s) && ValidPool(s.store.pool) && DisciplinedRun(s, calls, hash)
    requires card in TrackedCards(s) && Abort(card.id) !in calls
    ensures Prefilled(card, Credit(s, calls, card.id, hash)) in TrackedCards(Run(s, calls, hash))
    decreases |calls|
  {
    hide *;
    RunStep(s, calls, hash, card.id);
    if calls == [] {
      NoTokens(card);
    } else {
      assert calls[0] in calls;
      StepKeepsBooks(s, calls[0], hash);
      StepOnCard(s, calls[0], hash, card);
      var card1 := Prefilled(card, CreditOf(s, calls[0], card.id));
      var rest := Credit(Step(s, calls[0], hash), calls[1..], card.id, hash);
      PrefilledIs(card, CreditOf(s, calls[0], card.id));
      PrefillOverRuns(Step(s, calls[0], hash), calls[1..], hash, card1);
      PrefilledTwice(card, CreditOf(s, calls[0], card.id), rest);
    }
  }

  lemma PrefilledTwice(card: Card, a: nat, b: nat)
    ensures Prefilled(Prefilled(card, a), b) == Prefilled(card, a + b) && Prefilled(card, a).id == card.id
  {}

  lemma RunStep(s: Sched, calls: seq<Call>, hash: ContentHash, id: nat)
    requires ValidPool(s.store.pool)
    ensures calls == [] ==> Run(s, calls, hash) == s && Credit(s, calls, id, hash) == 0
    ensures calls != [] ==>
              && Run(s, calls, hash) == Run(Step(s, calls[0], hash), calls[1..], hash)
              && Credit(s, calls, id, hash) == CreditOf(s, calls[0], id) + Credit(Step(s, calls[0], hash), calls[1..], id, hash)
              && (DisciplinedRun(s, calls, hash) ==> Disciplined(s, calls[0]) && DisciplinedRun(Step(s, calls[0], hash), calls[1..], hash))
  {
    hide Step, CreditOf, Disciplined, ValidPool;
  }

  /**
    A request leaves Prefill exactly when the tokens completed for it reach its prompt: after any such
    run from its submission on, if it is active, it decodes if and only if they have.
   */
  lemma DecodesOncePromptIsDone(s: Sched, request: Request, calls: seq<Call>, hash: ContentHash)
    requires Books(s) && PromptsPositive(s) && ValidPool(s.store.pool) && Disciplined(s, Submit(request))
    requires DisciplinedRun(Enqueue(s, request), calls, hash) && Abort(request.id) !in calls
    ensures var s', done := Run(Enqueue(s, request), calls, hash), Credit(Enqueue(s, request), calls, request.id, hash);
            && CardOf(request).(remaining := request.prompt - Min(done, request.prompt)) in TrackedCards(s')
            && (request.id in Ids(s'.active) ==>
                  StateOf(s', request.id) == Some(if done >= request.prompt then Decode else Prefill))
  {
    hide *;
    var s1 := Enqueue(s, request);
    StepCases(s, Submit(request), hash);
    StepKeepsBooks(s, Submit(request), hash);
    EnqueueAddsCard(s, request);
    CardFields(request, request);
    var card := CardOf(request).(remaining := request.prompt);
    PrefillOverRuns(s1, calls, hash, card);
    BooksHoldOverRuns(s1, calls, hash);
    var s', done := Run(s1, calls, hash), Credit(s1, calls, request.id, hash);
    PrefilledIs(card, done);
    MinIs(done, request.prompt);
    SubmittedPrompt(s, request);
    if request.id in Ids(s'.active) {
      IdIn(s'.active, request.id);
      var i := FindRequest(s'.active, request.id).value;
      BooksParts(s');
      OneCardPerId(s', Prefilled(card, done), i);
      CardFields(s'.active[i], s'.active[i]);
      ActiveState(s', i);
      DecodingHasNothingLeft(s', i);
      PrefillingHasSomethingLeft(s', i);
    }
  }

  lemma SubmittedPrompt(s: Sched, request: Request)
    requires Disciplined(s, Submit(request))
    ensures request.prompt > 0
  {}

  lemma PrefillingHasSomethingLeft(s: Sched, i: nat)
    requires StatesMatch(s) && i < |s.active| && s.active[i].prompt > 0
    ensures s.active[i].state == Prefill ==> s.active[i].remaining > 0
  {
    assert RunningOk(s.active[i]);
  }

  // ---- What callers read back ----------------------------------------------------------------------------------------

  lemma ActiveState(s: Sched, i: nat)
    requires Unique(s) && i < |s.active|
    ensures StateOf(s, s.active[i].id) == Some(s.active[i].state)
  {
    var id := s.active[i].id;
    UniqueQueues(s, id);
    IdIn(s.active, id);
    IdIn(s.pending, id);
    FindIsExact(s.active, i);
  }

  /** The state reported for a tracked request is its own, whichever queue it is in. */
  lemma ReportsTheState(s: Sched, r: Request)
    requires Unique(s) && (r in s.pending || r in s.active || r in s.preempted)
    ensures StateOf(s, r.id) == Some(r.state)
  {
    hide Ids, FindRequest;
    UniqueQueues(s, r.id);
    IdIn(s.pending, r.id);
    IdIn(s.active, r.id);
    IdIn(s.preempted, r.id);
    if i :| 0 <= i < |s.pending| && s.pending[i] == r {
      FindIsExact(s.pending, i);
    }
    if i :| 0 <= i < |s.active| && s.active[i] == r {
      FindIsExact(s.active, i);
    }
    if i :| 0 <= i < |s.preempted| && s.preempted[i] == r {
      FindIsExact(s.preempted, i);
    }
  }
}
