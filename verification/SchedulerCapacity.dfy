/**
  No decode stall.  Without forks, prefix keys, preemption or resumption, the frames mapped by
  the active requests never exceed what the ledger holds for them, and the ledger never exceeds
  the pool: admission's reservation and every later growth within a request's declared length
  succeed.
 */
module SchedulerCapacity {
  import opened Arithmetic
  import opened FramePool
  import opened PageTable
  import opened CacheStore
  import opened CacheAccounting
  import opened CacheRefinement
  import opened Sums
  import opened SchedulerModel
  import opened SchedulerLedger
  import opened SchedulerPlans
  import opened SchedulerCache
  import CacheRuns
  import CacheLifecycle

  // ---- Counting frames ----------------------------------------------------------------------------

  lemma {:induction false} NoMoreThanHeld(frames: set<nat>, held: multiset<Res>)
    requires forall f :: f in frames ==> OnFrame(f) in held
    ensures |frames| <= |held|
    decreases |frames|
  {
    if frames != {} {
      var f :| f in frames;
      var rest := held - multiset{OnFrame(f)};
      assert |rest| == |held| - 1;
      assert forall g :: g in frames - {f} ==> OnFrame(g) in rest;
      NoMoreThanHeld(frames - {f}, rest);
    }
  }

  function UpTo(n: nat): set<nat> {
    if n == 0 then {} else UpTo(n - 1) + {n - 1}
  }

  lemma {:induction false} UpToIs(n: nat)
    ensures |UpTo(n)| == n && forall f: nat :: f in UpTo(n) <==> f < n
  {
    if n > 0 {
      UpToIs(n - 1);
    }
  }

  /** Whatever clients hold, the rest of the pool is free. */
  lemma FreeIsTheRest(p: Pool, held: multiset<Res>)
    requires Accounted(p, held)
    ensures |p.free| + |held| >= |p.infos|
  {
    var all, free := UpTo(|p.infos|), Elements(p.free);
    UpToIs(|p.infos|);
    DistinctSeqCardinality(p.free);
    var used := all - free;
    assert forall f :: f in used ==> Count(p, OnFrame(f)) > 0;
    NoMoreThanHeld(used, held);
    assert all == free + used;
  }

  lemma {:induction false} FlatSize(tables: seq<Table>, n: nat)
    requires forall l :: 0 <= l < |tables| ==> |tables[l]| == n
    ensures |HeldBy(tables)| == n * |tables|
  {
    if tables != [] {
      FlatSize(tables[1..], n);
      assert n * |tables| == n + n * (|tables| - 1);
    }
  }

  /** How many blocks each table of a sequence maps. */
  function BlockCount(s: Sequence): nat {
    if s.tables == [] then 0 else |s.tables[0]|
  }

  lemma MappedFrames(st: Store, sid: nat)
    requires MemoryInv(st) && sid in st.seqs
    ensures |HeldBy(st.seqs[sid].tables)| == BlockCount(st.seqs[sid]) * TableCount(st.pool)
  {
    TablesOkOf(st, sid);
    FlatSize(st.seqs[sid].tables, BlockCount(st.seqs[sid]));
  }

  /** Each sequence is the root of one request of q, within that request's lifetime. */
  ghost predicate RootedIn(seqs: map<nat, Sequence>, q: seq<Request>) {
    && (forall sid :: sid in seqs ==> exists i :: 0 <= i < |q| && q[i].root == sid)
    && (forall i :: 0 <= i < |q| ==> q[i].root in seqs && |HeldBy(seqs[q[i].root].tables)| <= q[i].lifetime)
    && (forall i, j :: 0 <= i < j < |q| ==> q[i].root != q[j].root)
  }

  lemma RootedWithout(seqs: map<nat, Sequence>, q: seq<Request>, i: nat)
    requires RootedIn(seqs, q) && i < |q|
    ensures RootedIn(seqs - {q[i].root}, Removed(q, i))
    ensures SequenceHolds(seqs - {q[i].root}) == SequenceHolds(seqs) - {q[i].root}
  {
    hide HeldBy, Removed;
    var q' := Removed(q, i);
    RemovedPositions(q, i);
    forall sid | sid in seqs - {q[i].root}
      ensures exists k :: 0 <= k < |q'| && q'[k].root == sid
    {
      var j :| 0 <= j < |q| && q[j].root == sid;
      assert q'[if j < i then j else j - 1] == q[j];
    }
  }

  lemma RemovedPositions(q: seq<Request>, i: nat)
    requires i < |q|
    ensures |Removed(q, i)| == |q| - 1
    ensures forall k :: 0 <= k < |q| - 1 ==> Removed(q, i)[k] == q[if k < i then k else k + 1]
  {}

  lemma {:induction false} MappedWithinLifetimes(seqs: map<nat, Sequence>, q: seq<Request>)
    requires RootedIn(seqs, q)
    ensures |SumMap(SequenceHolds(seqs))| <= Lifetimes(q)
    decreases |q|
  {
    if q == [] {
      assert seqs == map[];
      assert SequenceHolds(seqs) == map[];
    } else {
      RootedWithout(seqs, q, 0);
      assert Removed(q, 0) == q[1..];
      SumMapTake(SequenceHolds(seqs), q[0].root);
      MappedWithinLifetimes(seqs - {q[0].root}, q[1..]);
    }
  }

  /** What one request has not mapped of its lifetime is free for it. */
  lemma SlackIsUnmapped(seqs: map<nat, Sequence>, q: seq<Request>, i: nat)
    requires RootedIn(seqs, q) && i < |q|
    ensures |SumMap(SequenceHolds(seqs))| + q[i].lifetime <= Lifetimes(q) + |HeldBy(seqs[q[i].root].tables)|
  {
    RootedWithout(seqs, q, i);
    SumMapTake(SequenceHolds(seqs), q[i].root);
    MappedWithinLifetimes(seqs - {q[i].root}, Removed(q, i));
    RemovedIds(q, i);
  }

  // ---- The capacity invariant ----------------------------------------------------------------------

  function DeclaredBlocks(p: Pool, r: Request): nat
    requires TokensPerBlock(p) > 0
  {
    CeilDiv(r.prompt + r.maxDecode, TokensPerBlock(p))
  }

  /** An active request's root exists, is its own, and stays within the declared length. */
  ghost predicate Backed(st: Store, r: Request)
    requires TokensPerBlock(st.pool) > 0
  {
    && r.root in st.seqs && st.seqs[r.root].request == r.id && st.seqs[r.root].key == ""
    && BlockCount(st.seqs[r.root]) <= DeclaredBlocks(st.pool, r)
    && r.lifetime == DeclaredBlocks(st.pool, r) * TableCount(st.pool)
  }

  ghost predicate Owned(st: Store, q: seq<Request>) {
    forall sid :: sid in st.seqs ==> exists i :: 0 <= i < |q| && q[i].root == sid && q[i].id == st.seqs[sid].request
  }

  ghost predicate Capacity(s: Sched) {
    && Books(s) && CacheRuns.Inv(s.store)
    && TokensPerBlock(s.store.pool) > 0 && s.cfg.watermark == 0
    && s.preempted == [] && s.store.prefixes == map[]
    && (forall r :: r in s.pending ==> r.key == "")
    && (forall i :: 0 <= i < |s.active| ==> Backed(s.store, s.active[i]))
    && Owned(s.store, s.active)
    && s.held <= TotalFrames(s)
  }

  lemma CapacityShows(s: Sched)
    requires Capacity(s)
    ensures Books(s) && CacheRuns.Inv(s.store) && MemoryInv(s.store) && ValidPool(s.store.pool)
    ensures TokensPerBlock(s.store.pool) > 0 && s.cfg.watermark == 0 && s.preempted == [] && s.store.prefixes == map[]
    ensures s.held == Lifetimes(s.active) <= TotalFrames(s)
    ensures forall i, j :: 0 <= i < j < |s.active| ==> s.active[i].id != s.active[j].id
  {
    hide Ids;
    forall id
      ensures Ids(s.active)[id] <= 1
    {
      UniqueQueues(s, id);
    }
    UniqueIdsDistinct(s.active);
    assert forall i :: 0 <= i < |s.active| ==> IdsOf(s.active)[i] == s.active[i].id;
  }

  lemma CapacityIsRooted(s: Sched)
    requires Capacity(s)
    ensures RootedIn(s.store.seqs, s.active)
  {
    CapacityShows(s);
    forall i | 0 <= i < |s.active|
      ensures s.active[i].root in s.store.seqs && |HeldBy(s.store.seqs[s.active[i].root].tables)| <= s.active[i].lifetime
    {
      var r := s.active[i];
      assert Backed(s.store, r);
      MappedFrames(s.store, r.root);
      MulMonotone(BlockCount(s.store.seqs[r.root]), DeclaredBlocks(s.store.pool, r), TableCount(s.store.pool));
    }
    forall i, j | 0 <= i < j < |s.active|
      ensures s.active[i].root != s.active[j].root
    {
      assert Backed(s.store, s.active[i]) && Backed(s.store, s.active[j]);
    }
  }

  lemma HeldIsMapped(st: Store)
    requires st.prefixes == map[]
    ensures Held(st) == SumMap(SequenceHolds(st.seqs))
  {
    assert PrefixHolds(st.prefixes) == map[];
  }

  /** The sum of mapped frames is at most the ledger, and the ledger at most the pool. */
  lemma MappedWithinLedger(s: Sched)
    requires Capacity(s)
    ensures |Held(s.store)| <= s.held <= TotalFrames(s)
    ensures FreeFrames(s) >= TotalFrames(s) - |Held(s.store)|
  {
    hide *;
    CapacityShows(s);
    CapacityIsRooted(s);
    HeldIsMapped(s.store);
    MappedWithinLifetimes(s.store.seqs, s.active);
    MemoryAccounts(s.store);
    FreeIsTheRest(s.store.pool, Held(s.store));
    FramesAre(s);
  }

  lemma FramesAre(s: Sched)
    ensures FreeFrames(s) == |s.store.pool.free| && TotalFrames(s) == |s.store.pool.infos|
  {}

  // ---- Growth ---------------------------------------------------------------------------------------

  /** The engine's growth rule: one more block once a position falls past the table. */
  function EnsureCapacity(st: Store, sid: nat, position: nat): (r: (Store, bool))
    requires ValidPool(st.pool)
    ensures ValidPool(r.0.pool)
  {
    if sid !in st.seqs || TokensPerBlock(st.pool) == 0 then (st, false)
    else if position / TokensPerBlock(st.pool) < BlockCount(st.seqs[sid]) then (st, true)
    else ReserveTokens(st, sid, 1)
  }

  /** The next block of an active request within its declared length is always there. */
  lemma NextBlockFits(s: Sched, i: nat)
    requires Capacity(s) && i < |s.active|
    requires BlockCount(s.store.seqs[s.active[i].root]) < DeclaredBlocks(s.store.pool, s.active[i])
    ensures FreeFrames(s) >= TableCount(s.store.pool)
  {
    hide Capacity, Books, CacheRuns.Inv, MemoryInv, RootedIn, SumMap, SequenceHolds, HeldBy, DeclaredBlocks, BlockCount, ValidPool, Held, Accounted, TableCount;
    CapacityShows(s);
    CapacityIsRooted(s);
    CapacityBacks(s, i);
    HeldIsMapped(s.store);
    SlackIsUnmapped(s.store.seqs, s.active, i);
    MemoryAccounts(s.store);
    FreeIsTheRest(s.store.pool, Held(s.store));
    var r := s.active[i];
    MappedFrames(s.store, r.root);
    var n, m, k := BlockCount(s.store.seqs[r.root]), DeclaredBlocks(s.store.pool, r), TableCount(s.store.pool);
    MulMonotone(n + 1, m, k);
    assert (n + 1) * k == n * k + k;
  }

  lemma CapacityBacks(s: Sched, i: nat)
    requires Capacity(s) && i < |s.active|
    ensures TokensPerBlock(s.store.pool) > 0
    ensures s.active[i].root in s.store.seqs
    ensures s.active[i].lifetime == DeclaredBlocks(s.store.pool, s.active[i]) * TableCount(s.store.pool)
    ensures BlockCount(s.store.seqs[s.active[i].root]) <= DeclaredBlocks(s.store.pool, s.active[i])
  {}

  /** The same sequences of the same sizes, under the same requests and keys. */
  ghost predicate SameSizes(st: Store, st': Store) {
    && st'.seqs.Keys == st.seqs.Keys
    && forall sid :: sid in st.seqs ==>
         && st'.seqs[sid].request == st.seqs[sid].request && st'.seqs[sid].key == st.seqs[sid].key
         && BlockCount(st'.seqs[sid]) == BlockCount(st.seqs[sid])
  }

  ghost predicate AllBacked(st: Store, q: seq<Request>)
    requires TokensPerBlock(st.pool) > 0
  {
    forall i :: 0 <= i < |q| ==> Backed(st, q[i])
  }

  lemma CapacityParts(s: Sched)
    requires Capacity(s)
    ensures TokensPerBlock(s.store.pool) > 0 && AllBacked(s.store, s.active) && Owned(s.store, s.active)
    ensures forall r :: r in s.pending ==> r.key == ""
  {}

  lemma CapacityFrom(s: Sched)
    requires Books(s) && CacheRuns.Inv(s.store) && TokensPerBlock(s.store.pool) > 0 && s.cfg.watermark == 0
    requires s.preempted == [] && s.store.prefixes == map[] && s.held <= TotalFrames(s)
    requires AllBacked(s.store, s.active) && Owned(s.store, s.active)
    requires forall r :: r in s.pending ==> r.key == ""
    ensures Capacity(s)
  {}

  lemma SameShapeNumbers(p: Pool, q: Pool)
    requires SameLayout(p, q)
    ensures TokensPerBlock(q) == TokensPerBlock(p) && TableCount(q) == TableCount(p) && |q.infos| == |p.infos|
  {}

  lemma BackedOn(st: Store, st': Store, q: seq<Request>)
    requires TokensPerBlock(st.pool) > 0 && SameSizes(st, st') && SameLayout(st.pool, st'.pool)
    ensures TokensPerBlock(st'.pool) > 0
    ensures AllBacked(st, q) ==> AllBacked(st', q)
    ensures Owned(st, q) ==> Owned(st', q)
  {
    SameShapeNumbers(st.pool, st'.pool);
    if AllBacked(st, q) {
      forall i | 0 <= i < |q|
        ensures Backed(st', q[i])
      {
        assert Backed(st, q[i]);
      }
    }
  }

  lemma CapacityOnStore(s: Sched, store: Store)
    requires Capacity(s) && CacheRuns.Inv(store) && store.prefixes == map[] && SameLayout(s.store.pool, store.pool)
    requires SameSizes(s.store, store)
    ensures Capacity(s.(store := store))
  {
    hide *;
    CacheRuns.InvParts(store);
    CapacityShows(s);
    CapacityParts(s);
    BooksOnStore(s, store);
    SameShapeNumbers(s.store.pool, store.pool);
    BackedOn(s.store, store, s.active);
    FramesAre(s);
    FramesAre(s.(store := store));
    CapacityFrom(s.(store := store));
  }

  lemma GrownSequence(st: Store, sid: nat, tokens: nat)
    requires CacheRuns.Inv(st) && sid in st.seqs
    ensures ValidPool(st.pool)
    ensures var (st', ok) := ReserveTokens(st, sid, tokens);
            && CacheRuns.Inv(st')
            && (ok <==> TokensPerBlock(st.pool) > 0
                        && |st.pool.free| >= CeilDiv(tokens, TokensPerBlock(st.pool)) * TableCount(st.pool))
            && (!ok ==> st' == st)
            && (ok ==>
                  && sid in st'.seqs && SameLayout(st.pool, st'.pool)
                  && st' == st.(pool := st'.pool, seqs := st.seqs[sid := st.seqs[sid].(tables := st'.seqs[sid].tables)])
                  && BlockCount(st'.seqs[sid]) == BlockCount(st.seqs[sid]) + CeilDiv(tokens, TokensPerBlock(st.pool)))
  {
    hide ReserveTokens, CacheRuns.Inv, MemoryInv, Abs, CeilDiv, SameLayout, TableCount;
    CacheRuns.InvParts(st);
    CacheRuns.ReserveInv(st, sid, tokens);
    ReserveRefines(st, sid, tokens);
    var (st', ok) := ReserveTokens(st, sid, tokens);
    if ok {
      CacheRuns.ReserveLayout(st, sid, tokens);
      CacheRuns.InvParts(st');
      BlocksAreSized(st, sid);
      BlocksAreSized(st', sid);
    }
  }

  lemma BlocksAreSized(st: Store, sid: nat)
    requires MemoryInv(st) && sid in st.seqs
    ensures sid in Abs(st).seqs && Abs(st).seqs[sid].blocks != [] && |Abs(st).seqs[sid].blocks[0]| == BlockCount(st.seqs[sid])
  {
    CacheLifecycle.AbsShows(st, sid, "");
    TablesOkOf(st, sid);
  }

  /** A growth that succeeds maps one block more exactly when the position lies past the table, and no other. */
  lemma GrowthIs(st: Store, sid: nat, position: nat)
    requires CacheRuns.Inv(st)
    ensures ValidPool(st.pool)
    ensures var (st', ok) := EnsureCapacity(st, sid, position);
            ok ==>
              && sid in st.seqs && sid in st'.seqs && TokensPerBlock(st.pool) > 0
              && var had, at := BlockCount(st.seqs[sid]), position / TokensPerBlock(st.pool);
                 if at < had then st' == st
                 else BlockCount(st'.seqs[sid]) == had + 1 && (at == had ==> at < BlockCount(st'.seqs[sid]))
  {
    hide CacheRuns.Inv, ReserveTokens, BlockCount, ValidPool, CeilDiv, TokensPerBlock;
    CacheRuns.InvParts(st);
    if sid in st.seqs {
      GrownSequence(st, sid, 1);
      if TokensPerBlock(st.pool) > 0 {
        CeilDivOfSuccessor(0, TokensPerBlock(st.pool));
      }
    }
  }

  /** Exactly when a growth succeeds: the position is mapped already, or there is a frame for every table. */
  lemma GrowthSucceedsIff(st: Store, sid: nat, position: nat)
    requires CacheRuns.Inv(st)
    ensures ValidPool(st.pool)
    ensures EnsureCapacity(st, sid, position).1 <==>
            && sid in st.seqs && TokensPerBlock(st.pool) > 0
            && (position < BlockCount(st.seqs[sid]) * TokensPerBlock(st.pool) || TableCount(st.pool) <= |st.pool.free|)
  {
    hide CacheRuns.Inv, ReserveTokens, BlockCount, ValidPool, CeilDiv, TokensPerBlock, TableCount;
    CacheRuns.InvParts(st);
    if sid in st.seqs && TokensPerBlock(st.pool) > 0 {
      GrownSequence(st, sid, 1);
      CeilDivOfSuccessor(0, TokensPerBlock(st.pool));
      BelowMultiple(position, BlockCount(st.seqs[sid]), TokensPerBlock(st.pool));
    }
  }

  lemma BelowMultiple(a: nat, n: nat, b: nat)
    requires b > 0
    ensures a / b < n <==> a < n * b
  {
    if a / b < n {
      MulMonotone(a / b + 1, n, b);
      assert (a / b + 1) * b == a / b * b + b;
    } else {
      MulMonotone(n, a / b, b);
    }
  }

  /** Main step of the no-stall result: growing towards a declared position always works. */
  lemma GrowthNeverStalls(s: Sched, i: nat, position: nat)
    requires Capacity(s) && i < |s.active| && position < s.active[i].prompt + s.active[i].maxDecode
    ensures ValidPool(s.store.pool)
    ensures var (st', ok) := EnsureCapacity(s.store, s.active[i].root, position);
            ok && Capacity(s.(store := st'))
  {
    hide Books, CacheRuns.Inv, MemoryInv, Capacity, ReserveTokens, BlockCount, ValidPool, CeilDiv, TableCount, TokensPerBlock;
    CapacityShows(s);
    CapacityBacks(s, i);
    var r, tpb := s.active[i], TokensPerBlock(s.store.pool);
    if position / tpb >= BlockCount(s.store.seqs[r.root]) {
      CeilDivOfSuccessor(position, tpb);
      CeilDivMonotone(position + 1, r.prompt + r.maxDecode, tpb);
      NextBlockFits(s, i);
      CeilDivOfSuccessor(0, tpb);
      GrownSequence(s.store, r.root, 1);
      GrowthKeepsCapacity(s, i, ReserveTokens(s.store, r.root, 1).0);
    }
  }

  lemma GrowthKeepsBacked(st: Store, st': Store, q: seq<Request>, i: nat)
    requires i < |q| && TokensPerBlock(st.pool) > 0 && AllBacked(st, q) && Owned(st, q)
    requires forall j, k :: 0 <= j < k < |q| ==> q[j].id != q[k].id
    requires q[i].root in st.seqs && q[i].root in st'.seqs && SameLayout(st.pool, st'.pool)
    requires st'.seqs == st.seqs[q[i].root := st.seqs[q[i].root].(tables := st'.seqs[q[i].root].tables)]
    requires BlockCount(st'.seqs[q[i].root]) <= DeclaredBlocks(st.pool, q[i])
    ensures TokensPerBlock(st'.pool) > 0 && AllBacked(st', q) && Owned(st', q)
  {
    hide SameLayout;
    SameShapeNumbers(st.pool, st'.pool);
    assert Backed(st, q[i]);
    forall j | 0 <= j < |q|
      ensures Backed(st', q[j])
    {
      assert Backed(st, q[j]);
    }
  }

  lemma GrowthKeepsCapacity(s: Sched, i: nat, store: Store)
    requires Capacity(s) && i < |s.active| && CacheRuns.Inv(store)
    requires var root := s.active[i].root;
             && root in s.store.seqs && root in store.seqs && SameLayout(s.store.pool, store.pool)
             && store == s.store.(pool := store.pool, seqs := s.store.seqs[root := s.store.seqs[root].(tables := store.seqs[root].tables)])
    requires TokensPerBlock(s.store.pool) > 0
    requires BlockCount(store.seqs[s.active[i].root]) <= DeclaredBlocks(s.store.pool, s.active[i])
    ensures Capacity(s.(store := store))
  {
    hide *;
    CacheRuns.InvParts(store);
    CapacityShows(s);
    CapacityParts(s);
    BooksOnStore(s, store);
    SameShapeNumbers(s.store.pool, store.pool);
    GrowthKeepsBacked(s.store, store, s.active, i);
    FramesAre(s);
    FramesAre(s.(store := store));
    CapacityFrom(s.(store := store));
  }

  // ---- Admission ---------------------------------------------------------------------------------------

  lemma NobodyOwns(st: Store, q: seq<Request>, id: nat)
    requires Owned(st, q) && id !in Ids(q)
    ensures forall sid :: sid in st.seqs ==> st.seqs[sid].request != id
  {
    IdIn(q, id);
  }

  lemma HeadOf<T>(xs: seq<T>)
    ensures xs != [] ==> xs[0] in xs
  {}

  lemma CapacityWaiting(s: Sched, i: nat)
    requires Capacity(s) && i < |s.pending|
    ensures s.pending[i].key == "" && WaitingOk(s.pending[i])
    ensures SequencesFor(s.store, s.pending[i].id) == []
  {
    hide Ids, SequencesFor;
    CapacityShows(s);
    var id := s.pending[i].id;
    UniqueQueues(s, id);
    IdIn(s.pending, id);
    CacheRuns.SequencesForLists(s.store, id);
    assert s.pending[i] in s.pending;
    NobodyOwns(s.store, s.active, id);
    HeadOf(SequencesFor(s.store, id));
  }

  lemma NeededIsDeclared(st: Store, c: Request)
    requires c.key == "" && TokensPerBlock(st.pool) > 0
    ensures LifetimeBlocksFor(st, c) == DeclaredBlocks(st.pool, c) * TableCount(st.pool)
  {}

  lemma StartedBare(st: Store, c: Request)
    requires ValidPool(st.pool) && c.key == ""
    ensures Started(st, c) == (CreateSequence(st, c.root, c.id).0, 0)
  {}

  /** With its lifetime within the pool, the reservation an admission makes cannot fail. */
  lemma PlacementFits(s: Sched, c: Request)
    requires Capacity(s) && c.key == "" && SequencesFor(s.store, c.id) == [] && c.root !in s.store.seqs
    requires s.held + LifetimeBlocksFor(s.store, c) <= TotalFrames(s)
    ensures ValidPool(s.store.pool) && TokensPerBlock(s.store.pool) > 0
    ensures var (st', ok) := Place(s.store, c);
            && ok && CacheRuns.Inv(st') && SameLayout(s.store.pool, st'.pool) && st'.prefixes == map[]
            && c.root in st'.seqs && st'.seqs == s.store.seqs[c.root := st'.seqs[c.root]]
            && st'.seqs[c.root].request == c.id && st'.seqs[c.root].key == ""
            && BlockCount(st'.seqs[c.root]) <= DeclaredBlocks(s.store.pool, c)
  {
    hide *;
    CapacityShows(s);
    MappedWithinLedger(s);
    FramesAre(s);
    NeededIsDeclared(s.store, c);
    StartedBare(s.store, c);
    PlaceCases(s.store, c);
    CacheRuns.CreateInv(s.store, c.root, c.id);
    CreatedIs(s.store, c);
    var st1 := CreateSequence(s.store, c.root, c.id).0;
    CacheRuns.InvParts(st1);
    if c.prompt > 0 {
      GrownSequence(st1, c.root, c.prompt);
      PromptWithinDeclared(s.store.pool, c);
    }
  }

  lemma PromptWithinDeclared(p: Pool, c: Request)
    requires TokensPerBlock(p) > 0
    ensures CeilDiv(c.prompt, TokensPerBlock(p)) <= DeclaredBlocks(p, c)
    ensures CeilDiv(c.prompt, TokensPerBlock(p)) * TableCount(p) <= DeclaredBlocks(p, c) * TableCount(p)
  {
    CeilDivMonotone(c.prompt, c.prompt + c.maxDecode, TokensPerBlock(p));
    MulMonotone(CeilDiv(c.prompt, TokensPerBlock(p)), DeclaredBlocks(p, c), TableCount(p));
  }

  lemma CreatedIs(st: Store, c: Request)
    requires c.root !in st.seqs
    ensures var st1 := CreateSequence(st, c.root, c.id).0;
            && c.root in st1.seqs && st1.pool == st.pool && st1.prefixes == st.prefixes && SameLayout(st.pool, st1.pool)
            && st1.seqs == st.seqs[c.root := st1.seqs[c.root]]
            && st1.seqs[c.root].request == c.id && st1.seqs[c.root].key == "" && BlockCount(st1.seqs[c.root]) == 0
  {}

  lemma AdmissionBacks(st: Store, st': Store, q: seq<Request>, c: Request, c1: Request)
    requires TokensPerBlock(st.pool) > 0 && AllBacked(st, q) && Owned(st, q) && SameLayout(st.pool, st'.pool)
    requires c.root !in st.seqs && c.root in st'.seqs && st'.seqs == st.seqs[c.root := st'.seqs[c.root]]
    requires st'.seqs[c.root].request == c.id && st'.seqs[c.root].key == ""
    requires BlockCount(st'.seqs[c.root]) <= DeclaredBlocks(st.pool, c)
    requires AdmittedAs(c, c1) && c1.lifetime == DeclaredBlocks(st.pool, c) * TableCount(st.pool)
    ensures TokensPerBlock(st'.pool) > 0 && AllBacked(st', q + [c1]) && Owned(st', q + [c1])
  {
    hide SameLayout;
    SameShapeNumbers(st.pool, st'.pool);
    var q' := q + [c1];
    forall i | 0 <= i < |q'|
      ensures Backed(st', q'[i])
    {
      if i < |q| {
        assert Backed(st, q[i]);
      }
    }
    forall sid | sid in st'.seqs
      ensures exists i :: 0 <= i < |q'| && q'[i].root == sid && q'[i].id == st'.seqs[sid].request
    {
      if sid == c.root {
        assert q'[|q|] == c1;
      } else {
        var i :| 0 <= i < |q| && q[i].root == sid && q[i].id == st.seqs[sid].request;
        assert q'[i] == q[i];
      }
    }
  }

  lemma AdmittedState(s: Sched, store: Store, i: nat, c1: Request)
    requires Capacity(s) && i < |s.pending| && CacheRuns.Inv(store) && store.prefixes == map[]
    requires SameLayout(s.store.pool, store.pool) && TokensPerBlock(s.store.pool) > 0
    requires AdmittedAs(s.pending[i], c1) && c1.lifetime == DeclaredBlocks(s.store.pool, s.pending[i]) * TableCount(s.store.pool)
    requires s.held + c1.lifetime <= TotalFrames(s)
    requires var c := s.pending[i];
             && c.root !in s.store.seqs && c.root in store.seqs && store.seqs == s.store.seqs[c.root := store.seqs[c.root]]
             && store.seqs[c.root].request == c.id && store.seqs[c.root].key == ""
             && BlockCount(store.seqs[c.root]) <= DeclaredBlocks(s.store.pool, c)
    ensures Capacity(MoveToActive(s.(store := store, held := s.held + c1.lifetime), i, c1))
  {
    hide *;
    CacheRuns.InvParts(store);
    CapacityShows(s);
    CapacityParts(s);
    CapacityWaiting(s, i);
    BooksOnStore(s, store);
    var s1 := s.(store := store, held := s.held + c1.lifetime);
    assert s1.(held := s1.held - c1.lifetime) == s.(store := store);
    MoveKeepsBooks(s1, i, c1);
    AdmissionBacks(s.store, store, s.active, s.pending[i], c1);
    SameShapeNumbers(s.store.pool, store.pool);
    FramesAre(s);
    var s2 := MoveToActive(s1, i, c1);
    FramesAre(s2);
    MoveIs(s1, i, c1);
    CapacityFrom(s2);
  }

  lemma MoveIs(s: Sched, i: nat, c: Request)
    requires i < |s.pending|
    ensures var s' := MoveToActive(s, i, c);
            && s'.active == s.active + [c] && s'.store == s.store && s'.held == s.held && s'.cfg == s.cfg
            && s'.preempted == s.preempted && s'.info == s.info
            && ((forall r :: r in s.pending ==> r.key == "") ==> forall r :: r in s'.pending ==> r.key == "")
  {
    if forall r :: r in s.pending ==> r.key == "" {
      var s' := MoveToActive(s, i, c);
      forall r | r in s'.pending
        ensures r.key == ""
      {
        if r in BumpSkips(s.pending[..i]) {
          var k :| 0 <= k < i && BumpSkips(s.pending[..i])[k] == r;
          assert s.pending[k] in s.pending;
        }
      }
    }
  }

  /** Admission never stalls: it succeeds exactly when the budget, the ledger and the root id allow. */
  lemma AdmissionIsExact(s: Sched, i: nat, plan: Plan, admitted: nat)
    requires Capacity(s) && i < |s.pending|
    ensures ValidPool(s.store.pool)
    ensures var c := s.pending[i];
            var (s1, plan1, r) := TryAdmit(s, c, plan, admitted);
            && (r.Some? <==> plan.scheduled < s.cfg.maxBatch
                             && s.held + LifetimeBlocksFor(s.store, c) <= TotalFrames(s) && c.root !in s.store.seqs)
            && if r.None? then s1 == s else Capacity(MoveToActive(s1, i, r.value))
  {
    hide *;
    CapacityShows(s);
    CapacityWaiting(s, i);
    var c := s.pending[i];
    NeededIsDeclared(s.store, c);
    RefusalLeavesNoTrace(s, c, plan, admitted);
    AttemptOutcome(s, c, plan, admitted);
    PlaceCases(s.store, c);
    if s.held + LifetimeBlocksFor(s.store, c) <= TotalFrames(s) && c.root !in s.store.seqs {
      PlacementFits(s, c);
      var (s1, plan1, r) := TryAdmit(s, c, plan, admitted);
      if r.Some? {
        AdmittedIs(c, LifetimeBlocksFor(s.store, c));
        AdmittedState(s, Place(s.store, c).0, i, r.value);
      }
    }
  }

  lemma AttemptOutcome(s: Sched, c: Request, plan: Plan, admitted: nat)
    requires ValidPool(s.store.pool) && s.cfg.watermark == 0
    ensures var needed := LifetimeBlocksFor(s.store, c);
            var (s1, plan1, r) := TryAdmit(s, c, plan, admitted);
            && (r.Some? <==> plan.scheduled < s.cfg.maxBatch && s.held + needed <= TotalFrames(s) && Place(s.store, c).1)
            && (r.Some? ==>
                  && r.value == c.(lifetime := needed, state := Prefill, remaining := if c.remaining == 0 then c.prompt else c.remaining)
                  && s1 == s.(store := Place(s.store, c).0, held := s.held + r.value.lifetime))
  {
    hide Place, LifetimeBlocksFor, PrefillChunk, ValidPool;
  }
}
