/** Prefix counts: what a published prefix saves a request, on its tables and on the ledger. */
module PrefixCounts {
  import opened Arithmetic
  import opened FramePool
  import opened CacheStore
  import opened CacheAccounting
  import opened CacheRefinement
  import opened CachePrefixes
  import opened CacheSharing
  import opened SchedulerModel
  import opened SchedulerCache
  import opened SchedulerCapacity
  import CacheLifecycle
  import CacheRuns

  /** A key answers with the extent of its record when it has exactly one, and with nothing otherwise. */
  lemma CountsOneRecord(st: Store, key: string)
    requires PrefixInv(st)
    ensures PrefixTokenCount(st, key) == 0 <==> key !in st.prefixes || |st.prefixes[key]| != 1
    ensures key in st.prefixes && |st.prefixes[key]| == 1 ==> PrefixTokenCount(st, key) == st.prefixes[key][0].tokens
  {
    if key in st.prefixes && |st.prefixes[key]| == 1 {
      assert RecordsOk(st.pool, st.seqs, key, st.prefixes[key]);
      RecordHasTokens(st.pool, st.prefixes[key][0]);
    }
  }

  lemma RecordHasTokens(p: Pool, r: PrefixRecord)
    requires RecordOk(p, r)
    ensures r.tokens > 0 && TokensPerBlock(p) > 0
  {
    DivExact(|r.ids|, TableCount(p));
    MulMonotone(1, |r.ids| / TableCount(p), TokensPerBlock(p));
  }

  /**
    An attachment that succeeds maps, in every table, just the blocks of as many tokens as the key
    answered with before the call, and reports that number.
   */
  lemma AttachTakesTheCount(st: Store, sid: nat, key: string)
    requires CacheRuns.Inv(st)
    ensures ValidPool(st.pool)
    ensures var (st', tokens) := AttachPrefix(st, sid, key);
            && (tokens > 0 <==> CanAttach(st, sid, key))
            && (tokens > 0 ==>
                  && tokens == PrefixTokenCount(st, key) && sid in st'.seqs && |st'.seqs[sid].tables| == TableCount(st.pool)
                  && st'.pool.free == st.pool.free && st'.seqs.Keys == st.seqs.Keys
                  && forall l :: 0 <= l < |st'.seqs[sid].tables| ==> |st'.seqs[sid].tables[l]| * TokensPerBlock(st.pool) == tokens)
  {
    hide *;
    CacheRuns.InvParts(st);
    AttachRefines(st, sid, key);
    if CanAttach(st, sid, key) {
      var s', q := AttachFacts(st, sid, key);
      CountsOneRecord(st, key);
      AttachTakesNoFrame(st, sid, key);
      AttachedKeys(st.seqs, sid, s');
    }
  }

  lemma AttachedKeys(seqs: map<nat, Sequence>, sid: nat, s': Sequence)
    requires sid in seqs
    ensures seqs[sid := s'].Keys == seqs.Keys
  {}

  lemma {:induction false} RetainKeepsFree(p: Pool, rs: seq<Res>)
    requires ValidPool(p)
    ensures RetainAll(p, rs).free == p.free
    decreases |rs|
  {
    hide ValidPool;
    if rs != [] {
      RetainKeepsFree(if rs[0].OnFrame? then Retain(p, rs[0].frame) else p, rs[1..]);
    }
  }

  lemma AttachTakesNoFrame(st: Store, sid: nat, key: string)
    requires MemoryInv(st) && PrefixInv(st) && CanAttach(st, sid, key)
    ensures ValidPool(st.pool) && AttachPrefix(st, sid, key).0.pool.free == st.pool.free
  {
    hide *;
    AttachShape(st, sid, key);
    CanAttachShows(st, sid, key);
    AttachUnfolds(st, sid, key);
    RetainKeepsFree(st.pool, Frames(st.prefixes[key][0].ids));
  }

  /** After the first publication under a key, the key answers with the extent of the publisher's tables. */
  lemma FirstPublicationCounts(st: Store, sid: nat, key: string, hash: ContentHash)
    requires CacheRuns.Inv(st) && key !in st.prefixes && sid in st.seqs && st.seqs[sid].key != key
    ensures ValidPool(st.pool)
    ensures var (st', ok) := PublishPrefix(st, sid, key, hash);
            ok ==> st.seqs[sid].tables != [] && PrefixTokenCount(st', key) == |st.seqs[sid].tables[0]| * TokensPerBlock(st.pool)
  {
    CacheRuns.InvParts(st);
    CacheLifecycle.PublishIs(st, sid, key, hash);
    CacheLifecycle.FirstTable(st, sid);
    hide CacheRuns.Inv, MemoryInv, PublishPrefix, ValidPool, RetainAll, FlatPhysicals, Flat, TokensPerBlock;
  }

  // ---- The discount ----------------------------------------------------------------------------------------

  /** How many blocks per table of a request a published prefix provides. */
  function SharedBlocks(st: Store, c: Request): nat {
    if TokensPerBlock(st.pool) == 0 then 0 else UsablePrefix(st, c) / TokensPerBlock(st.pool)
  }

  /** A usable prefix is the key's count, when the prompt is at least as long, and always whole blocks. */
  lemma UsableIsWhole(st: Store, c: Request)
    requires CacheRuns.Inv(st)
    ensures UsablePrefix(st, c) == if PrefixTokenCount(st, c.key) <= c.prompt then PrefixTokenCount(st, c.key) else 0
    ensures UsablePrefix(st, c) == SharedBlocks(st, c) * TokensPerBlock(st.pool)
  {
    CacheRuns.InvParts(st);
    CountsOneRecord(st, c.key);
    var n := UsablePrefix(st, c);
    if n > 0 {
      var r := st.prefixes[c.key][0];
      assert RecordsOk(st.pool, st.seqs, c.key, st.prefixes[c.key]) && RecordOk(st.pool, r);
      RecordHasTokens(st.pool, r);
      DivOfMultiple(|r.ids| / TableCount(st.pool), TokensPerBlock(st.pool));
    }
  }

  lemma CeilDivLess(a: nat, b: nat, k: nat)
    requires k > 0 && b * k <= a
    ensures CeilDiv(a - b * k, k) == CeilDiv(a, k) - b
  {
    var n := CeilDiv(a, k);
    CeilDivIsLeastCover(a, k, n);
    assert b <= n by {
      if n < b {
        MulMonotone(n + 1, b, k);
        MulAdd(n, 1, k);
      }
    }
    MulAdd(n - b, b, k);
    CeilDivIsLeastCover(a - b * k, k, n - b);
    var m := CeilDiv(a - b * k, k);
    CeilDivIsLeastCover(a - b * k, k, m);
    MulAdd(m, b, k);
    CeilDivIsLeastCover(a, k, m + b);
  }

  /**
    The ledger's discount is what the prefix provides: a request's lifetime is what its prompt and its
    decode budget take, rounded up to blocks, less the blocks per table that are shared already.
   */
  lemma LifetimeLessSharedBlocks(st: Store, c: Request)
    requires CacheRuns.Inv(st) && TokensPerBlock(st.pool) > 0
    ensures SharedBlocks(st, c) <= CeilDiv(c.prompt, TokensPerBlock(st.pool)) <= DeclaredBlocks(st.pool, c)
    ensures LifetimeBlocksFor(st, c) == (DeclaredBlocks(st.pool, c) - SharedBlocks(st, c)) * TableCount(st.pool)
    ensures LifetimeBlocksFor(st, c)
         == LifetimeBlocksFor(st, c.(key := "", prompt := c.prompt - UsablePrefix(st, c)))
  {
    hide CacheRuns.Inv, PrefixTokenCount, TokensPerBlock, TableCount, CeilDiv;
    UsableIsWhole(st, c);
    var tpb, b := TokensPerBlock(st.pool), SharedBlocks(st, c);
    CeilDivLess(c.prompt + c.maxDecode, b, tpb);
    CeilDivLess(c.prompt, b, tpb);
    CeilDivMonotone(c.prompt, c.prompt + c.maxDecode, tpb);
  }

  /**
    And the pool gives up just the rest: a placement that succeeds takes frames for the prompt less the
    shared blocks, maps the whole prompt, and leaves of the lifetime what growing to the declared length
    will take.
   */
  lemma PlacementTakesTheRest(st: Store, c: Request)
    requires CacheRuns.Inv(st) && TokensPerBlock(st.pool) > 0
    ensures ValidPool(st.pool)
    ensures var (st', ok) := Place(st, c);
            var mapped := CeilDiv(c.prompt, TokensPerBlock(st.pool));
            ok ==>
              && c.root in st'.seqs && BlockCount(st'.seqs[c.root]) == mapped
              && |st'.pool.free| == |st.pool.free| - (mapped - SharedBlocks(st, c)) * TableCount(st.pool)
              && LifetimeBlocksFor(st, c)
                 == (|st.pool.free| - |st'.pool.free|) + (DeclaredBlocks(st.pool, c) - mapped) * TableCount(st.pool)
  {
    hide *;
    CacheRuns.InvParts(st);
    PlaceCases(st, c);
    LifetimeLessSharedBlocks(st, c);
    if Place(st, c).1 {
      StartedIs(st, c);
      StartedTakes(st, c);
      var (st2, attached) := Started(st, c);
      var tpb, b := TokensPerBlock(st.pool), SharedBlocks(st, c);
      CacheRuns.InvParts(st2);
      CeilDivLess(c.prompt, b, tpb);
      RestOfPrompt(c.prompt, b, tpb);
      if c.prompt > attached {
        SameShapeNumbers(st.pool, st2.pool);
        GrownSequence(st2, c.root, c.prompt - attached);
        ReserveRefines(st2, c.root, c.prompt - attached);
      }
      Frame(DeclaredBlocks(st.pool, c), CeilDiv(c.prompt, tpb), b, TableCount(st.pool));
    }
  }

  lemma Frame(declared: nat, mapped: nat, shared: nat, tables: nat)
    requires shared <= mapped <= declared
    ensures (declared - shared) * tables == (mapped - shared) * tables + (declared - mapped) * tables
  {
    MulAdd(mapped - shared, declared - mapped, tables);
  }

  lemma RestOfPrompt(prompt: nat, b: nat, k: nat)
    requires k > 0 && b * k <= prompt
    ensures prompt == b * k ==> CeilDiv(prompt, k) == b
  {
    WholeBlocks(b, k);
  }

  /** Creating the root and attaching the prefix takes no frame and maps the shared blocks. */
  lemma StartedTakes(st: Store, c: Request)
    requires CacheRuns.Inv(st) && c.root !in st.seqs && TokensPerBlock(st.pool) > 0
    ensures ValidPool(st.pool)
    ensures var (st2, attached) := Started(st, c);
            && attached == UsablePrefix(st, c) && c.root in st2.seqs && BlockCount(st2.seqs[c.root]) == SharedBlocks(st, c)
            && |st2.pool.free| == |st.pool.free| && SameLayout(st.pool, st2.pool)
            && attached == SharedBlocks(st, c) * TokensPerBlock(st.pool)
  {
    hide *;
    CacheRuns.InvParts(st);
    StartedIs(st, c);
    CreatedHere(st, c);
    var st1 := CreateSequence(st, c.root, c.id).0;
    CacheRuns.InvParts(st1);
    UsableIsWhole(st, c);
    CountAfterCreate(st, c);
    CountsOneRecord(st1, c.key);
    StartedByCount(st, c);
    AttachTakesTheCount(st1, c.root, c.key);
    AttachRefines(st1, c.root, c.key);
    FreshCanAttach(st1, c.root, c.key);
    var (st2, attached) := Started(st, c);
    if attached > 0 {
      TablesNonEmpty(st1.pool);
      BlocksByTokens(st2.seqs[c.root], SharedBlocks(st, c), TokensPerBlock(st.pool));
    }
  }

  lemma CreatedHere(st: Store, c: Request)
    requires c.root !in st.seqs
    ensures var st1 := CreateSequence(st, c.root, c.id).0;
            && st1.pool == st.pool && c.root in st1.seqs && BlockCount(st1.seqs[c.root]) == 0 && SameLayout(st.pool, st1.pool)
            && st1.seqs[c.root].tables != [] && st1.seqs[c.root].tables[0] == [] && st1.prefixes == st.prefixes
  {}

  lemma CountAfterCreate(st: Store, c: Request)
    ensures PrefixTokenCount(CreateSequence(st, c.root, c.id).0, c.key) == PrefixTokenCount(st, c.key)
  {}

  lemma StartedByCount(st: Store, c: Request)
    requires ValidPool(st.pool)
    ensures var st1 := CreateSequence(st, c.root, c.id).0;
            && ValidPool(st1.pool)
            && Started(st, c) == if 0 < PrefixTokenCount(st1, c.key) <= c.prompt then AttachPrefix(st1, c.root, c.key) else (st1, 0)
  {
    hide AttachPrefix, ValidPool;
  }

  lemma FreshCanAttach(st: Store, sid: nat, key: string)
    requires PrefixInv(st) && sid in st.seqs && st.seqs[sid].tables != [] && st.seqs[sid].tables[0] == []
    ensures key in st.prefixes && |st.prefixes[key]| == 1 ==> CanAttach(st, sid, key)
  {}

  lemma TablesNonEmpty(p: Pool)
    ensures TableCount(p) > 0
  {}

  lemma BlocksByTokens(s: Sequence, b: nat, tpb: nat)
    requires tpb > 0 && s.tables != [] && |s.tables[0]| * tpb == b * tpb
    ensures BlockCount(s) == b
  {
    DivOfMultiple(|s.tables[0]|, tpb);
    DivOfMultiple(b, tpb);
  }
}
