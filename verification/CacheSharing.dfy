/** Publishing and attaching prefixes: pinned frames, user counts and what an attach reads. */
module CacheSharing {
  import opened Arithmetic
  import opened SwapStore
  import opened FramePool
  import opened PageTable
  import opened CacheStore
  import opened CacheAccounting
  import opened PrivateStore
  import opened CacheRefinement
  import opened CacheLifecycle
  import opened CachePrefixes

  // ---- Publish -----------------------------------------------------------------------------------

  lemma {:induction false} FlatPhysicalsLength(tables: seq<Table>, n: nat)
    requires forall l :: 0 <= l < |tables| ==> |tables[l]| == n
    ensures |FlatPhysicals(tables)| == n * |tables|
  {
    if tables != [] {
      FlatPhysicalsLength(tables[1..], n);
      assert n * |tables| == n + n * |tables[1..]|;
    }
  }

  lemma NewRecordOk(p: Pool, tables: seq<Table>, hash: nat)
    requires TablesOk(p, tables) && tables[0] != [] && AllResident(tables)
    ensures RecordOk(p, PrefixRecord(hash, |tables[0]| * TokensPerBlock(p), 1, FlatPhysicals(tables)))
  {
    var n, k := |tables[0]|, |tables|;
    assert TableOk(p, tables[0]);
    FlatPhysicalsLength(tables, n);
    ResidentReferences(tables);
    DivOfMultiple(n, k);
    MulMonotone(1, n, k);
  }

  lemma JoinKeepsRecords(st: Store, sid: nat, key: string, i: nat)
    requires PrefixInv(st) && sid in st.seqs && st.seqs[sid].key == "" && key != ""
    requires key in st.prefixes && i < |st.prefixes[key]|
    requires st.seqs[sid].tables != [] && st.seqs[sid].tables[0] != []
    ensures var rs := st.prefixes[key];
            var s := st.seqs[sid].(key := key, hash := rs[i].hash);
            var rs' := rs[i := rs[i].(users := rs[i].users + 1)];
            PrefixInv(st.(seqs := st.seqs[sid := s], prefixes := st.prefixes[key := rs']))
  {
    var rs := st.prefixes[key];
    var s := st.seqs[sid].(key := key, hash := rs[i].hash);
    JoinedUse(st, st.pool, sid, s, key, i);
  }

  /** One more sequence under a live record, whatever its tables have become. */
  lemma JoinedUse(st: Store, q: Pool, sid: nat, s: Sequence, key: string, i: nat)
    requires PrefixInv(st) && sid in st.seqs && st.seqs[sid].key == "" && key != "" && SameLayout(st.pool, q)
    requires key in st.prefixes && i < |st.prefixes[key]|
    requires s.key == key && s.hash == st.prefixes[key][i].hash && s.tables != [] && s.tables[0] != []
    ensures var rs := st.prefixes[key];
            var rs' := rs[i := rs[i].(users := rs[i].users + 1)];
            PrefixInv(st.(pool := q, seqs := st.seqs[sid := s], prefixes := st.prefixes[key := rs']))
  {
    hide NoRepeats;
    var rs := st.prefixes[key];
    var rs' := rs[i := rs[i].(users := rs[i].users + 1)];
    assert RecordsOk(st.pool, st.seqs, key, rs);
    HoldersAfterRekey(st.seqs, sid, s, key, rs[i].hash);
    RecordsKept(st.pool, q, rs);
    RecordsKept(st.pool, q, rs');
    forall j | 0 <= j < |rs'|
      ensures RecordOk(q, rs'[j]) && Counted(st.seqs[sid := s], key, rs'[j])
    {
      if j != i {
        assert rs[j].hash != rs[i].hash;
        CountedElsewhere(st.seqs, sid, s, key, rs[j]);
      }
    }
    FoundInUpdated(rs, i);
    forall other | other in st.seqs && other != sid && st.seqs[other].key == key
      ensures FindRecord(rs', st.seqs[other].hash).Some?
    {
      assert KeyOk(st.prefixes, st.seqs[other]);
    }
    hide RecordsOk, FindRecord, Holders, PrefixInv;
    PrefixInvAssembled(st, q, sid, s, key, st.prefixes[key := rs']);
  }

  lemma FoundInUpdated(rs: seq<PrefixRecord>, i: nat)
    requires i < |rs|
    ensures var rs' := rs[i := rs[i].(users := rs[i].users + 1)];
            && FindRecord(rs', rs[i].hash).Some?
            && forall h :: FindRecord(rs, h).Some? ==> FindRecord(rs', h).Some?
  {
    var rs' := rs[i := rs[i].(users := rs[i].users + 1)];
    FindRecordIff(rs', rs[i].hash, i);
    forall h | FindRecord(rs, h).Some?
      ensures FindRecord(rs', h).Some?
    {
      FindRecordIff(rs', h, FindRecord(rs, h).value);
    }
  }

  lemma StartKeepsRecords(st: Store, q: Pool, sid: nat, key: string, record: PrefixRecord)
    requires PrefixInv(st) && sid in st.seqs && st.seqs[sid].key == "" && key != "" && SameLayout(st.pool, q)
    requires st.seqs[sid].tables != [] && st.seqs[sid].tables[0] != []
    requires record.users == 1 && RecordOk(q, record)
    requires FindRecord(RecordsOf(st, key), record.hash).None?
    ensures var s := st.seqs[sid].(key := key, hash := record.hash);
            PrefixInv(st.(pool := q, seqs := st.seqs[sid := s], prefixes := st.prefixes[key := RecordsOf(st, key) + [record]]))
  {
    var s := st.seqs[sid].(key := key, hash := record.hash);
    var rs := RecordsOf(st, key);
    var rs' := rs + [record];
    assert key in st.prefixes ==> RecordsOk(st.pool, st.seqs, key, rs);
    forall other | other in st.seqs && st.seqs[other].key == key
      ensures FindRecord(rs, st.seqs[other].hash).Some?
    {
      assert KeyOk(st.prefixes, st.seqs[other]);
    }
    assert Holders(st.seqs, key, record.hash) == {};
    HoldersAfterRekey(st.seqs, sid, s, key, record.hash);
    forall j | 0 <= j < |rs'|
      ensures RecordOk(q, rs'[j]) && Counted(st.seqs[sid := s], key, rs'[j])
    {
      if j < |rs| {
        CountedElsewhere(st.seqs, sid, s, key, rs[j]);
      }
    }
    FoundInLonger(rs, record);
    hide RecordsOk, FindRecord, Holders, PrefixInv;
    PrefixInvAssembled(st, q, sid, s, key, st.prefixes[key := rs']);
  }

  lemma FoundInLonger(rs: seq<PrefixRecord>, record: PrefixRecord)
    ensures FindRecord(rs + [record], record.hash).Some?
    ensures forall h :: FindRecord(rs, h).Some? ==> FindRecord(rs + [record], h).Some?
  {
    FindRecordIff(rs + [record], record.hash, |rs|);
    forall h | FindRecord(rs, h).Some?
      ensures FindRecord(rs + [record], h).Some?
    {
      FindRecordIff(rs + [record], h, FindRecord(rs, h).value);
    }
  }

  lemma PublishKeepsPrefixes(st: Store, sid: nat, key: string, hash: ContentHash)
    requires MemoryInv(st) && PrefixInv(st)
    requires sid in st.seqs ==> st.seqs[sid].key == "" || st.seqs[sid].key == key
    ensures PrefixInv(PublishPrefix(st, sid, key, hash).0)
  {
    PublishIs(st, sid, key, hash);
    if PublishPrefix(st, sid, key, hash).1 && st.seqs[sid].key != key {
      PublishKeepsNew(st, sid, key, hash);
    }
  }

  lemma PublishKeepsNew(st: Store, sid: nat, key: string, hash: ContentHash)
    requires MemoryInv(st) && PrefixInv(st) && sid in st.seqs && st.seqs[sid].key == "" && key != ""
    requires st.seqs[sid].tables != [] && st.seqs[sid].tables[0] != [] && AllResident(st.seqs[sid].tables)
    ensures PrefixInv(PublishPrefix(st, sid, key, hash).0)
  {
    hide *;
    PoolIsValid(st);
    PublishIs(st, sid, key, hash);
    var s, rs := st.seqs[sid], RecordsOf(st, key);
    var h := hash(Blocks(st.pool, s.tables));
    TablesOkOf(st, sid);
    var i := FindRecord(rs, h);
    if i.Some? {
      FoundIsPublished(st, key, h);
      JoinKeepsRecords(st, sid, key, i.value);
    } else {
      PublishRefines(st, sid, key, hash);
      var q := PublishPrefix(st, sid, key, hash).0.pool;
      var record := PrefixRecord(h, |s.tables[0]| * TokensPerBlock(st.pool), 1, FlatPhysicals(s.tables));
      NewRecordOk(st.pool, s.tables, h);
      RecordOkOnSameLayout(st.pool, q, record);
      StartKeepsRecords(st, q, sid, key, record);
    }
  }

  lemma RecordOkOnSameLayout(p: Pool, q: Pool, r: PrefixRecord)
    requires RecordOk(p, r) && SameLayout(p, q)
    ensures RecordOk(q, r)
  {}

  /**
    Re-publishing a sequence under a second key forgets the first one without giving its use
    back: the old record then counts a user that no longer exists, so its frames stay pinned.
   */
  lemma SecondKeyBreaksUserCount(st: Store, sid: nat, key: string, hash: ContentHash)
    requires MemoryInv(st) && PrefixInv(st) && sid in st.seqs
    requires st.seqs[sid].key != "" && st.seqs[sid].key != key
    requires PublishPrefix(st, sid, key, hash).1
    ensures !PrefixInv(PublishPrefix(st, sid, key, hash).0)
  {
    PublishIs(st, sid, key, hash);
    var st' := PublishPrefix(st, sid, key, hash).0;
    var oldKey, h := st.seqs[sid].key, st.seqs[sid].hash;
    assert KeyOk(st.prefixes, st.seqs[sid]);
    var rs := st.prefixes[oldKey];
    assert RecordsOk(st.pool, st.seqs, oldKey, rs);
    var i := FindRecord(rs, h).value;
    assert Counted(st.seqs, oldKey, rs[i]);
    assert st'.prefixes[oldKey] == rs;
    HoldersAfterRekey(st.seqs, sid, st'.seqs[sid], oldKey, h);
    assert sid in Holders(st.seqs, oldKey, h);
    assert !Counted(st'.seqs, oldKey, rs[i]);
    assert !RecordsOk(st'.pool, st'.seqs, oldKey, rs);
  }

  /** A publish under this key is refused, finds the key already held, or gives a keyless sequence its first. */
  predicate NoSecondKey(st: Store, sid: nat, key: string) {
    || key == "" || sid !in st.seqs || st.seqs[sid].tables == [] || st.seqs[sid].tables[0] == []
    || st.seqs[sid].key == "" || st.seqs[sid].key == key || !AllResident(st.seqs[sid].tables)
  }

  /** Exactly when a publish keeps every user count. */
  lemma PublishKeepsPrefixesIff(st: Store, sid: nat, key: string, hash: ContentHash)
    requires MemoryInv(st) && PrefixInv(st)
    ensures PrefixInv(PublishPrefix(st, sid, key, hash).0) <==> NoSecondKey(st, sid, key)
  {
    PublishIs(st, sid, key, hash);
    if sid !in st.seqs || st.seqs[sid].key == "" || st.seqs[sid].key == key {
      PublishKeepsPrefixes(st, sid, key, hash);
    } else if PublishPrefix(st, sid, key, hash).1 {
      SecondKeyBreaksUserCount(st, sid, key, hash);
    }
  }

  // ---- Attach --------------------------------------------------------------------------------------

  lemma {:induction false} AttachTablesFlat(ids: seq<nat>, sid: nat, tpb: nat, n: nat, k: nat)
    requires |ids| == n * k
    ensures Flat(AttachTables(ids, sid, tpb, n, k)) == Frames(ids)
    decreases k
  {
    if k == 0 {
      assert n * k == 0;
    } else {
      assert n * k == n + n * (k - 1);
      AttachTablesFlat(ids[n..], sid, tpb, n, k - 1);
      assert Wheres(AttachTable(ids[..n], sid, tpb)) == Frames(ids[..n]);
      assert Frames(ids) == Frames(ids[..n]) + Frames(ids[n..]);
    }
  }

  ghost predicate AttachedTable(t: Table, n: nat, tpb: nat) {
    |t| == n && Dense(t) && forall i :: 0 <= i < n ==> t[i].logical.count == tpb
  }

  lemma {:induction false} AttachTablesShape(ids: seq<nat>, sid: nat, tpb: nat, n: nat, k: nat)
    requires |ids| == n * k
    ensures var tables := AttachTables(ids, sid, tpb, n, k);
            |tables| == k && forall l :: 0 <= l < k ==> AttachedTable(tables[l], n, tpb)
    decreases k
  {
    if k > 0 {
      assert n * k == n + n * (k - 1);
      AttachTablesShape(ids[n..], sid, tpb, n, k - 1);
      assert AttachedTable(AttachTable(ids[..n], sid, tpb), n, tpb);
    }
  }

  lemma {:induction false} AttachTablesRead(p: Pool, ids: seq<nat>, sid: nat, tpb: nat, n: nat, k: nat)
    requires |ids| == n * k
    ensures Concat(Blocks(p, AttachTables(ids, sid, tpb, n, k))) == FrameBytes(p, ids)
    decreases k
  {
    if k == 0 {
      assert n * k == 0;
    } else {
      assert n * k == n + n * (k - 1);
      AttachTablesRead(p, ids[n..], sid, tpb, n, k - 1);
      var tables := AttachTables(ids, sid, tpb, n, k);
      assert Blocks(p, tables)[1..] == Blocks(p, tables[1..]);
      assert TableBlocks(p, AttachTable(ids[..n], sid, tpb)) == FrameBytes(p, ids[..n]);
      assert FrameBytes(p, ids) == FrameBytes(p, ids[..n]) + FrameBytes(p, ids[n..]);
    }
  }

  ghost predicate CanAttach(st: Store, sid: nat, key: string) {
    && key != "" && sid in st.seqs && st.seqs[sid].tables != [] && st.seqs[sid].tables[0] == []
    && key in st.prefixes && |st.prefixes[key]| == 1
  }

  /** The record deals out evenly over the tables of the empty, keyless sequence. */
  lemma AttachShape(st: Store, sid: nat, key: string)
    requires MemoryInv(st) && PrefixInv(st)
    ensures ValidPool(st.pool) && (sid in st.seqs ==> st.seqs[sid].tables != [])
    ensures CanAttach(st, sid, key) ==>
              var s, record := st.seqs[sid], st.prefixes[key][0];
              && |s.tables| == TableCount(st.pool) && RecordOk(st.pool, record)
              && HeldBy(s.tables) == multiset{} && s.key == ""
  {
    if sid in st.seqs {
      TablesOkOf(st, sid);
    }
    if CanAttach(st, sid, key) {
      var s := st.seqs[sid];
      assert RecordsOk(st.pool, st.seqs, key, st.prefixes[key]);
      FlatOfEmpty(s.tables);
      assert KeyOk(st.prefixes, s);
    }
  }

  /** Refused, or the record's frames pinned once more and dealt out to the tables. */
  lemma AttachUnfolds(st: Store, sid: nat, key: string)
    requires ValidPool(st.pool) && (sid in st.seqs ==> st.seqs[sid].tables != [])
    requires CanAttach(st, sid, key) ==> |st.seqs[sid].tables| == TableCount(st.pool) && RecordOk(st.pool, st.prefixes[key][0])
    ensures !CanAttach(st, sid, key) ==> AttachPrefix(st, sid, key) == (st, 0)
    ensures CanAttach(st, sid, key) ==>
              var s, record, k := st.seqs[sid], st.prefixes[key][0], |st.seqs[sid].tables|;
              && k > 0 && |record.ids| == |record.ids| / k * k
              && AttachPrefix(st, sid, key) ==
                 (st.(pool := RetainAll(st.pool, Frames(record.ids)),
                      seqs := st.seqs[sid := s.(tables := AttachTables(record.ids, sid, TokensPerBlock(st.pool), |record.ids| / k, k),
                                                key := key, hash := record.hash)],
                      prefixes := st.prefixes[key := [record.(users := record.users + 1)]]),
                  record.tokens)
  {
    hide ValidPool, RetainAll, Frames, AttachTables;
    if CanAttach(st, sid, key) {
      DivExact(|st.prefixes[key][0].ids|, |st.seqs[sid].tables|);
    }
  }

  lemma {:induction false} FlatOfEmpty(tables: seq<Table>)
    requires forall l :: 0 <= l < |tables| ==> tables[l] == []
    ensures Flat(tables) == []
  {
    if tables != [] {
      FlatOfEmpty(tables[1..]);
      assert Wheres(tables[0]) == [];
    }
  }

  lemma AttachedTablesOk(p: Pool, q: Pool, record: PrefixRecord, sid: nat)
    requires RecordOk(p, record) && SameLayout(p, q)
    requires |record.ids| == |record.ids| / TableCount(p) * TableCount(p)
    ensures var k := TableCount(p);
            var tables := AttachTables(record.ids, sid, TokensPerBlock(p), |record.ids| / k, k);
            TablesOk(q, tables) && HeldBy(tables) == multiset(Frames(record.ids)) && tables[0] != []
  {
    var k, tpb := TableCount(p), TokensPerBlock(p);
    var n := |record.ids| / k;
    var tables := AttachTables(record.ids, sid, tpb, n, k);
    AttachTablesFlat(record.ids, sid, tpb, n, k);
    AttachTablesShape(record.ids, sid, tpb, n, k);
    DivExact(|record.ids|, k);
    assert forall l :: 0 <= l < |tables| ==> TableOk(q, tables[l]);
  }

  /** Everything about a successful attach: the new mapping, the new pool, and the one more user. */
  lemma AttachFacts(st: Store, sid: nat, key: string) returns (s': Sequence, q: Pool)
    requires MemoryInv(st) && PrefixInv(st) && CanAttach(st, sid, key)
    ensures sid in st.seqs && st.seqs[sid].key == "" && key != "" && key in st.prefixes && |st.prefixes[key]| == 1
    ensures var rs := st.prefixes[key];
            && s' == st.seqs[sid].(tables := s'.tables, key := key, hash := rs[0].hash)
            && AttachPrefix(st, sid, key) ==
               (st.(pool := q, seqs := st.seqs[sid := s'],
                    prefixes := st.prefixes[key := rs[0 := rs[0].(users := rs[0].users + 1)]]), rs[0].tokens)
            && Concat(Blocks(q, s'.tables)) == FrameBytes(st.pool, rs[0].ids)
            && |s'.tables| == TableCount(st.pool) && s'.tables != [] && s'.tables[0] != []
            && (forall l :: 0 <= l < |s'.tables| ==> |s'.tables[l]| * TokensPerBlock(st.pool) == rs[0].tokens)
            && rs[0].tokens > 0
    ensures Accounted(q, Rest(st, sid) + HeldBy(s'.tables)) && TablesOk(q, s'.tables) && SameLayout(st.pool, q)
    ensures forall r :: Content(q, r) == Content(st.pool, r)
  {
    hide *;
    PoolIsValid(st);
    AttachShape(st, sid, key);
    AttachUnfolds(st, sid, key);
    AttachPins(st, sid, key);
    CanAttachShows(st, sid, key);
    var record := st.prefixes[key][0];
    var k, tpb := TableCount(st.pool), TokensPerBlock(st.pool);
    var n := |record.ids| / k;
    assert st.prefixes[key][0 := record.(users := record.users + 1)] == [record.(users := record.users + 1)];
    q := RetainAll(st.pool, Frames(record.ids));
    s' := st.seqs[sid].(tables := AttachTables(record.ids, sid, tpb, n, k), key := key, hash := record.hash);
    AttachedTablesOk(st.pool, q, record, sid);
    AttachTokens(st.pool, record);
    AttachedReading(st.pool, q, record, sid);
  }

  lemma CanAttachShows(st: Store, sid: nat, key: string)
    requires CanAttach(st, sid, key)
    ensures key != "" && sid in st.seqs && key in st.prefixes && |st.prefixes[key]| == 1
  {}

  lemma AttachedReading(p: Pool, q: Pool, record: PrefixRecord, sid: nat)
    requires RecordOk(p, record) && forall r :: Content(q, r) == Content(p, r)
    requires |record.ids| == |record.ids| / TableCount(p) * TableCount(p)
    ensures var tables := AttachTables(record.ids, sid, TokensPerBlock(p), |record.ids| / TableCount(p), TableCount(p));
            && Concat(Blocks(q, tables)) == FrameBytes(p, record.ids)
            && |tables| == TableCount(p)
            && forall l :: 0 <= l < |tables| ==> |tables[l]| * TokensPerBlock(p) == record.tokens
  {
    var k, tpb := TableCount(p), TokensPerBlock(p);
    var n := |record.ids| / k;
    AttachTablesShape(record.ids, sid, tpb, n, k);
    AttachTablesRead(q, record.ids, sid, tpb, n, k);
    assert FrameBytes(q, record.ids) == FrameBytes(p, record.ids);
    var tables := AttachTables(record.ids, sid, tpb, n, k);
    forall l | 0 <= l < |tables|
      ensures |tables[l]| * tpb == record.tokens
    {
      assert AttachedTable(tables[l], n, tpb);
    }
  }

  lemma AttachTokens(p: Pool, record: PrefixRecord)
    requires RecordOk(p, record)
    ensures record.tokens > 0
  {
    var k := TableCount(p);
    var n := |record.ids| / k;
    DivExact(|record.ids|, k);
    MulMonotone(1, n, TokensPerBlock(p));
  }

  lemma PinnedFrames(st: Store, key: string)
    requires key in st.prefixes && st.prefixes[key] != []
    ensures PinsAt(st, key) == Pins(st.prefixes[key])
    ensures forall r :: r in Frames(st.prefixes[key][0].ids) ==> r.OnFrame?
  {
    hide Pins;
  }

  lemma EmptyOwn(st: Store, sid: nat)
    requires sid in st.seqs
    ensures HeldBy(st.seqs[sid].tables) == multiset{} ==> Own(st, sid) == multiset{}
  {}

  lemma AttachPins(st: Store, sid: nat, key: string)
    requires MemoryInv(st) && PrefixInv(st) && CanAttach(st, sid, key)
    ensures var q := RetainAll(st.pool, Frames(st.prefixes[key][0].ids));
            && Accounted(q, Rest(st, sid) + multiset(Frames(st.prefixes[key][0].ids)))
            && (forall r :: Content(q, r) == Content(st.pool, r)) && SameLayout(st.pool, q)
  {
    hide *;
    AttachShape(st, sid, key);
    CanAttachShows(st, sid, key);
    PoolIsValid(st);
    HeldSplitsAtKey(st, key);
    PinsHold(st.prefixes[key], 0);
    PinnedFrames(st, key);
    MemoryAccounts(st);
    RetainMoves(st.pool, Frames(st.prefixes[key][0].ids), Held(st));
    HeldSplits(st, sid);
    EmptyOwn(st, sid);
    assert Held(st) == Rest(st, sid);
  }

  lemma AttachRefines(st: Store, sid: nat, key: string)
    requires MemoryInv(st) && PrefixInv(st)
    ensures var (st', tokens) := AttachPrefix(st, sid, key);
            && MemoryInv(st') && PrefixInv(st') && SameLayout(st.pool, st'.pool)
            && (tokens > 0 <==> CanAttach(st, sid, key))
            && (if tokens > 0 then PAttaches(Abs(st), sid, key, tokens, Abs(st')) else st' == st)
  {
    AttachShape(st, sid, key);
    AttachUnfolds(st, sid, key);
    hide *;
    if CanAttach(st, sid, key) {
      var s', q := AttachFacts(st, sid, key);
      var mid := st.(pool := q, seqs := st.seqs[sid := s']);
      SameContentAll(st.pool, q, Rest(st, sid));
      MemoryInvAfterPut(st, sid, s', q);
      AbsAfterPut(st, sid, s', q);
      RecountRefines(mid, key, 0, st.prefixes[key][0].users + 1);
      JoinedUse(st, q, sid, s', key, 0);
      AttachReads(st, sid, key, s', q);
    }
  }

  lemma SameContentAll(p: Pool, q: Pool, kept: multiset<Res>)
    requires forall r :: Content(q, r) == Content(p, r)
    ensures SameContent(p, q, kept)
  {}

  lemma AttachReads(st: Store, sid: nat, key: string, s': Sequence, q: Pool)
    requires ValidPool(st.pool) && SameLayout(st.pool, q) && sid in st.seqs
    requires key in st.prefixes && |st.prefixes[key]| == 1
    requires s' == st.seqs[sid].(tables := s'.tables, key := key, hash := st.prefixes[key][0].hash)
    requires Concat(Blocks(q, s'.tables)) == FrameBytes(st.pool, st.prefixes[key][0].ids)
    requires |s'.tables| == TableCount(st.pool)
    requires forall l :: 0 <= l < |s'.tables| ==> |s'.tables[l]| * TokensPerBlock(st.pool) == st.prefixes[key][0].tokens
    requires var rs, mid := st.prefixes[key], st.(pool := q, seqs := st.seqs[sid := s']);
             && AttachPrefix(st, sid, key) ==
                (mid.(prefixes := st.prefixes[key := rs[0 := rs[0].(users := rs[0].users + 1)]]), rs[0].tokens)
             && Abs(mid) == Abs(st).(seqs := Abs(st).seqs[sid := AbsSeq(q, s')])
             && key in Abs(mid).prefixes && |Abs(mid).prefixes[key]| > 0
             && Abs(AttachPrefix(st, sid, key).0) == Abs(mid).(prefixes := Abs(mid).prefixes[
                  key := Abs(mid).prefixes[key][0 := Abs(mid).prefixes[key][0].(users := rs[0].users + 1)]])
    ensures PAttaches(Abs(st), sid, key, AttachPrefix(st, sid, key).1, Abs(AttachPrefix(st, sid, key).0))
  {
    var rs, a, a' := st.prefixes[key], Abs(st), Abs(AttachPrefix(st, sid, key).0);
    AbsShows(st, sid, key);
    var saved := AbsRecord(st.pool, rs[0]);
    assert a.prefixes[key] == [saved];
    assert a.prefixes[key][0 := saved.(users := rs[0].users + 1)] == [saved.(users := rs[0].users + 1)];
    assert a'.seqs[sid] == AbsSeq(q, s');
    assert |Blocks(q, s'.tables)| == |s'.tables|;
    assert forall l :: 0 <= l < |s'.tables| ==> |Blocks(q, s'.tables)[l]| == |s'.tables[l]|;
    hide Abs, AttachPrefix, Blocks, FrameBytes, Concat;
  }
}
