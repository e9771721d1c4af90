/** Eviction, restoration, release and prefix sharing against the private-copy store. */
module CacheLifecycle {
  import opened SwapStore
  import opened FramePool
  import opened PageTable
  import opened CacheStore
  import opened CacheAccounting
  import opened CacheTables
  import opened PrivateStore
  import opened CacheRefinement
  import opened Sums

  // ---- Swapping: bytes move, readings do not ---------------------------------------------------

  lemma SameTablesOk(p: Pool, tables: seq<Table>, q: Pool, tables': seq<Table>, others: multiset<Res>)
    requires TablesOk(p, tables) && SameLayout(p, q) && SameTables(p, tables, q, tables')
    requires Renews(HeldBy(tables), HeldBy(tables'), others)
    ensures TablesOk(q, tables')
  {
    RenewsKeepsNoRepeats(Flat(tables), Flat(tables'), others);
    forall l | 0 <= l < |tables'|
      ensures TableOk(q, tables'[l]) && |tables'[l]| == |tables'[0]|
    {
      assert TableOk(p, tables[l]) && SameTable(p, tables[l], q, tables'[l]);
      assert SameTable(p, tables[0], q, tables'[0]);
    }
  }

  lemma SwapOutRefines(st: Store, sid: nat)
    requires MemoryInv(st)
    ensures var (st', n) := SwapOutSequence(st, sid);
            && MemoryInv(st') && Abs(st') == Abs(st)
            && SameLayout(st.pool, st'.pool)
            && st'.seqs.Keys == st.seqs.Keys
            && st'.byRequest == st.byRequest && st'.prefixes == st.prefixes
            && |st'.pool.free| == |st.pool.free| + n
            && (sid in st.seqs ==> SlotCountAll(st'.seqs[sid].tables) == SlotCountAll(st.seqs[sid].tables) + n)
            && forall other :: other in st.seqs && other != sid ==> st'.seqs[other] == st.seqs[other]
  {
    hide MemoryInv, Abs, Move, TablesOk;
    if sid in st.seqs {
      var tables := st.seqs[sid].tables;
      OwnMoveStarts(st, sid);
      TablesOkOf(st, sid);
      SwapOutTablesMove(st.pool, tables, Rest(st, sid));
      var (q, tables', n) := SwapOutTables(st.pool, tables);
      SameTablesOk(st.pool, tables, q, tables', Rest(st, sid));
      SameTablesSameBlocks(st.pool, tables, q, tables');
      PutMovedUnseen(st, sid, tables', q);
    }
  }

  ghost predicate CanRestore(st: Store, sid: nat)
    requires sid in st.seqs
  {
    SlotCountAll(st.seqs[sid].tables) == 0 || SlotCountAll(st.seqs[sid].tables) <= |st.pool.free|
  }

  lemma SwapInIs(st: Store, sid: nat)
    requires ValidPool(st.pool)
    ensures var (st', ok) := SwapInSequence(st, sid);
            && (ok <==> sid in st.seqs && CanRestore(st, sid))
            && (sid in st.seqs && 0 < SlotCountAll(st.seqs[sid].tables) <= |st.pool.free| ==>
                  var (q, tables') := SwapInTables(st.pool, st.seqs[sid].tables);
                  st' == st.(pool := q, seqs := st.seqs[sid := st.seqs[sid].(tables := tables')]))
            && (!(sid in st.seqs && 0 < SlotCountAll(st.seqs[sid].tables) <= |st.pool.free|) ==> st' == st)
            && (sid in st.seqs ==> (CanRestore(st, sid) <==> SlotCountAll(st.seqs[sid].tables) <= |st.pool.free|))
  {
    hide ValidPool, SlotCountAll, SwapInTables;
  }

  lemma SwapInRefines(st: Store, sid: nat)
    requires MemoryInv(st)
    ensures var (st', ok) := SwapInSequence(st, sid);
            && MemoryInv(st') && Abs(st') == Abs(st)
            && SameLayout(st.pool, st'.pool)
            && st'.seqs.Keys == st.seqs.Keys
            && st'.byRequest == st.byRequest && st'.prefixes == st.prefixes
            && (ok <==> sid in st.seqs && CanRestore(st, sid))
            && (!ok ==> st' == st)
            && (ok ==> SlotCountAll(st'.seqs[sid].tables) == 0
                       && |st'.pool.free| == |st.pool.free| - SlotCountAll(st.seqs[sid].tables))
            && forall other :: other in st.seqs && other != sid ==> st'.seqs[other] == st.seqs[other]
  {
    hide *;
    PoolIsValid(st);
    SwapInIs(st, sid);
    if sid in st.seqs && 0 < SlotCountAll(st.seqs[sid].tables) <= |st.pool.free| {
      var tables := st.seqs[sid].tables;
      OwnMoveStarts(st, sid);
      OwnIs(st, sid);
      TablesOkOf(st, sid);
      SwapInTablesMove(st.pool, tables, Rest(st, sid));
      var (q, tables') := SwapInTables(st.pool, tables);
      MoveShows(st.pool, Own(st, sid), q, HeldBy(tables'), Rest(st, sid));
      SameTablesOk(st.pool, tables, q, tables', Rest(st, sid));
      SameTablesSameBlocks(st.pool, tables, q, tables');
      PutMovedUnseen(st, sid, tables', q);
    } else {
      LayoutItself(st.pool);
    }
  }

  // ---- Changing the prefix index ------------------------------------------------------------------

  /** What everyone but one prefix key holds. */
  ghost function RestOfKey(st: Store, key: string): multiset<Res> {
    SumMap(SequenceHolds(st.seqs)) + SumMap(PrefixHolds(st.prefixes) - {key})
  }

  ghost function PinsAt(st: Store, key: string): multiset<Res> {
    if key in st.prefixes then Pins(st.prefixes[key]) else multiset{}
  }

  lemma HeldSplitsAtKey(st: Store, key: string)
    ensures Held(st) == RestOfKey(st, key) + PinsAt(st, key)
  {
    var m := PrefixHolds(st.prefixes);
    if key in st.prefixes {
      SumMapTake(m, key);
    } else {
      assert m - {key} == m;
    }
  }

  lemma HeldAfterPutPrefix(st: Store, key: string, rs: seq<PrefixRecord>, q: Pool)
    ensures Held(st.(pool := q, prefixes := st.prefixes[key := rs])) == RestOfKey(st, key) + Pins(rs)
  {
    PrefixHoldsAfterPut(st.prefixes, key, rs);
    SumMapPut(PrefixHolds(st.prefixes), key, Pins(rs));
  }

  lemma PrefixHoldsAfterPut(m: map<string, seq<PrefixRecord>>, key: string, rs: seq<PrefixRecord>)
    ensures PrefixHolds(m[key := rs]) == PrefixHolds(m)[key := Pins(rs)]
  {}

  lemma HeldAfterRemovePrefix(st: Store, key: string, q: Pool)
    ensures Held(st.(pool := q, prefixes := st.prefixes - {key})) == RestOfKey(st, key)
  {
    assert PrefixHolds(st.prefixes - {key}) == PrefixHolds(st.prefixes) - {key};
  }

  lemma {:induction false} PinsAppend(rs: seq<PrefixRecord>, rs': seq<PrefixRecord>)
    ensures Pins(rs + rs') == Pins(rs) + Pins(rs')
  {
    if rs == [] {
      assert rs + rs' == rs';
    } else {
      assert (rs + rs')[1..] == rs[1..] + rs';
      PinsAppend(rs[1..], rs');
    }
  }

  lemma PinsOfOne(rs: seq<PrefixRecord>)
    requires rs != []
    ensures Pins(rs) == multiset(Frames(rs[0].ids)) + Pins(rs[1..])
  {}

  lemma PinsAroundOne(rs: seq<PrefixRecord>, i: nat)
    requires i < |rs|
    ensures Pins(rs) == Pins(rs[..i] + rs[i + 1..]) + multiset(Frames(rs[i].ids))
  {
    hide *;
    var before, after := rs[..i], rs[i + 1..];
    assert rs == before + ([rs[i]] + after) && ([rs[i]] + after)[1..] == after;
    PinsAppend(before, [rs[i]] + after);
    PinsOfOne([rs[i]] + after);
    PinsAppend(before, after);
  }

  lemma PinsOfRecount(rs: seq<PrefixRecord>, i: nat, users: nat)
    requires i < |rs|
    ensures Pins(rs[i := rs[i].(users := users)]) == Pins(rs)
  {
    var rs' := rs[i := rs[i].(users := users)];
    PinsAroundOne(rs, i);
    PinsAroundOne(rs', i);
    assert rs'[..i] + rs'[i + 1..] == rs[..i] + rs[i + 1..];
  }

  lemma AbsRecordsCommute(p: Pool, rs: seq<PrefixRecord>, i: nat)
    requires i < |rs|
    ensures AbsRecords(p, rs[..i] + rs[i + 1..]) == AbsRecords(p, rs)[..i] + AbsRecords(p, rs)[i + 1..]
    ensures forall users: nat :: AbsRecords(p, rs[i := rs[i].(users := users)])
              == AbsRecords(p, rs)[i := AbsRecords(p, rs)[i].(users := users)]
  {}

  lemma {:induction false} FindAgrees(p: Pool, rs: seq<PrefixRecord>, hash: nat)
    ensures PFind(AbsRecords(p, rs), hash) == FindRecord(rs, hash)
  {
    if rs != [] {
      assert AbsRecords(p, rs)[1..] == AbsRecords(p, rs[1..]);
      FindAgrees(p, rs[1..], hash);
    }
  }

  /** Rewriting one key's records over a pool where everyone else's bytes stayed put. */
  lemma AbsAfterPutPrefix(st: Store, key: string, rs: seq<PrefixRecord>, q: Pool)
    requires SameContent(st.pool, q, RestOfKey(st, key)) && SameLayout(st.pool, q)
    ensures Abs(st.(pool := q, prefixes := st.prefixes[key := rs]))
         == Abs(st).(prefixes := Abs(st).prefixes[key := AbsRecords(q, rs)])
    ensures Abs(st.(pool := q, prefixes := st.prefixes - {key}))
         == Abs(st).(prefixes := Abs(st).prefixes - {key})
  {
    SameSeqs(st.pool, q, st.seqs);
    forall k | k in st.prefixes && k != key
      ensures AbsRecords(q, st.prefixes[k]) == AbsRecords(st.pool, st.prefixes[k])
    {
      SumMapHolds(PrefixHolds(st.prefixes) - {key}, k);
      SameRecords(st.pool, q, st.prefixes[k]);
    }
    AbsPrefixesPut(st.pool, q, st.prefixes, key, rs);
  }

  lemma AbsPrefixesPut(p: Pool, q: Pool, m: map<string, seq<PrefixRecord>>, key: string, rs: seq<PrefixRecord>)
    requires forall k :: k in m && k != key ==> AbsRecords(q, m[k]) == AbsRecords(p, m[k])
    ensures AbsPrefixes(q, m[key := rs]) == AbsPrefixes(p, m)[key := AbsRecords(q, rs)]
    ensures AbsPrefixes(q, m - {key}) == AbsPrefixes(p, m) - {key}
  {
    hide AbsRecords;
  }

  lemma SameSeqs(p: Pool, q: Pool, seqs: map<nat, Sequence>)
    requires SameContent(p, q, SumMap(SequenceHolds(seqs)))
    ensures AbsSeqs(q, seqs) == AbsSeqs(p, seqs)
  {
    forall sid | sid in seqs
      ensures AbsSeq(q, seqs[sid]) == AbsSeq(p, seqs[sid])
    {
      SumMapHolds(SequenceHolds(seqs), sid);
      SameBlocks(p, q, seqs[sid].tables);
    }
  }

  // ---- Dropping a prefix user ----------------------------------------------------------------------

  lemma RekeyHolds(seqs: map<nat, Sequence>, sid: nat, s: Sequence)
    requires sid in seqs && s.tables == seqs[sid].tables
    ensures SequenceHolds(seqs[sid := s]) == SequenceHolds(seqs)
  {
    hide HeldBy;
  }

  lemma RekeyKeepsMemory(st: Store, sid: nat, s: Sequence)
    requires MemoryInv(st) && sid in st.seqs && s.tables == st.seqs[sid].tables
    ensures MemoryInv(st.(seqs := st.seqs[sid := s]))
  {
    hide TablesOk, Accounted, SequenceHolds, PrefixHolds;
    RekeyHolds(st.seqs, sid, s);
    assert Held(st.(seqs := st.seqs[sid := s])) == Held(st);
  }

  lemma RekeyIs(st: Store, sid: nat, key: string, hash: nat)
    requires sid in st.seqs
    ensures Abs(st.(seqs := st.seqs[sid := st.seqs[sid].(key := key, hash := hash)]))
         == Abs(st).(seqs := Abs(st).seqs[sid := Abs(st).seqs[sid].(key := key, hash := hash)])
  {
    hide Blocks, AbsPrefixes, TableCount, TokensPerBlock;
  }

  /** Renaming a sequence's prefix key touches no reference and no byte. */
  lemma RekeyRefines(st: Store, sid: nat, key: string, hash: nat)
    requires MemoryInv(st) && sid in st.seqs
    ensures var st' := st.(seqs := st.seqs[sid := st.seqs[sid].(key := key, hash := hash)]);
            && MemoryInv(st')
            && Abs(st') == Abs(st).(seqs := Abs(st).seqs[sid := Abs(st).seqs[sid].(key := key, hash := hash)])
            && SequenceHolds(st'.seqs) == SequenceHolds(st.seqs)
  {
    hide *;
    var s := st.seqs[sid].(key := key, hash := hash);
    RekeyHolds(st.seqs, sid, s);
    RekeyKeepsMemory(st, sid, s);
    RekeyIs(st, sid, key, hash);
  }

  lemma RecountRefines(st: Store, key: string, i: nat, users: nat)
    requires MemoryInv(st) && key in st.prefixes && i < |st.prefixes[key]|
    ensures var rs := st.prefixes[key];
            var st' := st.(prefixes := st.prefixes[key := rs[i := rs[i].(users := users)]]);
            var ars := Abs(st).prefixes[key];
            && MemoryInv(st')
            && Abs(st') == Abs(st).(prefixes := Abs(st).prefixes[key := ars[i := ars[i].(users := users)]])
  {
    var rs := st.prefixes[key];
    var rs' := rs[i := rs[i].(users := users)];
    HeldSplitsAtKey(st, key);
    PinsOfRecount(rs, i, users);
    HeldAfterPutPrefix(st, key, rs', st.pool);
    AbsAfterPutPrefix(st, key, rs', st.pool);
    AbsRecordsCommute(st.pool, rs, i);
  }

  lemma PinsAtIs(st: Store, key: string)
    requires key in st.prefixes
    ensures PinsAt(st, key) == Pins(st.prefixes[key])
  {}

  lemma NoPins()
    ensures Pins([]) == multiset{}
  {}

  lemma SameContentParts(p: Pool, q: Pool, a: multiset<Res>, b: multiset<Res>)
    requires SameContent(p, q, a + b)
    ensures SameContent(p, q, a) && SameContent(p, q, b)
  {
    hide Content;
    assert forall r :: r in a || r in b ==> r in a + b;
  }

  lemma AbsRecordsAt(st: Store, key: string)
    requires key in st.prefixes
    ensures key in Abs(st).prefixes && Abs(st).prefixes[key] == AbsRecords(st.pool, st.prefixes[key])
  {}

  lemma AbsRecordsSize(p: Pool, rs: seq<PrefixRecord>)
    ensures |AbsRecords(p, rs)| == |rs|
  {}

  lemma MemoryInvFrom(st: Store)
    requires Accounted(st.pool, Held(st)) && forall sid :: sid in st.seqs ==> TablesOk(st.pool, st.seqs[sid].tables)
    ensures MemoryInv(st)
  {}

  lemma UnpinRefines(st: Store, key: string, i: nat)
    requires MemoryInv(st) && key in st.prefixes && i < |st.prefixes[key]|
    ensures var rs := st.prefixes[key];
            var left := rs[..i] + rs[i + 1..];
            var q := FreeAll(st.pool, Frames(rs[i].ids));
            var st' := st.(pool := q, prefixes := if left == [] then st.prefixes - {key} else st.prefixes[key := left]);
            var ars := Abs(st).prefixes[key];
            var aleft := ars[..i] + ars[i + 1..];
            && MemoryInv(st') && SameLayout(st.pool, q)
            && Abs(st') == Abs(st).(prefixes :=
                             if aleft == [] then Abs(st).prefixes - {key} else Abs(st).prefixes[key := aleft])
  {
    hide *;
    PoolIsValid(st);
    MemoryAccounts(st);
    var rs := st.prefixes[key];
    var left := rs[..i] + rs[i + 1..];
    HeldSplitsAtKey(st, key);
    PinsAtIs(st, key);
    PinsAroundOne(rs, i);
    assert Held(st) == (RestOfKey(st, key) + Pins(left)) + multiset(Frames(rs[i].ids));
    FreeAllAccounted(st.pool, RestOfKey(st, key) + Pins(left), Frames(rs[i].ids));
    var q := FreeAll(st.pool, Frames(rs[i].ids));
    SameContentParts(st.pool, q, RestOfKey(st, key), Pins(left));
    OthersOkOnSameLayout(st, q);
    HeldAfterPutPrefix(st, key, left, q);
    HeldAfterRemovePrefix(st, key, q);
    NoPins();
    AbsAfterPutPrefix(st, key, left, q);
    AbsRecordsAt(st, key);
    AbsRecordsCommute(st.pool, rs, i);
    AbsRecordsSize(st.pool, rs);
    AbsRecordsSize(st.pool, left);
    SameRecords(st.pool, q, left);
    if left == [] {
      assert RestOfKey(st, key) + Pins(left) == RestOfKey(st, key);
      MemoryInvFrom(st.(pool := q, prefixes := st.prefixes - {key}));
    } else {
      MemoryInvFrom(st.(pool := q, prefixes := st.prefixes[key := left]));
    }
  }

  /** What the abstraction shows of one sequence and one key. */
  lemma AbsShows(st: Store, sid: nat, key: string)
    ensures Abs(st).seqs.Keys == st.seqs.Keys && Abs(st).prefixes.Keys == st.prefixes.Keys
    ensures sid in st.seqs ==> Abs(st).seqs[sid] == AbsSeq(st.pool, st.seqs[sid])
    ensures key in st.prefixes ==> Abs(st).prefixes[key] == AbsRecords(st.pool, st.prefixes[key])
  {}

  lemma DropRefines(st: Store, sid: nat)
    requires MemoryInv(st) && sid in st.seqs
    ensures MemoryInv(DropPrefixUser(st, sid)) && Abs(DropPrefixUser(st, sid)) == PDrop(Abs(st), sid)
    ensures DropPrefixUser(st, sid).seqs.Keys == st.seqs.Keys
    ensures SameLayout(st.pool, DropPrefixUser(st, sid).pool)
  {
    hide MemoryInv, AbsSeqs, AbsPrefixes;
    var s := st.seqs[sid];
    AbsShows(st, sid, s.key);
    if s.key != "" {
      RekeyRefines(st, sid, "", 0);
      var st1 := st.(seqs := st.seqs[sid := s.(key := "", hash := 0)]);
      if s.key in st.prefixes {
        var rs := st.prefixes[s.key];
        FindAgrees(st.pool, rs, s.hash);
        var i := FindRecord(rs, s.hash);
        if i.Some? {
          if rs[i.value].users > 1 {
            RecountRefines(st1, s.key, i.value, rs[i.value].users - 1);
          } else {
            UnpinRefines(st1, s.key, i.value);
          }
        }
      }
    }
  }

  // ---- Release --------------------------------------------------------------------------------------

  lemma FreeSequenceRefines(st: Store, sid: nat)
    requires MemoryInv(st) && sid in st.seqs
    ensures var st' := st.(pool := FreeAll(st.pool, Flat(st.seqs[sid].tables)), seqs := st.seqs - {sid});
            && MemoryInv(st') && SameLayout(st.pool, st'.pool)
            && Abs(st') == Abs(st).(seqs := Abs(st).seqs - {sid})
  {
    OwnMoveStarts(st, sid);
    FreeAllAccounted(st.pool, Rest(st, sid), Flat(st.seqs[sid].tables));
    var q := FreeAll(st.pool, Flat(st.seqs[sid].tables));
    MemoryInvAfterRemove(st, sid, q);
    SameOthers(st, sid, q);
  }

  lemma ReleaseRefines(st: Store, sid: nat)
    requires MemoryInv(st)
    ensures MemoryInv(ReleaseSequence(st, sid))
    ensures Abs(ReleaseSequence(st, sid)) == PRelease(Abs(st), sid)
    ensures SameLayout(st.pool, ReleaseSequence(st, sid).pool)
    ensures ReleaseSequence(st, sid).seqs.Keys == st.seqs.Keys - {sid}
  {
    if sid in st.seqs {
      DropRefines(st, sid);
      var st1 := DropPrefixUser(st, sid);
      FreeSequenceRefines(st1, sid);
      IndexIsInvisible(st1.(pool := FreeAll(st1.pool, Flat(st1.seqs[sid].tables)), seqs := st1.seqs - {sid}),
                       Unindex(st1.byRequest, st.seqs[sid].request, sid));
    }
  }

  // ---- Publish and attach ---------------------------------------------------------------------------

  lemma {:induction false} ConcatOfBlocks(p: Pool, tables: seq<Table>)
    requires AllResident(tables)
    ensures FrameBytes(p, FlatPhysicals(tables)) == Concat(Blocks(p, tables))
  {
    if tables != [] {
      assert AllResident(tables[1..]) by {
        assert forall l, i :: 0 <= l < |tables[1..]| && 0 <= i < |tables[1..][l]| ==> tables[1..][l][i] == tables[l + 1][i];
      }
      ConcatOfBlocks(p, tables[1..]);
      assert Blocks(p, tables)[1..] == Blocks(p, tables[1..]);
      assert FrameBytes(p, Physicals(tables[0])) == TableBlocks(p, tables[0]);
      var a, b := Physicals(tables[0]), FlatPhysicals(tables[1..]);
      assert FrameBytes(p, a + b) == FrameBytes(p, a) + FrameBytes(p, b);
    }
  }

  function RecordsOf(st: Store, key: string): seq<PrefixRecord> {
    if key in st.prefixes then st.prefixes[key] else []
  }

  /** Pinning the frames of a resident sequence under a key. */
  lemma PinKeepsAccounts(st: Store, sid: nat, key: string, record: PrefixRecord)
    requires MemoryInv(st) && sid in st.seqs && AllResident(st.seqs[sid].tables)
    requires record.ids == FlatPhysicals(st.seqs[sid].tables)
    ensures var q := RetainAll(st.pool, Flat(st.seqs[sid].tables));
            && MemoryInv(st.(pool := q, prefixes := st.prefixes[key := RecordsOf(st, key) + [record]]))
            && SameLayout(st.pool, q)
  {
    var q := RetainAll(st.pool, Flat(st.seqs[sid].tables));
    PinAccounted(st, sid, key, record);
    OthersOkOnSameLayout(st, q);
    HeldAfterPutPrefix(st, key, RecordsOf(st, key) + [record], q);
  }

  lemma PinKeepsBytes(st: Store, sid: nat, key: string, record: PrefixRecord)
    requires MemoryInv(st) && sid in st.seqs && AllResident(st.seqs[sid].tables)
    requires record.ids == FlatPhysicals(st.seqs[sid].tables)
    ensures ValidPool(st.pool)
    ensures var q := RetainAll(st.pool, Flat(st.seqs[sid].tables));
            && SameLayout(st.pool, q) && SameContent(st.pool, q, RestOfKey(st, key))
            && SameContent(st.pool, q, Pins(RecordsOf(st, key))) && SameContent(st.pool, q, multiset(Frames(record.ids)))
  {
    hide MemoryInv, RetainAll, RestOfKey, Pins, Content, SameLayout, Accounted;
    PoolIsValid(st);
    PinAccounted(st, sid, key, record);
  }

  lemma RecordsAppended(p: Pool, rs: seq<PrefixRecord>, record: PrefixRecord)
    ensures AbsRecords(p, rs + [record]) == AbsRecords(p, rs) + [AbsRecord(p, record)]
    ensures AbsRecord(p, record) == SavedPrefix(record.hash, record.tokens, record.users, FrameBytes(p, record.ids))
  {
    hide FrameBytes;
  }

  lemma PinSavesBytes(st: Store, sid: nat, key: string, record: PrefixRecord)
    requires MemoryInv(st) && sid in st.seqs && AllResident(st.seqs[sid].tables)
    requires record.ids == FlatPhysicals(st.seqs[sid].tables)
    ensures var q := RetainAll(st.pool, Flat(st.seqs[sid].tables));
            && Abs(st.(pool := q, prefixes := st.prefixes[key := RecordsOf(st, key) + [record]]))
            == Abs(st).(prefixes := Abs(st).prefixes[key := AbsRecords(st.pool, RecordsOf(st, key)) +
                 [SavedPrefix(record.hash, record.tokens, record.users, Concat(Blocks(st.pool, st.seqs[sid].tables)))]])
  {
    hide *;
    PoolIsValid(st);
    var q, rs := RetainAll(st.pool, Flat(st.seqs[sid].tables)), RecordsOf(st, key);
    PinKeepsBytes(st, sid, key, record);
    AbsAfterPutPrefix(st, key, rs + [record], q);
    RecordsAppended(q, rs, record);
    SameRecords(st.pool, q, rs);
    SameFrameBytes(st.pool, q, record.ids);
    ConcatOfBlocks(st.pool, st.seqs[sid].tables);
  }

  lemma HeldCovers(st: Store, sid: nat)
    requires sid in st.seqs
    ensures multiset(Flat(st.seqs[sid].tables)) <= Held(st)
  {
    HeldSplits(st, sid);
  }

  lemma PinAccounted(st: Store, sid: nat, key: string, record: PrefixRecord)
    requires MemoryInv(st) && sid in st.seqs && AllResident(st.seqs[sid].tables)
    requires record.ids == FlatPhysicals(st.seqs[sid].tables)
    ensures var rs := if key in st.prefixes then st.prefixes[key] else [];
            var q := RetainAll(st.pool, Flat(st.seqs[sid].tables));
            && Accounted(q, RestOfKey(st, key) + Pins(rs + [record])) && SameLayout(st.pool, q)
            && forall r :: Content(q, r) == Content(st.pool, r)
  {
    hide MemoryInv, RetainAll, Flat, FlatPhysicals, Accounted, Held, HeldBy;
    var tables := st.seqs[sid].tables;
    var rs := if key in st.prefixes then st.prefixes[key] else [];
    ResidentReferences(tables);
    PoolIsValid(st);
    HeldCovers(st, sid);
    MemoryAccounts(st);
    RetainMoves(st.pool, Flat(tables), Held(st));
    HeldSplitsAtKey(st, key);
    PinsAppend(rs, [record]);
    assert Pins([record]) == multiset(Frames(record.ids)) + Pins([]);
    assert Held(st) + multiset(Flat(tables)) == RestOfKey(st, key) + Pins(rs + [record]);
  }

  lemma FirstTable(st: Store, sid: nat)
    requires MemoryInv(st) && sid in st.seqs
    ensures st.seqs[sid].tables != []
    ensures st.seqs[sid].tables[0] != [] ==> TokensPerBlock(st.pool) > 0
  {
    TablesOkOf(st, sid);
    assert TableOk(st.pool, st.seqs[sid].tables[0]);
  }

  /** The call by cases: refuse, nothing to do, join a record, or start one. */
  lemma PublishIs(st: Store, sid: nat, key: string, hash: ContentHash)
    requires MemoryInv(st)
    ensures var r := PublishPrefix(st, sid, key, hash);
            if key == "" || sid !in st.seqs || st.seqs[sid].tables[0] == [] then r == (st, false)
            else if st.seqs[sid].key == key then r == (st, true)
            else if !AllResident(st.seqs[sid].tables) then r == (st, false)
            else
              var s := st.seqs[sid];
              var h := hash(Blocks(st.pool, s.tables));
              var rs := RecordsOf(st, key);
              var st1 := st.(seqs := st.seqs[sid := s.(key := key, hash := h)]);
              var i := FindRecord(rs, h);
              && r.1
              && r.0 == if i.Some? then
                          st1.(prefixes := st.prefixes[key := rs[i.value := rs[i.value].(users := rs[i.value].users + 1)]])
                        else
                          st1.(pool := RetainAll(st.pool, Flat(s.tables)),
                               prefixes := st.prefixes[key := rs + [PrefixRecord(
                                 h, |s.tables[0]| * TokensPerBlock(st.pool), 1, FlatPhysicals(s.tables))]])
  {
    if sid in st.seqs {
      FirstTable(st, sid);
    }
  }

  lemma PublishRefines(st: Store, sid: nat, key: string, hash: ContentHash)
    requires MemoryInv(st)
    ensures var (st', ok) := PublishPrefix(st, sid, key, hash);
            && MemoryInv(st') && SameLayout(st.pool, st'.pool)
            && (ok <==> key != "" && sid in st.seqs && st.seqs[sid].tables[0] != []
                        && (st.seqs[sid].key == key || AllResident(st.seqs[sid].tables)))
            && (ok ==> sid in Abs(st).seqs && Abs(st).seqs[sid].blocks != [])
            && Abs(st') == if ok then PPublish(Abs(st), sid, key, hash) else Abs(st)
  {
    var (st', ok) := PublishPrefix(st, sid, key, hash);
    PublishIs(st, sid, key, hash);
    if sid in st.seqs {
      FirstTable(st, sid);
    }
    hide MemoryInv, AbsSeqs, AbsPrefixes, PublishPrefix;
    AbsShows(st, sid, key);
    if ok && st.seqs[sid].key != key {
      PublishNewRefines(st, sid, key, hash);
    }
  }

  /** The private-copy publish, read off the store it abstracts. */
  lemma PPublishIs(st: Store, sid: nat, key: string, hash: ContentHash)
    requires sid in st.seqs && st.seqs[sid].key != key && st.seqs[sid].tables != []
    ensures sid in Abs(st).seqs && Abs(st).seqs[sid].blocks != []
    ensures var s := st.seqs[sid];
            var a, h, rs := Abs(st), hash(Blocks(st.pool, s.tables)), RecordsOf(st, key);
            var ars := AbsRecords(st.pool, rs);
            var a1 := a.(seqs := a.seqs[sid := a.seqs[sid].(key := key, hash := h)]);
            PPublish(a, sid, key, hash) ==
              match FindRecord(rs, h)
              case Some(i) => a1.(prefixes := a.prefixes[key := ars[i := ars[i].(users := rs[i].users + 1)]])
              case None => a1.(prefixes := a.prefixes[key := ars + [SavedPrefix(
                  h, |s.tables[0]| * TokensPerBlock(st.pool), 1, Concat(Blocks(st.pool, s.tables)))]])
  {
    AbsShows(st, sid, key);
    FindAgrees(st.pool, RecordsOf(st, key), hash(Blocks(st.pool, st.seqs[sid].tables)));
    assert AbsRecords(st.pool, []) == [];
  }

  lemma FoundIsPublished(st: Store, key: string, hash: nat)
    requires FindRecord(RecordsOf(st, key), hash).Some?
    ensures key in st.prefixes && RecordsOf(st, key) == st.prefixes[key]
  {}

  lemma RecordsUnderOtherSequences(st: Store, seqs: map<nat, Sequence>, key: string)
    ensures RecordsOf(st.(seqs := seqs), key) == RecordsOf(st, key)
  {}

  lemma PublishJoins(st: Store, sid: nat, key: string, hash: ContentHash)
    requires MemoryInv(st) && sid in st.seqs && st.seqs[sid].key != key
    requires st.seqs[sid].tables != [] && AllResident(st.seqs[sid].tables)
    requires PublishPrefix(st, sid, key, hash).1
    requires FindRecord(RecordsOf(st, key), hash(Blocks(st.pool, st.seqs[sid].tables))).Some?
    ensures var st' := PublishPrefix(st, sid, key, hash).0;
            && MemoryInv(st') && st'.pool == st.pool
            && sid in Abs(st).seqs && Abs(st).seqs[sid].blocks != []
            && Abs(st') == PPublish(Abs(st), sid, key, hash)
  {
    hide *;
    PublishIs(st, sid, key, hash);
    PPublishIs(st, sid, key, hash);
    AbsShows(st, sid, key);
    var s, rs := st.seqs[sid], RecordsOf(st, key);
    var h := hash(Blocks(st.pool, s.tables));
    var i := FindRecord(rs, h).value;
    FoundIsPublished(st, key, h);
    RekeyRefines(st, sid, key, h);
    var st1 := st.(seqs := st.seqs[sid := s.(key := key, hash := h)]);
    RecountRefines(st1, key, i, rs[i].users + 1);
  }

  lemma PublishStarts(st: Store, sid: nat, key: string, hash: ContentHash)
    requires MemoryInv(st) && sid in st.seqs && st.seqs[sid].key != key
    requires st.seqs[sid].tables != [] && AllResident(st.seqs[sid].tables)
    requires PublishPrefix(st, sid, key, hash).1
    requires FindRecord(RecordsOf(st, key), hash(Blocks(st.pool, st.seqs[sid].tables))).None?
    ensures var st' := PublishPrefix(st, sid, key, hash).0;
            && MemoryInv(st') && SameLayout(st.pool, st'.pool)
            && sid in Abs(st).seqs && Abs(st).seqs[sid].blocks != []
            && Abs(st') == PPublish(Abs(st), sid, key, hash)
  {
    hide *;
    PublishIs(st, sid, key, hash);
    PPublishIs(st, sid, key, hash);
    AbsShows(st, sid, key);
    var s, rs := st.seqs[sid], RecordsOf(st, key);
    var h := hash(Blocks(st.pool, s.tables));
    var st1 := st.(seqs := st.seqs[sid := s.(key := key, hash := h)]);
    RecordsUnderOtherSequences(st, st1.seqs, key);
    RekeyRefines(st, sid, key, h);
    var record := PrefixRecord(h, |s.tables[0]| * TokensPerBlock(st.pool), 1, FlatPhysicals(s.tables));
    PinKeepsAccounts(st1, sid, key, record);
    PinSavesBytes(st1, sid, key, record);
  }

  lemma PublishNewRefines(st: Store, sid: nat, key: string, hash: ContentHash)
    requires MemoryInv(st) && sid in st.seqs && st.seqs[sid].key != key
    requires st.seqs[sid].tables != [] && AllResident(st.seqs[sid].tables)
    requires PublishPrefix(st, sid, key, hash).1
    ensures MemoryInv(PublishPrefix(st, sid, key, hash).0)
    ensures SameLayout(st.pool, PublishPrefix(st, sid, key, hash).0.pool)
    ensures sid in Abs(st).seqs && Abs(st).seqs[sid].blocks != []
    ensures Abs(PublishPrefix(st, sid, key, hash).0) == PPublish(Abs(st), sid, key, hash)
  {
    hide MemoryInv, Abs, PublishPrefix, PPublish;
    if FindRecord(RecordsOf(st, key), hash(Blocks(st.pool, st.seqs[sid].tables))).Some? {
      PublishJoins(st, sid, key, hash);
    } else {
      PublishStarts(st, sid, key, hash);
    }
  }
}
