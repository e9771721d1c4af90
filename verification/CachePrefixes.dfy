/**
  The prefix index: a record's user count is the number of sequences holding its key and hash,
  hashes under a key are distinct, and attaching maps exactly the saved frames.
 */
module CachePrefixes {
  import opened SwapStore
  import opened FramePool
  import opened CacheStore
  import opened CacheAccounting
  import opened CacheLifecycle

  ghost function Holders(seqs: map<nat, Sequence>, key: string, hash: nat): set<nat> {
    set sid | sid in seqs && seqs[sid].key == key && seqs[sid].hash == hash
  }

  /** A record covers the same number of whole blocks in every table and pins each frame once. */
  ghost predicate RecordOk(p: Pool, r: PrefixRecord) {
    && TokensPerBlock(p) > 0 && r.ids != []
    && |r.ids| % TableCount(p) == 0
    && r.tokens == |r.ids| / TableCount(p) * TokensPerBlock(p)
    && NoRepeats(Frames(r.ids))
  }

  ghost predicate Counted(seqs: map<nat, Sequence>, key: string, r: PrefixRecord) {
    r.users > 0 && r.users == |Holders(seqs, key, r.hash)|
  }

  ghost predicate DistinctHashes(rs: seq<PrefixRecord>) {
    forall i, j :: 0 <= i < j < |rs| ==> rs[i].hash != rs[j].hash
  }

  ghost predicate RecordsOk(p: Pool, seqs: map<nat, Sequence>, key: string, rs: seq<PrefixRecord>) {
    && rs != [] && DistinctHashes(rs)
    && forall i :: 0 <= i < |rs| ==> RecordOk(p, rs[i]) && Counted(seqs, key, rs[i])
  }

  /** A sequence's key names a live record, and only a sequence with blocks has one. */
  ghost predicate KeyOk(prefixes: map<string, seq<PrefixRecord>>, s: Sequence) {
    s.key != "" ==>
      && s.key in prefixes && FindRecord(prefixes[s.key], s.hash).Some?
      && s.tables != [] && s.tables[0] != []
  }

  ghost predicate PrefixInv(st: Store) {
    && "" !in st.prefixes
    && (forall key :: key in st.prefixes ==> RecordsOk(st.pool, st.seqs, key, st.prefixes[key]))
    && (forall sid :: sid in st.seqs ==> KeyOk(st.prefixes, st.seqs[sid]))
  }

  // ---- Calls that leave keys alone ----------------------------------------------------------------

  /** The same sequences under the same keys, none of them emptied. */
  ghost predicate SameKeys(seqs: map<nat, Sequence>, seqs': map<nat, Sequence>) {
    && seqs'.Keys == seqs.Keys
    && forall sid :: sid in seqs ==>
         && seqs'[sid].key == seqs[sid].key && seqs'[sid].hash == seqs[sid].hash
         && seqs'[sid].request == seqs[sid].request
         && (seqs[sid].tables != [] && seqs[sid].tables[0] != [] ==>
               seqs'[sid].tables != [] && seqs'[sid].tables[0] != [])
  }

  lemma SameKeysSameHolders(seqs: map<nat, Sequence>, seqs': map<nat, Sequence>, key: string, hash: nat)
    requires SameKeys(seqs, seqs')
    ensures Holders(seqs', key, hash) == Holders(seqs, key, hash)
  {}

  lemma PrefixInvUnderSameKeys(st: Store, st': Store)
    requires PrefixInv(st) && SameKeys(st.seqs, st'.seqs) && SameLayout(st.pool, st'.pool)
    requires st'.prefixes == st.prefixes
    ensures PrefixInv(st')
  {
    forall key | key in st.prefixes
      ensures RecordsOk(st'.pool, st'.seqs, key, st.prefixes[key])
    {
      var rs := st.prefixes[key];
      assert RecordsOk(st.pool, st.seqs, key, rs);
      forall i | 0 <= i < |rs|
        ensures RecordOk(st'.pool, rs[i]) && Counted(st'.seqs, key, rs[i])
      {
        SameKeysSameHolders(st.seqs, st'.seqs, key, rs[i].hash);
      }
    }
  }

  /** A new sequence starts without a key. */
  lemma PrefixInvAfterAdd(st: Store, sid: nat, s: Sequence, q: Pool)
    requires PrefixInv(st) && sid !in st.seqs && s.key == "" && SameLayout(st.pool, q)
    ensures PrefixInv(st.(pool := q, seqs := st.seqs[sid := s]))
  {
    forall key | key in st.prefixes
      ensures RecordsOk(q, st.seqs[sid := s], key, st.prefixes[key])
    {
      var rs := st.prefixes[key];
      assert RecordsOk(st.pool, st.seqs, key, rs);
      forall i | 0 <= i < |rs|
        ensures RecordOk(q, rs[i]) && Counted(st.seqs[sid := s], key, rs[i])
      {
        assert Holders(st.seqs[sid := s], key, rs[i].hash) == Holders(st.seqs, key, rs[i].hash);
      }
    }
  }

  /** Removing a sequence without a key concerns no record. */
  lemma PrefixInvAfterRemove(st: Store, sid: nat, q: Pool)
    requires PrefixInv(st) && sid in st.seqs && st.seqs[sid].key == "" && SameLayout(st.pool, q)
    ensures PrefixInv(st.(pool := q, seqs := st.seqs - {sid}))
  {
    forall key | key in st.prefixes
      ensures RecordsOk(q, st.seqs - {sid}, key, st.prefixes[key])
    {
      var rs := st.prefixes[key];
      assert RecordsOk(st.pool, st.seqs, key, rs);
      forall i | 0 <= i < |rs|
        ensures RecordOk(q, rs[i]) && Counted(st.seqs - {sid}, key, rs[i])
      {
        assert Holders(st.seqs - {sid}, key, rs[i].hash) == Holders(st.seqs, key, rs[i].hash);
      }
    }
  }

  // ---- Calls that change one sequence's key --------------------------------------------------------

  lemma HoldersAfterRekey(seqs: map<nat, Sequence>, sid: nat, s: Sequence, key: string, hash: nat)
    requires sid in seqs
    ensures Holders(seqs[sid := s], key, hash) ==
            if s.key == key && s.hash == hash then Holders(seqs, key, hash) + {sid}
            else Holders(seqs, key, hash) - {sid}
  {}

  /** Records other than those at (key, hash) count the same before and after a rekey to or from it. */
  lemma CountedElsewhere(seqs: map<nat, Sequence>, sid: nat, s: Sequence, key: string, r: PrefixRecord)
    requires sid in seqs && Counted(seqs, key, r)
    requires (seqs[sid].key, seqs[sid].hash) != (key, r.hash) && (s.key, s.hash) != (key, r.hash)
    ensures Counted(seqs[sid := s], key, r)
  {
    HoldersAfterRekey(seqs, sid, s, key, r.hash);
    assert Holders(seqs[sid := s], key, r.hash) == Holders(seqs, key, r.hash);
  }

  lemma FindRecordIff(rs: seq<PrefixRecord>, hash: nat, i: nat)
    requires i < |rs| && rs[i].hash == hash
    ensures FindRecord(rs, hash).Some?
  {}

  /** Sequences outside (key, hash) keep their record when only that record changes or goes. */
  lemma KeysFoundAfter(st: Store, sid: nat, s: Sequence, key: string, rs': seq<PrefixRecord>)
    requires PrefixInv(st) && sid in st.seqs && key in st.prefixes
    requires forall h :: FindRecord(st.prefixes[key], h).Some? && h != st.seqs[sid].hash ==> FindRecord(rs', h).Some?
    requires st.seqs[sid].key == key
    requires Holders(st.seqs, key, st.seqs[sid].hash) == {sid} || FindRecord(rs', st.seqs[sid].hash).Some?
    ensures forall other :: other in st.seqs && other != sid && st.seqs[other].key == key ==>
              FindRecord(rs', st.seqs[other].hash).Some?
  {
    forall other | other in st.seqs && other != sid && st.seqs[other].key == key
      ensures FindRecord(rs', st.seqs[other].hash).Some?
    {
      assert KeyOk(st.prefixes, st.seqs[other]);
      if st.seqs[other].hash == st.seqs[sid].hash {
        assert other in Holders(st.seqs, key, st.seqs[sid].hash);
      }
    }
  }

  lemma RecordsElsewhere(st: Store, q: Pool, sid: nat, s: Sequence, key: string)
    requires PrefixInv(st) && SameLayout(st.pool, q) && sid in st.seqs && key in st.prefixes
    requires st.seqs[sid].key != key && s.key != key
    ensures RecordsOk(q, st.seqs[sid := s], key, st.prefixes[key])
  {
    var rs := st.prefixes[key];
    assert RecordsOk(st.pool, st.seqs, key, rs);
    forall i | 0 <= i < |rs|
      ensures RecordOk(q, rs[i]) && Counted(st.seqs[sid := s], key, rs[i])
    {
      CountedElsewhere(st.seqs, sid, s, key, rs[i]);
    }
  }

  lemma PrefixInvAssembled(st: Store, q: Pool, sid: nat, s: Sequence, key: string, prefixes: map<string, seq<PrefixRecord>>)
    requires PrefixInv(st) && SameLayout(st.pool, q) && sid in st.seqs && key != ""
    requires st.seqs[sid].key == key || st.seqs[sid].key == ""
    requires s.key == key || s.key == ""
    requires prefixes - {key} == st.prefixes - {key}
    requires key in prefixes ==> RecordsOk(q, st.seqs[sid := s], key, prefixes[key])
    requires KeyOk(prefixes, s)
    requires forall other :: other in st.seqs && other != sid && st.seqs[other].key == key ==>
               key in prefixes && FindRecord(prefixes[key], st.seqs[other].hash).Some?
    ensures PrefixInv(st.(pool := q, seqs := st.seqs[sid := s], prefixes := prefixes))
  {
    assert "" !in prefixes by {
      assert "" in prefixes ==> "" in prefixes - {key};
    }
    forall k | k in prefixes
      ensures RecordsOk(q, st.seqs[sid := s], k, prefixes[k])
    {
      if k != key {
        assert k in prefixes - {key} && (prefixes - {key})[k] == (st.prefixes - {key})[k];
        RecordsElsewhere(st, q, sid, s, k);
      }
    }
    forall other | other in st.seqs && other != sid
      ensures KeyOk(prefixes, st.seqs[other])
    {
      assert KeyOk(st.prefixes, st.seqs[other]);
      var k := st.seqs[other].key;
      if k != key && k != "" {
        assert k in st.prefixes - {key} && (prefixes - {key})[k] == (st.prefixes - {key})[k];
      }
    }
  }

  /** The call by cases: one user fewer, or the last one and the record goes. */
  lemma DropIs(st: Store, sid: nat)
    requires PrefixInv(st) && MemoryInv(st) && sid in st.seqs && st.seqs[sid].key != ""
    ensures var s, key := st.seqs[sid], st.seqs[sid].key;
            && key in st.prefixes && FindRecord(st.prefixes[key], s.hash).Some?
            && var rs, i := st.prefixes[key], FindRecord(st.prefixes[key], s.hash).value;
               var left := rs[..i] + rs[i + 1..];
               var st1 := st.(seqs := st.seqs[sid := s.(key := "", hash := 0)]);
               && rs[i].users >= 1 && rs[i].hash == s.hash
               && DropPrefixUser(st, sid) ==
                  if rs[i].users > 1 then
                    st1.(prefixes := st.prefixes[key := rs[i := rs[i].(users := rs[i].users - 1)]])
                  else
                    st1.(pool := FreeAll(st.pool, Frames(rs[i].ids)),
                         prefixes := if left == [] then st.prefixes - {key} else st.prefixes[key := left])
  {
    var key, hash := st.seqs[sid].key, st.seqs[sid].hash;
    assert KeyOk(st.prefixes, st.seqs[sid]);
    assert RecordsOk(st.pool, st.seqs, key, st.prefixes[key]);
    assert Counted(st.seqs, key, st.prefixes[key][FindRecord(st.prefixes[key], hash).value]);
  }

  lemma DropKeepsPrefixes(st: Store, sid: nat)
    requires PrefixInv(st) && MemoryInv(st) && sid in st.seqs
    ensures var st' := DropPrefixUser(st, sid);
            && PrefixInv(st') && st'.byRequest == st.byRequest
            && st'.seqs == st.seqs[sid := st.seqs[sid].(key := "", hash := st'.seqs[sid].hash)]
  {
    hide RecordsOk, MemoryInv;
    PoolIsValid(st);
    if st.seqs[sid].key == "" {
      assert st.seqs == st.seqs[sid := st.seqs[sid].(key := "")];
    } else {
      DropIs(st, sid);
      DropRefines(st, sid);
      hide *;
      var key := st.seqs[sid].key;
      var i := FindRecord(st.prefixes[key], st.seqs[sid].hash).value;
      if st.prefixes[key][i].users > 1 {
        DropOneUser(st, sid, i);
      } else {
        DropLastUser(st, sid, i, DropPrefixUser(st, sid).pool);
      }
    }
  }

  lemma RecountedRecordsOk(st: Store, sid: nat, i: nat)
    requires PrefixInv(st) && sid in st.seqs && st.seqs[sid].key != "" && st.seqs[sid].key in st.prefixes
    requires i < |st.prefixes[st.seqs[sid].key]|
    requires st.prefixes[st.seqs[sid].key][i].hash == st.seqs[sid].hash
    requires st.prefixes[st.seqs[sid].key][i].users > 1
    ensures var s, key := st.seqs[sid], st.seqs[sid].key;
            var rs := st.prefixes[key];
            RecordsOk(st.pool, st.seqs[sid := s.(key := "", hash := 0)], key, rs[i := rs[i].(users := rs[i].users - 1)])
  {
    var key, hash := st.seqs[sid].key, st.seqs[sid].hash;
    var s, rs := st.seqs[sid].(key := "", hash := 0), st.prefixes[key];
    var rs' := rs[i := rs[i].(users := rs[i].users - 1)];
    assert RecordsOk(st.pool, st.seqs, key, rs);
    HoldersAfterRekey(st.seqs, sid, s, key, hash);
    assert sid in Holders(st.seqs, key, hash);
    hide PrefixInv, Holders, NoRepeats;
    forall j | 0 <= j < |rs'|
      ensures RecordOk(st.pool, rs'[j]) && Counted(st.seqs[sid := s], key, rs'[j])
    {
      if j != i {
        CountedElsewhere(st.seqs, sid, s, key, rs[j]);
      }
    }
  }

  lemma {:induction false} RecountFinds(rs: seq<PrefixRecord>, i: nat, users: nat, hash: nat)
    requires i < |rs|
    ensures FindRecord(rs[i := rs[i].(users := users)], hash) == FindRecord(rs, hash)
  {
    var rs' := rs[i := rs[i].(users := users)];
    if i > 0 {
      assert rs'[1..] == rs[1..][i - 1 := rs[i].(users := users)];
      RecountFinds(rs[1..], i - 1, users, hash);
    } else {
      assert rs'[1..] == rs[1..];
    }
  }

  lemma DropOneUser(st: Store, sid: nat, i: nat)
    requires PrefixInv(st) && sid in st.seqs && st.seqs[sid].key != "" && st.seqs[sid].key in st.prefixes
    requires i < |st.prefixes[st.seqs[sid].key]|
    requires st.prefixes[st.seqs[sid].key][i].hash == st.seqs[sid].hash
    requires st.prefixes[st.seqs[sid].key][i].users > 1
    ensures var s, key := st.seqs[sid], st.seqs[sid].key;
            var rs := st.prefixes[key];
            PrefixInv(st.(seqs := st.seqs[sid := s.(key := "", hash := 0)],
                          prefixes := st.prefixes[key := rs[i := rs[i].(users := rs[i].users - 1)]]))
  {
    hide *;
    var key := st.seqs[sid].key;
    var s, rs := st.seqs[sid].(key := "", hash := 0), st.prefixes[key];
    var rs' := rs[i := rs[i].(users := rs[i].users - 1)];
    RecountedRecordsOk(st, sid, i);
    forall h
      ensures FindRecord(rs', h) == FindRecord(rs, h)
    {
      RecountFinds(rs, i, rs[i].users - 1, h);
    }
    FindRecordIff(rs', st.seqs[sid].hash, i);
    KeysFoundAfter(st, sid, s, key, rs');
    KeylessOk(st.prefixes[key := rs'], s);
    LayoutItself(st.pool);
    PrefixInvAssembled(st, st.pool, sid, s, key, st.prefixes[key := rs']);
  }

  lemma KeylessOk(prefixes: map<string, seq<PrefixRecord>>, s: Sequence)
    requires s.key == ""
    ensures KeyOk(prefixes, s)
  {}

  lemma DropLastUser(st: Store, sid: nat, i: nat, q: Pool)
    requires PrefixInv(st) && sid in st.seqs && st.seqs[sid].key != "" && st.seqs[sid].key in st.prefixes
    requires SameLayout(st.pool, q)
    requires i < |st.prefixes[st.seqs[sid].key]|
    requires st.prefixes[st.seqs[sid].key][i].hash == st.seqs[sid].hash
    requires st.prefixes[st.seqs[sid].key][i].users == 1
    ensures var s, key := st.seqs[sid], st.seqs[sid].key;
            var rs := st.prefixes[key];
            var left := rs[..i] + rs[i + 1..];
            PrefixInv(st.(pool := q, seqs := st.seqs[sid := s.(key := "", hash := 0)],
                          prefixes := if left == [] then st.prefixes - {key} else st.prefixes[key := left]))
  {
    var key, hash := st.seqs[sid].key, st.seqs[sid].hash;
    var s, rs := st.seqs[sid].(key := "", hash := 0), st.prefixes[key];
    var left := rs[..i] + rs[i + 1..];
    assert RecordsOk(st.pool, st.seqs, key, rs);
    assert sid in Holders(st.seqs, key, hash);
    SingletonIs(Holders(st.seqs, key, hash), sid);
    LeftRecordsOk(st, sid, i, q);
    FindInLeft(rs, i);
    assert KeyOk(st.prefixes, s);
    hide RecordsOk, FindRecord, Holders, PrefixInv;
    KeysFoundAfter(st, sid, s, key, left);
    PrefixInvAssembled(st, q, sid, s, key, if left == [] then st.prefixes - {key} else st.prefixes[key := left]);
  }

  lemma FindInLeft(rs: seq<PrefixRecord>, i: nat)
    requires i < |rs|
    ensures forall h :: FindRecord(rs, h).Some? && h != rs[i].hash ==> FindRecord(rs[..i] + rs[i + 1..], h).Some?
  {
    var left := rs[..i] + rs[i + 1..];
    forall h | FindRecord(rs, h).Some? && h != rs[i].hash
      ensures FindRecord(left, h).Some?
    {
      var k := FindRecord(rs, h).value;
      FindRecordIff(left, h, if k < i then k else k - 1);
    }
  }

  lemma RecordsKept(p: Pool, q: Pool, rs: seq<PrefixRecord>)
    requires SameLayout(p, q)
    ensures forall j :: 0 <= j < |rs| && RecordOk(p, rs[j]) ==> RecordOk(q, rs[j])
  {
    hide NoRepeats;
  }

  lemma LeftRecordsOk(st: Store, sid: nat, i: nat, q: Pool)
    requires PrefixInv(st) && sid in st.seqs && st.seqs[sid].key in st.prefixes && SameLayout(st.pool, q)
    requires i < |st.prefixes[st.seqs[sid].key]|
    requires st.prefixes[st.seqs[sid].key][i].hash == st.seqs[sid].hash
    ensures var key := st.seqs[sid].key;
            var rs := st.prefixes[key];
            var left := rs[..i] + rs[i + 1..];
            left != [] ==> RecordsOk(q, st.seqs[sid := st.seqs[sid].(key := "", hash := 0)], key, left)
  {
    var key := st.seqs[sid].key;
    var s, rs := st.seqs[sid].(key := "", hash := 0), st.prefixes[key];
    var left := rs[..i] + rs[i + 1..];
    assert RecordsOk(st.pool, st.seqs, key, rs);
    RecordsKept(st.pool, q, rs);
    hide RecordOk, PrefixInv, Holders, Counted;
    forall j | 0 <= j < |left|
      ensures RecordOk(q, left[j]) && Counted(st.seqs[sid := s], key, left[j])
    {
      var k := if j < i then j else j + 1;
      assert left[j] == rs[k] && RecordOk(st.pool, rs[k]);
      CountedElsewhere(st.seqs, sid, s, key, rs[k]);
    }
    LeftDistinct(rs, i);
  }

  lemma LeftDistinct(rs: seq<PrefixRecord>, i: nat)
    requires DistinctHashes(rs) && i < |rs|
    ensures DistinctHashes(rs[..i] + rs[i + 1..])
  {
    var left := rs[..i] + rs[i + 1..];
    forall j, j' | 0 <= j < j' < |left|
      ensures left[j].hash != left[j'].hash
    {
      assert left[j] == rs[if j < i then j else j + 1] && left[j'] == rs[if j' < i then j' else j' + 1];
    }
  }

  lemma SingletonIs(s: set<nat>, x: nat)
    requires |s| == 1 && x in s
    ensures s == {x}
  {
    assert |s - {x}| == 0;
    assert s == (s - {x}) + {x};
  }
}
