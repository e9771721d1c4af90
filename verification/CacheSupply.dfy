/**
  The supply behind the cache's answers: free frames, swap slots left, and for each block whether
  its frame is its own, shared, or in swap.  Together with the private copies it decides every
  refusal and every count an eviction reports.
 */
module CacheSupply {
  import opened Wrappers
  import opened Arithmetic
  import opened SwapStore
  import opened FramePool
  import opened PageTable
  import opened CacheStore
  import opened CacheAccounting
  import opened CacheLifecycle
  import opened PrivateStore
  import opened CacheRuns

  // ---- When a call succeeds ----------------------------------------------------------------------------

  /** Where a block's bytes are: in a frame nobody else holds, in a shared one, or in swap. */
  datatype Place = Alone | Together | Away

  /** All that answers may depend on besides the private copies: room in pool and swap, and where blocks are. */
  datatype Supply = Supply(free: nat, room: nat, width: nat, places: map<nat, seq<seq<Place>>>)

  ghost function PlaceOf(p: Pool, e: Entry): Place {
    if e.slot.Some? then Away else if Count(p, OnFrame(e.physical)) == 1 then Alone else Together
  }

  ghost function RowOf(p: Pool, t: Table): seq<Place> {
    seq(|t|, i requires 0 <= i < |t| => PlaceOf(p, t[i]))
  }

  ghost function PlacesOf(p: Pool, tables: seq<Table>): seq<seq<Place>> {
    seq(|tables|, l requires 0 <= l < |tables| => RowOf(p, tables[l]))
  }

  /** Swap slots left. */
  ghost function Room(p: Pool): nat {
    if p.swap.Some? && |p.swap.value.slots| <= p.swap.value.capacity then p.swap.value.capacity - |p.swap.value.slots| else 0
  }

  ghost function SupplyOf(st: Store): Supply {
    Supply(|st.pool.free|, Room(st.pool), st.pool.width, map sid | sid in st.seqs :: PlacesOf(st.pool, st.seqs[sid].tables))
  }

  ghost function CountIn(row: seq<Place>, place: Place): nat {
    if row == [] then 0 else (if row[0] == place then 1 else 0) + CountIn(row[1..], place)
  }

  ghost function CountInAll(rows: seq<seq<Place>>, place: Place): nat {
    if rows == [] then 0 else CountIn(rows[0], place) + CountInAll(rows[1..], place)
  }

  /** How many blocks of a sequence, or of several, are in such a place. */
  ghost function CountOf(s: Supply, sid: nat, place: Place): nat {
    if sid in s.places then CountInAll(s.places[sid], place) else 0
  }

  ghost function CountOfEach(s: Supply, ids: seq<nat>, place: Place): nat {
    if ids == [] then 0 else CountOf(s, ids[0], place) + CountOfEach(s, ids[1..], place)
  }

  ghost predicate Writeable(s: Supply, sid: nat, layer: nat, block: nat) {
    && sid in s.places && layer < |s.places[sid]| && block < |s.places[sid][layer]|
    && (s.places[sid][layer][block] == Alone || (s.places[sid][layer][block] == Together && s.free > 0))
  }

  /** The calls that answer yes or no, and exactly when they say yes. */
  ghost predicate Accepts(a: Private, s: Supply, op: Op) {
    match op
    case Create(sid, _) => sid !in a.seqs
    case ForkFrom(parent, child, _) => parent in a.seqs && child !in a.seqs && CountOf(s, parent, Away) == 0
    case Reserve(sid, tokens) => sid in a.seqs && a.tpb > 0 && CeilDiv(tokens, a.tpb) * a.tables <= s.free
    case Write(sid, token, layer, content) =>
      a.tpb > 0 && |content| == s.width && Writeable(s, sid, layer, token / a.tpb)
    case Restore(sid) => sid in a.seqs && CountOf(s, sid, Away) <= s.free
    case RestoreRequest(request) => exists ids :: Enumerates(a, request, ids) && CountOfEach(s, ids, Away) <= s.free
    case Publish(sid, key) =>
      && key != "" && sid in a.seqs && a.seqs[sid].blocks != [] && a.seqs[sid].blocks[0] != []
      && (a.seqs[sid].key == key || CountOf(s, sid, Away) == 0)
    case Attach(sid, key) =>
      && key != "" && sid in a.seqs && a.seqs[sid].blocks != [] && a.seqs[sid].blocks[0] == []
      && key in a.prefixes && |a.prefixes[key]| == 1
    case _ => true
  }

  /** An eviction takes the blocks nobody else holds, as far as the swap space has room. */
  ghost predicate Evicts(s: Supply, blocks: nat, result: nat, s': Supply) {
    result == Min(blocks, s.room) && s'.free == s.free + result && s'.room == s.room - result
  }

  /** What a call returns: how many frames an eviction freed, otherwise whether it was accepted. */
  ghost predicate AnswersAs(a: Private, s: Supply, op: Op, result: nat, s': Supply) {
    match op
    case Evict(sid) => Evicts(s, CountOf(s, sid, Alone), result, s')
    case EvictRequest(request) => exists ids :: Enumerates(a, request, ids) && Evicts(s, CountOfEach(s, ids, Alone), result, s')
    case _ => result > 0 <==> Accepts(a, s, op)
  }

  // ---- Counting places ---------------------------------------------------------------------------------

  lemma {:induction false} AwayCounted(p: Pool, t: Table)
    ensures CountIn(RowOf(p, t), Away) == SlotCount(t)
  {
    if t != [] {
      assert RowOf(p, t)[1..] == RowOf(p, t[1..]);
      AwayCounted(p, t[1..]);
    }
  }

  lemma {:induction false} AllAwayCounted(p: Pool, tables: seq<Table>)
    ensures CountInAll(PlacesOf(p, tables), Away) == SlotCountAll(tables)
  {
    if tables != [] {
      AwayCounted(p, tables[0]);
      AllAwayCounted(p, tables[1..]);
      assert PlacesOf(p, tables)[1..] == PlacesOf(p, tables[1..]);
    }
  }

  lemma {:induction false} NoSlotsIffResident(t: Table)
    ensures SlotCount(t) == 0 <==> forall i :: 0 <= i < |t| ==> t[i].slot.None?
  {
    if t != [] {
      NoSlotsIffResident(t[1..]);
      assert forall i :: 0 <= i < |t[1..]| ==> t[1..][i] == t[i + 1];
      assert forall i :: 1 <= i < |t| ==> t[i] == t[1..][i - 1];
    }
  }

  lemma {:induction false} NoneSwappedIffResident(tables: seq<Table>)
    ensures SlotCountAll(tables) == 0 <==> AllResident(tables)
  {
    if tables != [] {
      NoSlotsIffResident(tables[0]);
      NoneSwappedIffResident(tables[1..]);
      assert forall l :: 0 <= l < |tables[1..]| ==> tables[1..][l] == tables[l + 1];
      assert forall l :: 1 <= l < |tables| ==> tables[l] == tables[1..][l - 1];
    }
  }

  lemma AwayOfIs(st: Store, sid: nat)
    ensures CountOf(SupplyOf(st), sid, Away) == if sid in st.seqs then SlotCountAll(st.seqs[sid].tables) else 0
    ensures sid in st.seqs ==> (CountOf(SupplyOf(st), sid, Away) == 0 <==> AllResident(st.seqs[sid].tables))
  {
    if sid in st.seqs {
      AllAwayCounted(st.pool, st.seqs[sid].tables);
      NoneSwappedIffResident(st.seqs[sid].tables);
    }
  }

  lemma {:induction false} AwayOfEachIs(st: Store, ids: seq<nat>)
    ensures CountOfEach(SupplyOf(st), ids, Away) == SlotsNeeded(st, ids)
  {
    if ids != [] {
      AwayOfIs(st, ids[0]);
      AwayOfEachIs(st, ids[1..]);
    }
  }

  lemma {:induction false} CountOfSplit(s: Supply, ids: seq<nat>, more: seq<nat>, place: Place)
    ensures CountOfEach(s, ids + more, place) == CountOfEach(s, ids, place) + CountOfEach(s, more, place)
  {
    if ids == [] {
      assert ids + more == more;
    } else {
      assert (ids + more)[1..] == ids[1..] + more;
      CountOfSplit(s, ids[1..], more, place);
    }
  }

  lemma NoneListed(ids: seq<nat>)
    ensures ids != [] ==> exists x :: x in ids
  {
    if ids != [] {
      assert ids[0] in ids;
    }
  }

  /** The order in which a request's sequences are listed does not matter. */
  lemma {:induction false} CountOfAnyOrder(s: Supply, ids: seq<nat>, ids': seq<nat>, place: Place)
    requires Distinct(ids) && Distinct(ids') && forall x :: x in ids <==> x in ids'
    ensures CountOfEach(s, ids, place) == CountOfEach(s, ids', place)
    decreases |ids|
  {
    if ids == [] {
      NoneListed(ids');
    } else {
      assert ids[0] in ids';
      var k :| 0 <= k < |ids'| && ids'[k] == ids[0];
      TakeOut(s, ids', k, place);
      SplitKeepsMembers(ids, ids', k);
      hide CountOf, Distinct;
      CountOfAnyOrder(s, ids[1..], ids'[..k] + ids'[k + 1..], place);
    }
  }

  lemma TakeOut(s: Supply, ids: seq<nat>, k: nat, place: Place)
    requires k < |ids|
    ensures CountOfEach(s, ids, place) == CountOf(s, ids[k], place) + CountOfEach(s, ids[..k] + ids[k + 1..], place)
  {
    hide CountOf;
    var before, after := ids[..k], ids[k + 1..];
    assert ids == before + ([ids[k]] + after);
    CountOfSplit(s, before, [ids[k]] + after, place);
    CountOfSplit(s, before, after, place);
    assert ([ids[k]] + after)[1..] == after;
  }

  lemma SplitKeepsMembers(ids: seq<nat>, ids': seq<nat>, k: nat)
    requires Distinct(ids) && Distinct(ids') && (forall x :: x in ids <==> x in ids')
    requires ids != [] && k < |ids'| && ids'[k] == ids[0]
    ensures Distinct(ids[1..]) && Distinct(ids'[..k] + ids'[k + 1..])
    ensures forall x :: x in ids[1..] <==> x in ids'[..k] + ids'[k + 1..]
  {
    var left := ids'[..k] + ids'[k + 1..];
    assert ids' == ids'[..k] + [ids'[k]] + ids'[k + 1..];
    assert ids == [ids[0]] + ids[1..];
    forall x
      ensures x in left <==> x in ids' && x != ids[0]
    {
      if x in left {
        var j :| 0 <= j < |left| && left[j] == x;
        assert x == ids'[if j < k then j else j + 1];
      }
    }
  }

  // ---- How many blocks an eviction takes -----------------------------------------------------------------

  /** Counts change only for frames among these references, and only if nobody else held them. */
  ghost predicate OnlyAlone(p: Pool, q: Pool, rs: seq<Res>) {
    forall f: nat :: Count(q, OnFrame(f)) != Count(p, OnFrame(f)) ==> Count(p, OnFrame(f)) == 1 && OnFrame(f) in rs
  }

  lemma OnlyAloneJoins(p: Pool, q: Pool, q': Pool, a: seq<Res>, b: seq<Res>)
    requires OnlyAlone(p, q, a) && OnlyAlone(q, q', b) && forall r :: r in b ==> r !in a
    ensures OnlyAlone(p, q', a + b)
  {
    hide Count;
  }

  lemma NoRepeatsSplit(a: seq<Res>, b: seq<Res>)
    requires NoRepeats(a + b)
    ensures NoRepeats(a) && NoRepeats(b) && forall r :: r in b ==> r !in a
  {
    forall r
      ensures multiset(a)[r] <= 1 && multiset(b)[r] <= 1 && (r in b ==> r !in a)
    {
      assert multiset(a + b)[r] == multiset(a)[r] + multiset(b)[r];
      assert r in a ==> r in multiset(a);
      assert r in b ==> r in multiset(b);
    }
  }

  lemma OneEviction(p: Pool, f: nat)
    requires ValidPool(p)
    ensures var (q, slot) := SwapOut(p, f);
            && (slot.Some? <==> Count(p, OnFrame(f)) == 1 && Room(p) > 0)
            && OnlyAlone(p, q, [OnFrame(f)])
            && Room(q) == Room(p) - if slot.Some? then 1 else 0
  {
    if p.swap.Some? && f < |p.infos| && p.infos[f].refs == 1 {
      StoreThenLoad(p.swap.value, p.bytes[f], p.bytes[f], 0);
    }
  }

  lemma RowKept(p: Pool, q: Pool, t: Table, rs: seq<Res>)
    requires OnlyAlone(p, q, rs) && forall i :: 0 <= i < |t| && Where(t[i]) in rs ==> Count(p, Where(t[i])) != 1
    ensures RowOf(q, t) == RowOf(p, t)
  {
    hide Count;
    forall i | 0 <= i < |t|
      ensures PlaceOf(q, t[i]) == PlaceOf(p, t[i])
    {
      assert Where(t[i]) in rs ==> Count(p, Where(t[i])) != 1;
    }
  }

  lemma RowHead(p: Pool, t: Table)
    requires t != []
    ensures CountIn(RowOf(p, t), Alone) == (if PlaceOf(p, t[0]) == Alone then 1 else 0) + CountIn(RowOf(p, t[1..]), Alone)
    ensures Wheres(t) == [Where(t[0])] + Wheres(t[1..])
    ensures forall i :: 0 <= i < |t[1..]| ==> Where(t[1..][i]) in Wheres(t[1..])
  {
    hide Count;
    assert RowOf(p, t)[1..] == RowOf(p, t[1..]);
    assert forall i :: 0 <= i < |t[1..]| ==> Wheres(t[1..])[i] == Where(t[1..][i]);
  }

  /** The first entry's turn: it goes to swap exactly if nobody else holds its frame and there is room. */
  lemma EntryEviction(p: Pool, e: Entry)
    requires ValidPool(p)
    ensures var (q, slot) := if e.slot.Some? then (p, None) else SwapOut(p, e.physical);
            && (slot.Some? <==> PlaceOf(p, e) == Alone && Room(p) > 0)
            && OnlyAlone(p, q, [Where(e)])
            && Room(q) == Room(p) - if slot.Some? then 1 else 0
  {
    hide ValidPool, Count, Room, SwapOut;
    if e.slot.None? {
      OneEviction(p, e.physical);
    }
  }

  lemma SwapOutTableUnfolds(p: Pool, t: Table)
    requires ValidPool(p) && t != []
    ensures var (q, slot) := if t[0].slot.Some? then (p, None) else SwapOut(p, t[0].physical);
            var r, rest := SwapOutTable(p, t), SwapOutTable(q, t[1..]);
            r.0 == rest.0 && r.2 == rest.2 + if slot.Some? then 1 else 0
  {
    hide ValidPool, SwapOut;
  }

  lemma {:induction false} TableEvictions(p: Pool, t: Table)
    requires ValidPool(p) && NoRepeats(Wheres(t))
    ensures var (q, _, n) := SwapOutTable(p, t);
            n == Min(CountIn(RowOf(p, t), Alone), Room(p)) && Room(q) == Room(p) - n && OnlyAlone(p, q, Wheres(t))
    decreases |t|
  {
    hide ValidPool, Count, Room, SwapOut, PlaceOf, RowOf, OnlyAlone, Where, Wheres, NoRepeats;
    if t == [] {
      NothingEvicted(p);
    } else {
      var (q, slot) := if t[0].slot.Some? then (p, None) else SwapOut(p, t[0].physical);
      EntryEviction(p, t[0]);
      RowHead(p, t);
      NoRepeatsSplit([Where(t[0])], Wheres(t[1..]));
      RowKept(p, q, t[1..], [Where(t[0])]);
      TableEvictions(q, t[1..]);
      SwapOutTableUnfolds(p, t);
      OnlyAloneJoins(p, q, SwapOutTable(q, t[1..]).0, [Where(t[0])], Wheres(t[1..]));
    }
  }

  lemma NothingEvicted(p: Pool)
    ensures CountIn(RowOf(p, []), Alone) == 0 && OnlyAlone(p, p, []) && OnlyAlone(p, p, Wheres([])) && PlacesOf(p, []) == []
  {}

  lemma TablesHead(p: Pool, tables: seq<Table>)
    requires tables != []
    ensures CountInAll(PlacesOf(p, tables), Alone) == CountIn(RowOf(p, tables[0]), Alone) + CountInAll(PlacesOf(p, tables[1..]), Alone)
    ensures Flat(tables) == Wheres(tables[0]) + Flat(tables[1..])
  {
    hide Count, RowOf, CountIn;
    assert PlacesOf(p, tables)[1..] == PlacesOf(p, tables[1..]);
  }

  lemma PlacesKept(p: Pool, q: Pool, tables: seq<Table>, rs: seq<Res>)
    requires OnlyAlone(p, q, rs) && forall r :: r in Flat(tables) && r in rs ==> Count(p, r) != 1
    ensures PlacesOf(q, tables) == PlacesOf(p, tables)
  {
    hide OnlyAlone, RowOf, Where, Count;
    forall l | 0 <= l < |tables|
      ensures RowOf(q, tables[l]) == RowOf(p, tables[l])
    {
      forall i | 0 <= i < |tables[l]| && Where(tables[l][i]) in rs
        ensures Count(p, Where(tables[l][i])) != 1
      {
        FlatHolds(tables, l, i);
      }
      RowKept(p, q, tables[l], rs);
    }
  }

  lemma SwapOutTablesUnfolds(p: Pool, tables: seq<Table>)
    requires ValidPool(p)
    ensures var r := SwapOutTables(p, tables);
            if tables == [] then r.0 == p && r.2 == 0 else
              var first := SwapOutTable(p, tables[0]);
              var rest := SwapOutTables(first.0, tables[1..]);
              r.0 == rest.0 && r.2 == first.2 + rest.2
  {
    hide ValidPool, SwapOutTable;
  }

  lemma {:induction false} TablesEvictions(p: Pool, tables: seq<Table>)
    requires ValidPool(p) && NoRepeats(Flat(tables))
    ensures var (q, _, n) := SwapOutTables(p, tables);
            && n == Min(CountInAll(PlacesOf(p, tables), Alone), Room(p)) && Room(q) == Room(p) - n
            && OnlyAlone(p, q, Flat(tables))
    decreases |tables|
  {
    hide ValidPool, Count, CountIn, Room, SwapOutTable, SwapOutTables, RowOf, PlacesOf, OnlyAlone, Wheres, NoRepeats;
    SwapOutTablesUnfolds(p, tables);
    if tables == [] {
      NothingEvicted(p);
    } else {
      TablesHead(p, tables);
      NoRepeatsSplit(Wheres(tables[0]), Flat(tables[1..]));
      TableEvictions(p, tables[0]);
      var (q, _, _) := SwapOutTable(p, tables[0]);
      PlacesKept(p, q, tables[1..], Wheres(tables[0]));
      TablesEvictions(q, tables[1..]);
      OnlyAloneJoins(p, q, SwapOutTables(q, tables[1..]).0, Wheres(tables[0]), Flat(tables[1..]));
    }
  }

  lemma CountOfIs(st: Store, sid: nat, place: Place)
    ensures CountOf(SupplyOf(st), sid, place) == if sid in st.seqs then CountInAll(PlacesOf(st.pool, st.seqs[sid].tables), place) else 0
  {
    hide PlacesOf, Room;
  }

  lemma EvictsIs(st: Store, blocks: nat, n: nat, st': Store)
    requires n == Min(blocks, Room(st.pool)) && Room(st'.pool) == Room(st.pool) - n && |st'.pool.free| == |st.pool.free| + n
    ensures Evicts(SupplyOf(st), blocks, n, SupplyOf(st'))
  {
    hide PlacesOf, Room, Min;
  }

  lemma EvictsShows(st: Store, blocks: nat, n: nat, st': Store)
    requires Evicts(SupplyOf(st), blocks, n, SupplyOf(st'))
    ensures n == Min(blocks, Room(st.pool)) && Room(st'.pool) == Room(st.pool) - n && |st'.pool.free| == |st.pool.free| + n
  {
    hide PlacesOf, Room, Min;
  }

  lemma SwapOutSequenceUnfolds(st: Store, sid: nat)
    requires ValidPool(st.pool)
    ensures var (st', n) := SwapOutSequence(st, sid);
            if sid !in st.seqs then st' == st && n == 0 else
              var r := SwapOutTables(st.pool, st.seqs[sid].tables);
              st'.pool == r.0 && n == r.2
  {
    hide ValidPool, SwapOutTables;
  }

  lemma SharedCounts(st: Store, sid: nat, other: nat, r: Res)
    requires MemoryInv(st) && sid in st.seqs && other in st.seqs && other != sid
    requires r in Flat(st.seqs[sid].tables) && r in Flat(st.seqs[other].tables)
    ensures Count(st.pool, r) >= 2
  {
    HeldSplits(st, sid);
    RestHoldsOthers(st, sid, other);
    MemoryAccounts(st);
    assert Held(st)[r] == Count(st.pool, r);
    assert r in HeldBy(st.seqs[sid].tables) && r in HeldBy(st.seqs[other].tables);
    hide MemoryInv, Accounted, Count, Rest, Held, Flat;
    assert HeldBy(st.seqs[other].tables)[r] <= Rest(st, sid)[r];
  }

  /** A sequence's frames with a single reference are in nobody else's tables. */
  lemma AloneIsNobodyElses(st: Store, sid: nat, other: nat, q: Pool)
    requires MemoryInv(st) && sid in st.seqs && other in st.seqs && other != sid
    requires OnlyAlone(st.pool, q, Flat(st.seqs[sid].tables))
    ensures PlacesOf(q, st.seqs[other].tables) == PlacesOf(st.pool, st.seqs[other].tables)
  {
    hide MemoryInv, Count, PlacesOf;
    var own, theirs := Flat(st.seqs[sid].tables), Flat(st.seqs[other].tables);
    forall r | r in theirs && r in own
      ensures Count(st.pool, r) != 1
    {
      SharedCounts(st, sid, other, r);
    }
    PlacesKept(st.pool, q, st.seqs[other].tables, own);
  }

  /** Evicting a sequence takes exactly its unshared resident blocks that fit, and moves nobody else's. */
  lemma SequenceEvictions(st: Store, sid: nat)
    requires MemoryInv(st)
    ensures var (st', n) := SwapOutSequence(st, sid);
            && Evicts(SupplyOf(st), CountOf(SupplyOf(st), sid, Alone), n, SupplyOf(st'))
            && forall other :: other != sid ==> CountOf(SupplyOf(st'), other, Alone) == CountOf(SupplyOf(st), other, Alone)
  {
    hide *;
    PoolIsValid(st);
    SwapOutRefines(st, sid);
    SwapOutSequenceUnfolds(st, sid);
    var (st', n) := SwapOutSequence(st, sid);
    CountOfIs(st, sid, Alone);
    if sid in st.seqs {
      TablesOkOf(st, sid);
      TablesOkNoRepeats(st.pool, st.seqs[sid].tables);
      TablesEvictions(st.pool, st.seqs[sid].tables);
    } else {
      MinIs(0, Room(st.pool));
    }
    EvictsIs(st, CountOf(SupplyOf(st), sid, Alone), n, st');
    forall other | other != sid
      ensures CountOf(SupplyOf(st'), other, Alone) == CountOf(SupplyOf(st), other, Alone)
    {
      CountOfIs(st, other, Alone);
      CountOfIs(st', other, Alone);
      if sid in st.seqs && other in st.seqs {
        AloneIsNobodyElses(st, sid, other, st'.pool);
      }
    }
  }

  lemma TablesOkNoRepeats(p: Pool, tables: seq<Table>)
    requires TablesOk(p, tables)
    ensures NoRepeats(Flat(tables))
  {}

  lemma {:induction false} CountsAgree(s: Supply, s': Supply, ids: seq<nat>, place: Place)
    requires forall sid :: sid in ids ==> CountOf(s', sid, place) == CountOf(s, sid, place)
    ensures CountOfEach(s', ids, place) == CountOfEach(s, ids, place)
  {
    hide CountOf;
    if ids != [] {
      CountsAgree(s, s', ids[1..], place);
    }
  }

  lemma {:induction false} EachEvictions(st: Store, ids: seq<nat>)
    requires MemoryInv(st) && Distinct(ids)
    ensures var (st', n) := SwapOutEach(st, ids);
            Evicts(SupplyOf(st), CountOfEach(SupplyOf(st), ids, Alone), n, SupplyOf(st'))
    decreases |ids|
  {
    hide MemoryInv, ValidPool, SupplyOf, CountOf, Evicts, SwapOutSequence, Room;
    PoolIsValid(st);
    if ids == [] {
      MinIs(0, Room(st.pool));
      EvictsIs(st, 0, 0, st);
    } else {
      SequenceEvictions(st, ids[0]);
      SwapOutRefines(st, ids[0]);
      var (st1, n1) := SwapOutSequence(st, ids[0]);
      var (st2, n2) := SwapOutEach(st1, ids[1..]);
      CountsAgree(SupplyOf(st), SupplyOf(st1), ids[1..], Alone);
      EachEvictions(st1, ids[1..]);
      EvictsShows(st, CountOf(SupplyOf(st), ids[0], Alone), n1, st1);
      EvictsShows(st1, CountOfEach(SupplyOf(st), ids[1..], Alone), n2, st2);
      EvictsIs(st, CountOfEach(SupplyOf(st), ids, Alone), n1 + n2, st2);
    }
  }
}
