/**
  Reference conservation: every reference count equals the resident entries mapping the frame
  plus the prefix records pinning it, and every live swap slot belongs to one entry.
 */
module CacheAccounting {
  import opened SwapStore
  import opened FramePool
  import opened PageTable
  import opened CacheStore
  import opened Sums

  ghost function HeldBy(tables: seq<Table>): multiset<Res> {
    multiset(Flat(tables))
  }

  ghost function SequenceHolds(seqs: map<nat, Sequence>): map<nat, multiset<Res>> {
    map sid | sid in seqs :: HeldBy(seqs[sid].tables)
  }

  ghost function Pins(records: seq<PrefixRecord>): multiset<Res> {
    if records == [] then multiset{} else multiset(Frames(records[0].ids)) + Pins(records[1..])
  }

  ghost function PrefixHolds(prefixes: map<string, seq<PrefixRecord>>): map<string, multiset<Res>> {
    map key | key in prefixes :: Pins(prefixes[key])
  }

  /** Every reference a client of the pool holds: page-table entries and prefix pins. */
  ghost function Held(st: Store): multiset<Res> {
    SumMap(SequenceHolds(st.seqs)) + SumMap(PrefixHolds(st.prefixes))
  }

  /** Tables of one sequence: one per layer group, equally long, gap-free, no frame twice. */
  ghost predicate TablesOk(p: Pool, tables: seq<Table>) {
    && |tables| == TableCount(p)
    && (forall l :: 0 <= l < |tables| ==> TableOk(p, tables[l]) && |tables[l]| == |tables[0]|)
    && NoRepeats(Flat(tables))
  }

  ghost predicate TableOk(p: Pool, t: Table) {
    && Dense(t)
    && (t != [] ==> TokensPerBlock(p) > 0)
    && forall i :: 0 <= i < |t| ==> t[i].logical.count == TokensPerBlock(p)
  }

  ghost predicate NoRepeats(rs: seq<Res>) {
    forall r :: multiset(rs)[r] <= 1
  }

  ghost predicate MemoryInv(st: Store) {
    && Accounted(st.pool, Held(st))
    && forall sid :: sid in st.seqs ==> TablesOk(st.pool, st.seqs[sid].tables)
  }

  // ---- Positions in a flattened sequence ------------------------------------------------------

  lemma {:induction false} FlatHolds(tables: seq<Table>, l: nat, i: nat)
    requires l < |tables| && i < |tables[l]|
    ensures Where(tables[l][i]) in HeldBy(tables)
  {
    if l == 0 {
      assert Wheres(tables[0])[i] in Flat(tables);
    } else {
      FlatHolds(tables[1..], l - 1, i);
      assert Where(tables[l][i]) in Flat(tables[1..]);
    }
  }

  lemma {:induction false} FlatAppend(a: seq<Table>, b: seq<Table>)
    ensures Flat(a + b) == Flat(a) + Flat(b)
  {
    if a == [] {
      assert a + b == b;
    } else {
      assert (a + b)[1..] == a[1..] + b;
      FlatAppend(a[1..], b);
    }
  }

  /** Replacing one entry trades its reference and leaves every other where it was. */
  lemma FlatUpdate(tables: seq<Table>, l: nat, i: nat, e: Entry)
    requires l < |tables| && i < |tables[l]|
    ensures HeldBy(tables[l := tables[l][i := e]])
         == HeldBy(tables) - multiset{Where(tables[l][i])} + multiset{Where(e)}
  {
    var t := tables[l];
    var tables' := tables[l := t[i := e]];
    assert tables == tables[..l] + [t] + tables[l + 1..];
    assert tables' == tables[..l] + [t[i := e]] + tables[l + 1..];
    FlatOne(tables[..l], t, tables[l + 1..]);
    FlatOne(tables[..l], t[i := e], tables[l + 1..]);
    assert Wheres(t[i := e]) == Wheres(t)[i := Where(e)];
    assert Wheres(t)[i] == Where(t[i]);
  }

  lemma FlatOne(a: seq<Table>, t: Table, b: seq<Table>)
    ensures HeldBy(a + [t] + b) == HeldBy(a) + multiset(Wheres(t)) + HeldBy(b)
  {
    FlatAppend(a + [t], b);
    FlatAppend(a, [t]);
    assert Flat([t]) == Wheres(t) + Flat([]);
    assert Flat([t]) == Wheres(t);
  }

  lemma SameBlocks(p: Pool, q: Pool, tables: seq<Table>)
    requires SameContent(p, q, HeldBy(tables))
    ensures Blocks(q, tables) == Blocks(p, tables)
  {
    forall l, i | 0 <= l < |tables| && 0 <= i < |tables[l]|
      ensures Content(q, Where(tables[l][i])) == Content(p, Where(tables[l][i]))
    {
      FlatHolds(tables, l, i);
    }
    assert forall l :: 0 <= l < |tables| ==> TableBlocks(q, tables[l]) == TableBlocks(p, tables[l]);
  }

  // ---- Changing one sequence --------------------------------------------------------------------

  ghost function Own(st: Store, sid: nat): multiset<Res> {
    if sid in st.seqs then HeldBy(st.seqs[sid].tables) else multiset{}
  }

  /** What everyone but one sequence holds. */
  ghost function Rest(st: Store, sid: nat): multiset<Res> {
    SumMap(SequenceHolds(st.seqs) - {sid}) + SumMap(PrefixHolds(st.prefixes))
  }

  lemma HeldSplits(st: Store, sid: nat)
    ensures Held(st) == Rest(st, sid) + Own(st, sid)
  {
    var m := SequenceHolds(st.seqs);
    if sid in st.seqs {
      SumMapTake(m, sid);
    } else {
      assert m - {sid} == m;
    }
  }

  lemma RestHoldsOthers(st: Store, sid: nat, other: nat)
    requires other in st.seqs && other != sid
    ensures HeldBy(st.seqs[other].tables) <= Rest(st, sid)
  {
    SumMapHolds(SequenceHolds(st.seqs) - {sid}, other);
  }

  lemma SequenceHoldsAfterPut(seqs: map<nat, Sequence>, sid: nat, s: Sequence)
    ensures SequenceHolds(seqs[sid := s]) == SequenceHolds(seqs)[sid := HeldBy(s.tables)]
  {}

  lemma HeldAfterPut(st: Store, sid: nat, s: Sequence, p: Pool)
    ensures Held(st.(pool := p, seqs := st.seqs[sid := s])) == Rest(st, sid) + HeldBy(s.tables)
  {
    SequenceHoldsAfterPut(st.seqs, sid, s);
    SumMapPut(SequenceHolds(st.seqs), sid, HeldBy(s.tables));
  }

  lemma HeldAfterRemove(st: Store, sid: nat, p: Pool)
    ensures Held(st.(pool := p, seqs := st.seqs - {sid})) == Rest(st, sid)
  {
    assert SequenceHolds(st.seqs - {sid}) == SequenceHolds(st.seqs) - {sid};
  }

  lemma TablesOkOnSameLayout(p: Pool, q: Pool, tables: seq<Table>)
    requires SameLayout(p, q) && TablesOk(p, tables)
    ensures TablesOk(q, tables)
  {
    assert forall l :: 0 <= l < |tables| ==> TableOk(q, tables[l]);
  }

  lemma MemoryAccounts(st: Store)
    requires MemoryInv(st)
    ensures Accounted(st.pool, Held(st))
  {}

  lemma PoolIsValid(st: Store)
    requires MemoryInv(st)
    ensures ValidPool(st.pool)
  {}

  lemma TablesOkOf(st: Store, sid: nat)
    requires MemoryInv(st) && sid in st.seqs
    ensures TablesOk(st.pool, st.seqs[sid].tables)
  {}

  lemma OthersOkOnSameLayout(st: Store, q: Pool)
    requires MemoryInv(st) && SameLayout(st.pool, q)
    ensures forall sid :: sid in st.seqs ==> TablesOk(q, st.seqs[sid].tables)
  {
    forall sid | sid in st.seqs
      ensures TablesOk(q, st.seqs[sid].tables)
    {
      TablesOkOnSameLayout(st.pool, q, st.seqs[sid].tables);
    }
  }

  lemma MemoryInvAfterPut(st: Store, sid: nat, s: Sequence, p: Pool)
    requires MemoryInv(st) && SameLayout(st.pool, p)
    requires Accounted(p, Rest(st, sid) + HeldBy(s.tables)) && TablesOk(p, s.tables)
    ensures MemoryInv(st.(pool := p, seqs := st.seqs[sid := s]))
  {
    HeldAfterPut(st, sid, s, p);
    OthersOkOnSameLayout(st, p);
  }

  lemma MemoryInvAfterRemove(st: Store, sid: nat, p: Pool)
    requires MemoryInv(st) && SameLayout(st.pool, p) && Accounted(p, Rest(st, sid))
    ensures MemoryInv(st.(pool := p, seqs := st.seqs - {sid}))
  {
    HeldAfterRemove(st, sid, p);
    OthersOkOnSameLayout(st, p);
  }
}
