/**
  The cache manager object over an allocator object.  `SequenceState` and `PrefixRecord` are
  value members of maps in the program and stay values here; every method's loops follow the
  program's and are proved against the store model.
 */
module CacheManager {
  import opened Wrappers
  import opened Arithmetic
  import opened SwapStore
  import opened FramePool
  import opened Allocator
  import opened PageTable
  import opened CacheStore
  import opened CacheAccounting
  import opened CacheTables
  import opened CacheRefinement
  import opened CachePrefixes
  import opened CacheRuns
  import opened CacheTheorems

  // ---- Loop arithmetic: what is done plus what is left -----------------------------------------

  lemma GrowTablesStep(p: Pool, tables: seq<Table>, sid: nat, tpb: nat, count: nat, done: seq<Table>)
    requires ValidPool(p) && tables != []
    ensures var (p1, t1) := GrowTable(p, tables[0], sid, tpb, |tables[0]|, count);
            var r, r1 := GrowTables(p, tables, sid, tpb, count), GrowTables(p1, tables[1..], sid, tpb, count);
            r.0 == r1.0 && done + r.1 == (done + [t1]) + r1.1
  {
    hide ValidPool, GrowTable;
  }

  lemma {:induction false} ConcatSwapOut(p: Pool, tables: seq<Table>, done: seq<Table>, n: nat)
    requires ValidPool(p) && tables != []
    ensures var (p1, t1, n1) := SwapOutTable(p, tables[0]);
            var r, r1 := SwapOutTables(p, tables), SwapOutTables(p1, tables[1..]);
            r.0 == r1.0 && done + r.1 == (done + [t1]) + r1.1 && n + r.2 == (n + n1) + r1.2
  {}

  lemma {:induction false} ConcatSwapIn(p: Pool, tables: seq<Table>, done: seq<Table>)
    requires ValidPool(p) && tables != []
    ensures var (p1, t1) := SwapInTable(p, tables[0]);
            var r, r1 := SwapInTables(p, tables), SwapInTables(p1, tables[1..]);
            r.0 == r1.0 && done + r.1 == (done + [t1]) + r1.1
  {}

  // ---- Nested loops over one sequence's tables, against the allocator ---------------------------

  method GrowTableOn(a: MemoryAllocator, table: Table, sid: nat, tpb: nat, count: nat) returns (table': Table)
    requires a.Valid() && count <= |a.freeList|
    modifies a.Repr()
    ensures a.Valid() && a.backend == old(a.backend)
    ensures (a.Model(), table') == GrowTable(old(a.Model()), table, sid, tpb, |table|, count)
    ensures |a.freeList| == |old(a.freeList)| - count
  {
    hide GrowTable, Allocate, ValidPool, MapEntry;
    table' := table;
    var base := |table|;
    var offset := 0;
    while offset < count
      invariant offset <= count
      invariant a.Valid() && a.backend == old(a.backend)
      invariant |a.freeList| == |old(a.freeList)| - offset
      invariant GrowTable(a.Model(), table', sid, tpb, base + offset, count - offset)
             == GrowTable(old(a.Model()), table, sid, tpb, base, count)
    {
      GrowTableStep(a.Model(), table', sid, tpb, base + offset, count - offset);
      var physical := a.AllocateFrame();
      if physical.None? {
        assert false;
      } else {
        var index := base + offset;
        table' := MapEntry(table', LogicalBlock(sid, index, index * tpb, tpb), physical.value, true);
      }
      offset := offset + 1;
    }
    GrowTableDone(a.Model(), table', sid, tpb, base + count);
  }

  lemma GrowTablesDone(p: Pool, sid: nat, tpb: nat, count: nat, done: seq<Table>)
    requires ValidPool(p)
    ensures GrowTables(p, [], sid, tpb, count) == (p, []) && done + [] == done
  {}

  method GrowTablesOn(a: MemoryAllocator, tables: seq<Table>, sid: nat, tpb: nat, count: nat) returns (grown: seq<Table>)
    requires a.Valid() && count * |tables| <= |a.freeList|
    modifies a.Repr()
    ensures a.Valid() && a.backend == old(a.backend)
    ensures (a.Model(), grown) == GrowTables(old(a.Model()), tables, sid, tpb, count)
  {
    hide GrowTables, GrowTable, ValidPool;
    ghost var p := a.Model();
    ghost var result := GrowTables(p, tables, sid, tpb, count);
    ghost var left := count * |tables|;
    grown := [];
    var l := 0;
    assert tables[0..] == tables && [] + result.1 == result.1;
    while l < |tables|
      invariant l <= |tables|
      invariant a.Valid() && a.backend == old(a.backend)
      invariant left == count * (|tables| - l) && left <= |a.freeList|
      invariant result.0 == GrowTables(a.Model(), tables[l..], sid, tpb, count).0
      invariant result.1 == grown + GrowTables(a.Model(), tables[l..], sid, tpb, count).1
    {
      assert tables[l..][0] == tables[l] && tables[l..][1..] == tables[l + 1..];
      GrowTablesStep(a.Model(), tables[l..], sid, tpb, count, grown);
      OneLess(count, |tables| - l);
      left := left - count;
      var table := GrowTableOn(a, tables[l], sid, tpb, count);
      grown := grown + [table];
      l := l + 1;
    }
    assert tables[l..] == [];
    GrowTablesDone(a.Model(), sid, tpb, count, grown);
  }

  lemma OneLess(count: nat, n: nat)
    requires n > 0
    ensures count * n - count == count * (n - 1) >= 0
  {}

  lemma RetainOne(p: Pool, r: Res, rest: seq<Res>)
    requires ValidPool(p) && r.OnFrame?
    ensures RetainAll(p, [r] + rest) == RetainAll(Retain(p, r.frame), rest)
  {
    assert ([r] + rest)[1..] == rest;
  }

  lemma FreeFirst(p: Pool, r: Res, rest: seq<Res>)
    requires ValidPool(p)
    ensures FreeAll(p, [r] + rest) == FreeAll(FreeOne(p, r), rest)
  {
    assert ([r] + rest)[1..] == rest;
  }

  method RetainTableOn(a: MemoryAllocator, table: Table, ghost rest: seq<Res>)
    requires a.Valid() && forall i :: 0 <= i < |table| ==> table[i].slot.None?
    modifies a.Repr()
    ensures a.Valid() && a.backend == old(a.backend)
    ensures RetainAll(a.Model(), rest) == RetainAll(old(a.Model()), Wheres(table) + rest)
  {
    hide ValidPool, RetainAll, Retain;
    ghost var p := a.Model();
    var i := 0;
    assert Wheres(table)[0..] == Wheres(table);
    while i < |table|
      invariant i <= |table|
      invariant a.Valid() && a.backend == old(a.backend)
      invariant RetainAll(a.Model(), Wheres(table)[i..] + rest) == RetainAll(p, Wheres(table) + rest)
    {
      assert Wheres(table)[i..] + rest == [OnFrame(table[i].physical)] + (Wheres(table)[i + 1..] + rest);
      RetainOne(a.Model(), OnFrame(table[i].physical), Wheres(table)[i + 1..] + rest);
      a.RetainFrame(table[i].physical);
      i := i + 1;
    }
    assert Wheres(table)[i..] + rest == rest;
  }

  /** Returns one table's references: frames are released, swap slots discarded. */
  method FreeTableOn(a: MemoryAllocator, table: Table, ghost rest: seq<Res>)
    requires a.Valid()
    modifies a.Repr()
    ensures a.Valid() && a.backend == old(a.backend)
    ensures FreeAll(a.Model(), rest) == FreeAll(old(a.Model()), Wheres(table) + rest)
  {
    hide ValidPool, FreeAll, Release, DiscardSwapped;
    ghost var p := a.Model();
    var i := 0;
    assert Wheres(table)[0..] == Wheres(table);
    while i < |table|
      invariant i <= |table|
      invariant a.Valid() && a.backend == old(a.backend)
      invariant FreeAll(a.Model(), Wheres(table)[i..] + rest) == FreeAll(p, Wheres(table) + rest)
    {
      assert Wheres(table)[i..] + rest == [Where(table[i])] + (Wheres(table)[i + 1..] + rest);
      FreeFirst(a.Model(), Where(table[i]), Wheres(table)[i + 1..] + rest);
      if table[i].slot.Some? {
        a.DiscardSlot(table[i].slot.value);
      } else {
        a.ReleaseFrame(table[i].physical);
      }
      i := i + 1;
    }
    assert Wheres(table)[i..] + rest == rest;
  }

  method FreeTablesOn(a: MemoryAllocator, tables: seq<Table>)
    requires a.Valid()
    modifies a.Repr()
    ensures a.Valid() && a.backend == old(a.backend)
    ensures a.Model() == FreeAll(old(a.Model()), Flat(tables))
  {
    ghost var p := a.Model();
    var l := 0;
    assert tables[0..] == tables;
    while l < |tables|
      invariant l <= |tables|
      invariant a.Valid() && a.backend == old(a.backend)
      invariant FreeAll(a.Model(), Flat(tables[l..])) == FreeAll(p, Flat(tables))
    {
      assert tables[l..][1..] == tables[l + 1..];
      FreeTableOn(a, tables[l], Flat(tables[l + 1..]));
      l := l + 1;
    }
    assert tables[l..] == [];
  }

  method ReleaseFramesOn(a: MemoryAllocator, ids: seq<nat>)
    requires a.Valid()
    modifies a.Repr()
    ensures a.Valid() && a.backend == old(a.backend)
    ensures a.Model() == FreeAll(old(a.Model()), Frames(ids))
  {
    ghost var p := a.Model();
    var i := 0;
    assert Frames(ids)[0..] == Frames(ids);
    while i < |ids|
      invariant i <= |ids|
      invariant a.Valid() && a.backend == old(a.backend)
      invariant FreeAll(a.Model(), Frames(ids)[i..]) == FreeAll(p, Frames(ids))
    {
      assert Frames(ids)[i..] == [OnFrame(ids[i])] + Frames(ids)[i + 1..];
      a.ReleaseFrame(ids[i]);
      i := i + 1;
    }
    assert Frames(ids)[i..] == [];
  }

  method RetainFramesOn(a: MemoryAllocator, ids: seq<nat>)
    requires a.Valid()
    modifies a.Repr()
    ensures a.Valid() && a.backend == old(a.backend)
    ensures a.Model() == RetainAll(old(a.Model()), Frames(ids))
  {
    ghost var p := a.Model();
    var i := 0;
    assert Frames(ids)[0..] == Frames(ids);
    while i < |ids|
      invariant i <= |ids|
      invariant a.Valid() && a.backend == old(a.backend)
      invariant RetainAll(a.Model(), Frames(ids)[i..]) == RetainAll(p, Frames(ids))
    {
      assert Frames(ids)[i..] == [OnFrame(ids[i])] + Frames(ids)[i + 1..];
      a.RetainFrame(ids[i]);
      i := i + 1;
    }
    assert Frames(ids)[i..] == [];
  }

  /** The positions from `a` on whose entries are not in swap. */
  function Residents(t: Table, a: nat): (r: seq<nat>)
    requires a <= |t|
    ensures forall i :: 0 <= i < |r| ==> a <= r[i] < |t|
    decreases |t| - a
  {
    if a == |t| then [] else (if t[a].slot.None? then [a] else []) + Residents(t, a + 1)
  }

  /** Evicting a list of entries in place, one after the other. */
  function EvictAt(p: Pool, t: Table, at: seq<nat>): (r: (Pool, Table, nat))
    requires ValidPool(p) && forall i :: 0 <= i < |at| ==> at[i] < |t|
    ensures ValidPool(r.0)
    decreases |at|
  {
    if at == [] then (p, t, 0)
    else
      var (q, slot) := SwapOut(p, t[at[0]].physical);
      var (q', t', n) := EvictAt(q, if slot.Some? then t[at[0] := t[at[0]].(slot := slot)] else t, at[1..]);
      (q', t', n + if slot.Some? then 1 else 0)
  }

  lemma {:induction false} ResidentsIgnoreEarlier(t: Table, u: Table, a: nat)
    requires a <= |t| == |u| && forall i :: a <= i < |t| ==> t[i] == u[i]
    ensures Residents(t, a) == Residents(u, a)
    decreases |t| - a
  {
    if a < |t| {
      ResidentsIgnoreEarlier(t, u, a + 1);
    }
  }

  lemma EvictOne(p: Pool, t: Table, at: seq<nat>)
    requires ValidPool(p) && at != [] && forall i :: 0 <= i < |at| ==> at[i] < |t|
    ensures var (q, slot) := SwapOut(p, t[at[0]].physical);
            var t1 := if slot.Some? then t[at[0] := t[at[0]].(slot := slot)] else t;
            var r, r1 := EvictAt(p, t, at), EvictAt(q, t1, at[1..]);
            r == (r1.0, r1.1, (if slot.Some? then 1 else 0) + r1.2)
  {}

  lemma EvictNone(p: Pool, t: Table)
    requires ValidPool(p)
    ensures EvictAt(p, t, []) == (p, t, 0)
  {}

  lemma SwapOutTableStep(p: Pool, t: Table)
    requires ValidPool(p) && t != []
    ensures var (q, slot) := if t[0].slot.Some? then (p, None) else SwapOut(p, t[0].physical);
            var e := if slot.Some? then t[0].(slot := slot) else t[0];
            var r, r1 := SwapOutTable(p, t), SwapOutTable(q, t[1..]);
            r == (r1.0, [e] + r1.1, (if slot.Some? then 1 else 0) + r1.2)
  {}

  lemma PrefixPlus(t: Table, u: Table, a: nat, e: Entry, tail: Table)
    requires a < |t| && u == t[a := e]
    ensures u[..a + 1] + tail == t[..a] + ([e] + tail)
    ensures u[a + 1..] == t[a..][1..] && t[a..][0] == t[a]
  {}

  lemma ResidentsUnfold(t: Table, a: nat)
    requires a <= |t|
    ensures a == |t| ==> Residents(t, a) == []
    ensures a < |t| && t[a].slot.Some? ==> Residents(t, a) == Residents(t, a + 1)
    ensures a < |t| && t[a].slot.None? ==>
              Residents(t, a) != [] && Residents(t, a)[0] == a && Residents(t, a)[1..] == Residents(t, a + 1)
  {}

  /** One pass that collects and one that evicts do what a single pass over the table does. */
  lemma {:induction false} TwoPassesEvict(p: Pool, t: Table, a: nat)
    requires ValidPool(p) && a <= |t|
    ensures var r, s := EvictAt(p, t, Residents(t, a)), SwapOutTable(p, t[a..]);
            r == (s.0, t[..a] + s.1, s.2)
    decreases |t| - a
  {
    hide *;
    ResidentsUnfold(t, a);
    if a == |t| {
      EvictNone(p, t);
      SwapOutTableDone(p);
      assert t[a..] == [] && t[..a] + [] == t;
    } else {
      SwapOutTableStep(p, t[a..]);
      if t[a].slot.Some? {
        assert t[a := t[a]] == t;
        TwoPassesEvict(p, t, a + 1);
        PrefixPlus(t, t, a, t[a], SwapOutTable(p, t[a + 1..]).1);
      } else {
        EvictOne(p, t, Residents(t, a));
        var (q, slot) := SwapOut(p, t[a].physical);
        var e := if slot.Some? then t[a].(slot := slot) else t[a];
        var t1 := t[a := e];
        ResidentsIgnoreEarlier(t, t1, a + 1);
        TwoPassesEvict(q, t1, a + 1);
        PrefixPlus(t, t1, a, e, SwapOutTable(q, t1[a + 1..]).1);
        assert slot.None? ==> t1 == t;
      }
    }
  }

  lemma SwapOutTableDone(p: Pool)
    requires ValidPool(p)
    ensures SwapOutTable(p, []) == (p, [], 0)
  {}

  method ResidentIndices(table: Table) returns (resident: seq<nat>)
    requires Dense(table)
    ensures resident == Residents(table, 0)
  {
    hide Residents;
    resident := [];
    var i := 0;
    assert [] + Residents(table, 0) == Residents(table, 0);
    while i < |table|
      invariant i <= |table| && resident + Residents(table, i) == Residents(table, 0)
    {
      ResidentsFrom(table, i, resident);
      if table[i].slot.None? {
        resident := resident + [table[i].logical.index];
      }
      i := i + 1;
    }
    ResidentsFrom(table, i, resident);
  }

  lemma ResidentsFrom(t: Table, a: nat, done: seq<nat>)
    requires a <= |t|
    ensures a == |t| ==> done + Residents(t, a) == done
    ensures a < |t| ==> done + Residents(t, a) == (if t[a].slot.None? then done + [a] else done) + Residents(t, a + 1)
  {}

  /** Collects the resident indices first, then looks each entry up again to evict it. */
  method SwapOutTableOn(a: MemoryAllocator, table: Table) returns (table': Table, swapped: nat)
    requires a.Valid() && Dense(table)
    modifies a.Repr()
    ensures a.Valid() && a.backend == old(a.backend)
    ensures (a.Model(), table', swapped) == SwapOutTable(old(a.Model()), table)
  {
    hide SwapOutTable, SwapOut, ValidPool, Find, LowerBound, EvictAt, Residents;
    TwoPassesEvict(a.Model(), table, 0);
    var resident := ResidentIndices(table);
    table', swapped := table, 0;
    var j := 0;
    assert resident[0..] == resident && table[0..] == table && table[..0] + SwapOutTable(a.Model(), table).1 == SwapOutTable(a.Model(), table).1;
    ghost var result := EvictAt(a.Model(), table, resident);
    while j < |resident|
      invariant j <= |resident| && |table'| == |table| && Dense(table')
      invariant a.Valid() && a.backend == old(a.backend)
      invariant forall i :: 0 <= i < |resident| ==> resident[i] < |table|
      invariant var r := EvictAt(a.Model(), table', resident[j..]); result == (r.0, r.1, swapped + r.2)
    {
      assert resident[j..][0] == resident[j] && resident[j..][1..] == resident[j + 1..];
      EvictOne(a.Model(), table', resident[j..]);
      DenseLowerBound(table', resident[j]);
      var entry := Find(table', resident[j]);
      var slot := a.SwapOutFrame(table'[entry.value].physical);
      if slot.Some? {
        table' := table'[entry.value := table'[entry.value].(slot := slot)];
        swapped := swapped + 1;
      }
      j := j + 1;
    }
    assert resident[j..] == [];
    EvictNone(a.Model(), table');
  }

  lemma PutInPlace(before: Table, table: Table, done: Table, at: nat, index: nat, e: Entry)
    requires |done| == at <= index < |table| && before == done + table[at..]
    requires Dense(before) && e.logical == table[index].logical
    ensures before[index] == table[index]
    ensures before[index := e] == (done + table[at..index] + [e]) + table[index + 1..]
    ensures Dense(before[index := e])
  {}

  lemma SwapOutTablesDone(p: Pool, done: seq<Table>, n: nat)
    requires ValidPool(p)
    ensures SwapOutTables(p, []) == (p, [], 0) && done + [] == done && n + 0 == n
  {}

  method SwapOutTablesOn(a: MemoryAllocator, tables: seq<Table>) returns (moved: seq<Table>, swapped: nat)
    requires a.Valid() && forall l :: 0 <= l < |tables| ==> Dense(tables[l])
    modifies a.Repr()
    ensures a.Valid() && a.backend == old(a.backend)
    ensures (a.Model(), moved, swapped) == SwapOutTables(old(a.Model()), tables)
  {
    hide SwapOutTables, SwapOutTable, ValidPool, Dense;
    ghost var result := SwapOutTables(a.Model(), tables);
    moved, swapped := [], 0;
    var l := 0;
    assert tables[0..] == tables && [] + result.1 == result.1;
    while l < |tables|
      invariant l <= |tables|
      invariant a.Valid() && a.backend == old(a.backend)
      invariant result.0 == SwapOutTables(a.Model(), tables[l..]).0
      invariant result.1 == moved + SwapOutTables(a.Model(), tables[l..]).1
      invariant result.2 == swapped + SwapOutTables(a.Model(), tables[l..]).2
    {
      assert tables[l..][0] == tables[l] && tables[l..][1..] == tables[l + 1..];
      ConcatSwapOut(a.Model(), tables[l..], moved, swapped);
      var table, n := SwapOutTableOn(a, tables[l]);
      moved := moved + [table];
      swapped := swapped + n;
      l := l + 1;
    }
    SwapOutTablesDone(a.Model(), moved, swapped);
    assert tables[l..] == [];
  }

  method CountSlots(tables: seq<Table>) returns (needed: nat)
    ensures needed == SlotCountAll(tables)
  {
    needed := 0;
    var l := 0;
    assert tables[0..] == tables;
    while l < |tables|
      invariant l <= |tables| && needed + SlotCountAll(tables[l..]) == SlotCountAll(tables)
    {
      var i := 0;
      ghost var start := needed;
      assert tables[l..][1..] == tables[l + 1..] && tables[l][0..] == tables[l];
      while i < |tables[l]|
        invariant i <= |tables[l]| && needed + SlotCount(tables[l][i..]) == start + SlotCount(tables[l])
      {
        assert tables[l][i..][1..] == tables[l][i + 1..];
        if tables[l][i].slot.Some? {
          needed := needed + 1;
        }
        i := i + 1;
      }
      l := l + 1;
    }
  }

  lemma SwapInStep(p: Pool, rest: Table, done: Table)
    requires ValidPool(p) && rest != []
    ensures var e := rest[0];
            var (q, id) := if e.slot.Some? then SwapIn(p, e.slot.value) else (p, None);
            var e' := if id.Some? then e.(physical := id.value, slot := None) else e;
            var r, r1 := SwapInTable(p, rest), SwapInTable(q, rest[1..]);
            r.0 == r1.0 && done + r.1 == (done + [e']) + r1.1
  {
    hide SwapIn, ValidPool;
  }

  lemma SlotCountSplit(rest: Table)
    requires rest != []
    ensures SlotCount(rest) == (if rest[0].slot.Some? then 1 else 0) + SlotCount(rest[1..])
  {}

  lemma AccountedIsValid(p: Pool, held: multiset<Res>)
    requires Accounted(p, held)
    ensures ValidPool(p)
  {}

  /** Restoring one entry in place, with everyone's references accounted for on both sides. */
  lemma SwapInOneMore(p: Pool, rest: Table, done: Table, others: multiset<Res>)
    requires Accounted(p, others + multiset(Wheres(rest))) && rest != [] && SlotCount(rest) <= |p.free|
    ensures ValidPool(p)
    ensures var e := rest[0];
            var (q, id) := if e.slot.Some? then SwapIn(p, e.slot.value) else (p, None);
            var e' := if id.Some? then e.(physical := id.value, slot := None) else e;
            var r, r1 := SwapInTable(p, rest), SwapInTable(q, rest[1..]);
            && (e.slot.Some? ==> id.Some?)
            && r.0 == r1.0 && done + r.1 == (done + [e']) + r1.1
            && Accounted(q, (others + multiset{Where(e')}) + multiset(Wheres(rest[1..])))
            && SlotCount(rest[1..]) <= |q.free|
  {
    hide *;
    AccountedIsValid(p, others + multiset(Wheres(rest)));
    SwapInStep(p, rest, done);
    SlotCountSplit(rest);
    var e, tail := rest[0], multiset(Wheres(rest[1..]));
    WheresSplit(rest);
    Regroup(others, multiset{Where(e)}, tail);
    if e.slot.Some? {
      SwapInMoves(p, e, others + tail);
      var (q, id) := SwapIn(p, e.slot.value);
      var e' := e.(physical := id.value, slot := None);
      MoveEnds(p, multiset{Where(e)}, q, multiset{Where(e')}, others + tail);
      Regroup(others, multiset{Where(e')}, tail);
    }
  }

  lemma SwapInDone(p: Pool, done: Table)
    requires ValidPool(p)
    ensures SwapInTable(p, []) == (p, []) && done + [] == done
  {}

  method SwapInTableOn(a: MemoryAllocator, table: Table, ghost others: multiset<Res>) returns (table': Table)
    requires a.Valid() && Dense(table)
    requires Accounted(a.Model(), others + multiset(Wheres(table)))
    requires SlotCount(table) <= |a.freeList|
    modifies a.Repr()
    ensures a.Valid() && a.backend == old(a.backend)
    ensures (a.Model(), table') == SwapInTable(old(a.Model()), table)
  {
    hide SwapInTable, SwapIn, ValidPool, Accounted, SlotCount, Wheres, Where, Find, LowerBound;
    ghost var result := SwapInTable(a.Model(), table);
    ghost var held := others;
    ghost var done: Table := [];
    table' := table;
    var i := 0;
    assert table[0..] == table && done + result.1 == result.1;
    while i < |table'|
      invariant i <= |table| == |table'| && |done| == i && table' == done + table[i..] && Dense(table')
      invariant a.Valid() && a.backend == old(a.backend)
      invariant Accounted(a.Model(), held + multiset(Wheres(table[i..])))
      invariant SlotCount(table[i..]) <= |a.freeList|
      invariant result.0 == SwapInTable(a.Model(), table[i..]).0
      invariant result.1 == done + SwapInTable(a.Model(), table[i..]).1
    {
      var entry := table'[i];
      PutInPlace(table', table, done, i, i, entry);
      assert table[i..][0] == entry && table[i..][1..] == table[i + 1..];
      SwapInOneMore(a.Model(), table[i..], done, held);
      if entry.slot.Some? {
        DenseLowerBound(table', i);
        var at := Find(table', entry.logical.index);
        var frame := a.SwapInSlot(table'[at.value].slot.value);
        if frame.None? {
          assert false;
        } else {
          PutInPlace(table', table, done, i, i, entry.(physical := frame.value, slot := None));
          table' := table'[at.value := table'[at.value].(physical := frame.value, slot := None)];
        }
      }
      assert table[i..i] == [] && done + [] == done;
      done := done + [table'[i]];
      held := held + multiset{Where(table'[i])};
      i := i + 1;
    }
    assert table[i..] == [] && done + table[i..] == done;
    SwapInDone(a.Model(), done);
  }

  lemma SlotCountAllSplit(tables: seq<Table>)
    requires tables != []
    ensures SlotCountAll(tables) == SlotCount(tables[0]) + SlotCountAll(tables[1..])
  {}

  lemma SwapInTablesDone(p: Pool, done: seq<Table>)
    requires ValidPool(p)
    ensures SwapInTables(p, []) == (p, []) && done + [] == done
  {}

  /** Restoring one table: what is held and what is left to restore, before and after. */
  lemma SwapInOneTable(p: Pool, left: seq<Table>, done: seq<Table>, held: multiset<Res>)
    requires Accounted(p, held + HeldBy(left)) && left != [] && SlotCountAll(left) <= |p.free|
    ensures ValidPool(p)
    ensures var rest := HeldBy(left[1..]);
            Accounted(p, (held + rest) + multiset(Wheres(left[0]))) && SlotCount(left[0]) <= |p.free|
    ensures var (q, t) := SwapInTable(p, left[0]);
            var r, r1 := SwapInTables(p, left), SwapInTables(q, left[1..]);
            && r.0 == r1.0 && done + r.1 == (done + [t]) + r1.1
            && Accounted(q, (held + multiset(Wheres(t))) + HeldBy(left[1..]))
            && SlotCountAll(left[1..]) <= |q.free|
  {
    hide *;
    AccountedIsValid(p, held + HeldBy(left));
    var rest := HeldBy(left[1..]);
    ConcatSwapIn(p, left, done);
    SlotCountAllSplit(left);
    FlatSplit(left);
    Regroup(held, multiset(Wheres(left[0])), rest);
    SwapInTableMoves(p, left[0], held + rest);
    var (q, t) := SwapInTable(p, left[0]);
    MoveEnds(p, multiset(Wheres(left[0])), q, multiset(Wheres(t)), held + rest);
    Regroup(held, multiset(Wheres(t)), rest);
  }

  method SwapInTablesOn(a: MemoryAllocator, tables: seq<Table>, ghost others: multiset<Res>) returns (restored: seq<Table>)
    requires a.Valid() && forall l :: 0 <= l < |tables| ==> Dense(tables[l])
    requires Accounted(a.Model(), others + HeldBy(tables))
    requires SlotCountAll(tables) <= |a.freeList|
    modifies a.Repr()
    ensures a.Valid() && a.backend == old(a.backend)
    ensures (a.Model(), restored) == SwapInTables(old(a.Model()), tables)
  {
    hide SwapInTables, SwapInTable, ValidPool, Accounted, SlotCountAll, SlotCount, Wheres, Flat, HeldBy, Dense;
    ghost var result := SwapInTables(a.Model(), tables);
    ghost var held := others;
    restored := [];
    var l := 0;
    assert tables[0..] == tables && restored + result.1 == result.1;
    while l < |tables|
      invariant l <= |tables|
      invariant a.Valid() && a.backend == old(a.backend)
      invariant Accounted(a.Model(), held + HeldBy(tables[l..]))
      invariant SlotCountAll(tables[l..]) <= |a.freeList|
      invariant result.0 == SwapInTables(a.Model(), tables[l..]).0
      invariant result.1 == restored + SwapInTables(a.Model(), tables[l..]).1
    {
      assert tables[l..][0] == tables[l] && tables[l..][1..] == tables[l + 1..];
      SwapInOneTable(a.Model(), tables[l..], restored, held);
      var table := SwapInTableOn(a, tables[l], held + HeldBy(tables[l + 1..]));
      held := held + multiset(Wheres(table));
      restored := restored + [table];
      l := l + 1;
    }
    assert tables[l..] == [];
    SwapInTablesDone(a.Model(), restored);
  }

  // ---- Prefix loops -------------------------------------------------------------------------------

  lemma {:induction false} FindRecordFrom(records: seq<PrefixRecord>, hash: nat, i: nat)
    requires i < |records| && records[i].hash == hash
    requires forall k :: 0 <= k < i ==> records[k].hash != hash
    ensures FindRecord(records, hash) == Some(i)
  {
    if i > 0 {
      FindRecordFrom(records[1..], hash, i - 1);
    }
  }

  /** `std::find_if` over the records of one key. */
  method FindRecordIndex(records: seq<PrefixRecord>, hash: nat) returns (at: Option<nat>)
    ensures at == FindRecord(records, hash)
  {
    var i := 0;
    while i < |records|
      invariant i <= |records|
      invariant forall k :: 0 <= k < i ==> records[k].hash != hash
    {
      if records[i].hash == hash {
        FindRecordFrom(records, hash, i);
        return Some(i);
      }
      i := i + 1;
    }
    at := None;
  }

  lemma SwappedEntry(tables: seq<Table>, l: nat, i: nat)
    requires l < |tables| && i < |tables[l]| && tables[l][i].slot.Some?
    ensures !AllResident(tables)
  {}

  lemma ResidentTables(tables: seq<Table>)
    requires forall l, i :: 0 <= l < |tables| && 0 <= i < |tables[l]| ==> tables[l][i].slot.None?
    ensures AllResident(tables)
  {}

  lemma PhysicalsStep(t: Table, i: nat)
    requires i < |t|
    ensures |Physicals(t)| == |t| && Physicals(t)[..i + 1] == Physicals(t)[..i] + [t[i].physical]
  {}

  lemma PhysicalsDone(t: Table)
    ensures |Physicals(t)| == |t| && Physicals(t)[..0] == [] && Physicals(t)[..|t|] == Physicals(t)
  {}

  lemma FlatPhysicalsFrom(tables: seq<Table>, l: nat)
    requires l <= |tables|
    ensures FlatPhysicals(tables[l..])
         == if l == |tables| then [] else Physicals(tables[l]) + FlatPhysicals(tables[l + 1..])
  {
    if l < |tables| {
      assert tables[l..][1..] == tables[l + 1..];
    }
  }

  /** The frames of a sequence in table order, unless one of its entries is in swap. */
  method CollectFrames(tables: seq<Table>) returns (ids: Option<seq<nat>>)
    ensures ids == if AllResident(tables) then Some(FlatPhysicals(tables)) else None
  {
    hide AllResident, Physicals, FlatPhysicals;
    var collected: seq<nat> := [];
    var l := 0;
    assert tables[0..] == tables && collected + FlatPhysicals(tables) == FlatPhysicals(tables);
    while l < |tables|
      invariant l <= |tables|
      invariant forall k, i :: 0 <= k < l && 0 <= i < |tables[k]| ==> tables[k][i].slot.None?
      invariant collected + FlatPhysicals(tables[l..]) == FlatPhysicals(tables)
    {
      var i := 0;
      ghost var before := collected;
      var table := tables[l];
      FlatPhysicalsFrom(tables, l);
      PhysicalsDone(table);
      while i < |table|
        invariant i <= |table| && collected == before + Physicals(table)[..i]
        invariant forall k :: 0 <= k < i ==> table[k].slot.None?
      {
        if table[i].slot.Some? {
          SwappedEntry(tables, l, i);
          return None;
        }
        PhysicalsStep(table, i);
        collected := collected + [table[i].physical];
        i := i + 1;
      }
      l := l + 1;
    }
    ResidentTables(tables);
    FlatPhysicalsFrom(tables, l);
    assert collected + [] == collected;
    ids := Some(collected);
  }

  /** The bytes the content hash reads, table by table. */
  method ReadTables(a: MemoryAllocator, tables: seq<Table>) returns (contents: seq<seq<Frame>>)
    requires a.Valid() && AllResident(tables)
    ensures contents == Blocks(a.Model(), tables)
  {
    contents := [];
    var l := 0;
    while l < |tables|
      invariant l <= |tables| && contents == Blocks(a.Model(), tables)[..l]
    {
      var content: seq<Frame> := [];
      var i := 0;
      while i < |tables[l]|
        invariant i <= |tables[l]| && content == TableBlocks(a.Model(), tables[l])[..i]
      {
        var e := tables[l][i];
        assert e.slot.None?;
        content := content + [if e.physical < |a.blocks| then a.blocks[e.physical] else []];
        i := i + 1;
      }
      assert content == TableBlocks(a.Model(), tables[l]);
      contents := contents + [content];
      l := l + 1;
    }
  }

  lemma RetainOneMore(p: Pool, ids: seq<nat>, i: nat)
    requires ValidPool(p) && i < |ids|
    ensures RetainAll(p, Frames(ids[i..])) == RetainAll(Retain(p, ids[i]), Frames(ids[i + 1..]))
  {
    assert Frames(ids[i..])[0] == OnFrame(ids[i]) && Frames(ids[i..])[1..] == Frames(ids[i + 1..]);
  }

  /** Maps `n` published frames read-only into an empty table, pinning each first. */
  method AttachTableOn(a: MemoryAllocator, ids: seq<nat>, first: nat, n: nat, sid: nat, tpb: nat) returns (table: Table)
    requires a.Valid() && first + n <= |ids|
    modifies a.Repr()
    ensures a.Valid() && a.backend == old(a.backend)
    ensures table == AttachTable(ids[first..][..n], sid, tpb)
    ensures RetainAll(a.Model(), Frames(ids[first + n..])) == RetainAll(old(a.Model()), Frames(ids[first..]))
  {
    hide ValidPool, RetainAll, Retain, Frames, Find, LowerBound, MapEntry;
    table := [];
    var i := 0;
    while i < n
      invariant i <= n && table == AttachTable(ids[first..][..n], sid, tpb)[..i]
      invariant a.Valid() && a.backend == old(a.backend)
      invariant RetainAll(a.Model(), Frames(ids[first + i..])) == RetainAll(old(a.Model()), Frames(ids[first..]))
    {
      RetainOneMore(a.Model(), ids, first + i);
      a.RetainFrame(ids[first + i]);
      var logical := LogicalBlock(sid, i, i * tpb, tpb);
      DenseMapAppends(table, logical, ids[first + i], false);
      table := MapEntry(table, logical, ids[first + i], false);
      i := i + 1;
    }
  }

  lemma AttachTablesStep(ids: seq<nat>, first: nat, sid: nat, tpb: nat, n: nat, k: nat)
    requires first <= |ids| && |ids[first..]| == n * k && k > 0
    ensures n * k == n + n * (k - 1) && first + n <= |ids|
    ensures AttachTables(ids[first..], sid, tpb, n, k)
         == [AttachTable(ids[first..][..n], sid, tpb)] + AttachTables(ids[first + n..], sid, tpb, n, k - 1)
  {
    assert n * k == n + n * (k - 1);
    assert ids[first..][n..] == ids[first + n..];
  }

  lemma RetainNone(p: Pool, ids: seq<nat>)
    requires ValidPool(p) && ids == []
    ensures RetainAll(p, Frames(ids)) == p
  {}

  method AttachTablesOn(a: MemoryAllocator, ids: seq<nat>, n: nat, k: nat, sid: nat, tpb: nat) returns (tables: seq<Table>)
    requires a.Valid() && |ids| == n * k
    modifies a.Repr()
    ensures a.Valid() && a.backend == old(a.backend)
    ensures tables == AttachTables(ids, sid, tpb, n, k)
    ensures a.Model() == RetainAll(old(a.Model()), Frames(ids))
  {
    hide ValidPool, RetainAll, Frames, AttachTables, AttachTable;
    ghost var all := AttachTables(ids, sid, tpb, n, k);
    tables := [];
    var idIndex := 0;
    var left := k;
    assert ids[0..] == ids && tables + all == all;
    while left > 0
      invariant 0 <= idIndex <= |ids| && |ids[idIndex..]| == n * left
      invariant a.Valid() && a.backend == old(a.backend)
      invariant tables + AttachTables(ids[idIndex..], sid, tpb, n, left) == all
      invariant RetainAll(a.Model(), Frames(ids[idIndex..])) == RetainAll(old(a.Model()), Frames(ids))
    {
      AttachTablesStep(ids, idIndex, sid, tpb, n, left);
      var table := AttachTableOn(a, ids, idIndex, n, sid, tpb);
      tables := tables + [table];
      idIndex := idIndex + n;
      left := left - 1;
    }
    assert n * left == 0;
    AttachTablesEnd(ids[idIndex..], sid, tpb, n);
    assert tables + [] == tables;
    RetainNone(a.Model(), ids[idIndex..]);
  }

  lemma AttachTablesEnd(ids: seq<nat>, sid: nat, tpb: nat, n: nat)
    requires |ids| == n * 0
    ensures AttachTables(ids, sid, tpb, n, 0) == []
  {}

  lemma DenseTables(st: Store, sid: nat)
    requires Inv(st) && sid in st.seqs
    ensures forall l :: 0 <= l < |st.seqs[sid].tables| ==> Dense(st.seqs[sid].tables[l])
  {
    TablesOkOf(st, sid);
    assert forall l :: 0 <= l < |st.seqs[sid].tables| ==> TableOk(st.pool, st.seqs[sid].tables[l]);
  }

  lemma SwapInStarts(st: Store, sid: nat)
    requires Inv(st) && sid in st.seqs
    ensures forall l :: 0 <= l < |st.seqs[sid].tables| ==> Dense(st.seqs[sid].tables[l])
    ensures Accounted(st.pool, Rest(st, sid) + HeldBy(st.seqs[sid].tables))
  {
    DenseTables(st, sid);
    OwnMoveStarts(st, sid);
  }

  lemma FailedAllocation(p: Pool)
    requires ValidPool(p)
    ensures Allocate(p).1.None? ==> Allocate(p).0 == p
  {}

  lemma PoolSizes(p: Pool)
    requires ValidPool(p)
    ensures |p.bytes| == |p.infos|
  {}

  lemma AttachKeepsInv(st: Store, sid: nat, key: string)
    requires Inv(st)
    ensures ValidPool(st.pool) && Inv(AttachPrefix(st, sid, key).0)
  {
    InvParts(st);
    StepAttach(st, sid, key);
  }

  /** The checks an attachment makes, in their order. */
  ghost predicate Attachable(st: Store, sid: nat, key: string) {
    && key != "" && sid in st.seqs && st.seqs[sid].tables != [] && st.seqs[sid].tables[0] == []
    && key in st.prefixes && |st.prefixes[key]| == 1 && TokensPerBlock(st.pool) != 0
    && st.prefixes[key][0].ids != [] && |st.prefixes[key][0].ids| % |st.seqs[sid].tables| == 0
  }

  lemma AttachStops(st: Store, sid: nat, key: string)
    requires ValidPool(st.pool)
    ensures !Attachable(st, sid, key) ==> AttachPrefix(st, sid, key) == (st, 0)
    ensures Attachable(st, sid, key) ==>
              var s, record := st.seqs[sid], st.prefixes[key][0];
              var n := |record.ids| / |s.tables|;
              && |record.ids| == n * |s.tables|
              && AttachPrefix(st, sid, key) ==
                 (st.(pool := RetainAll(st.pool, Frames(record.ids)),
                      seqs := st.seqs[sid := s.(tables := AttachTables(record.ids, sid, TokensPerBlock(st.pool), n, |s.tables|),
                                                key := key, hash := record.hash)],
                      prefixes := st.prefixes[key := [record.(users := record.users + 1)]]), record.tokens)
  {
    hide ValidPool, RetainAll, Frames, AttachTables, TokensPerBlock;
  }

  class KVCacheManager {
    const allocator: MemoryAllocator
    const hash: ContentHash
    var sequences: map<nat, Sequence>
    var sequencesByRequest: map<nat, seq<nat>>
    var prefixIndex: map<string, seq<PrefixRecord>>

    ghost function Repr(): set<object>
      reads this, allocator
    {
      {this} + allocator.Repr()
    }

    ghost function Model(): Store
      reads this, allocator, allocator.backend
    {
      Store(allocator.Model(), sequences, sequencesByRequest, prefixIndex)
    }

    ghost predicate Valid()
      reads this, allocator, allocator.backend
    {
      Inv(Model()) && allocator.Valid()
    }

    /** A manager over a pool none of whose frames is in use. */
    constructor (allocator: MemoryAllocator, hash: ContentHash)
      requires allocator.Valid()
      requires forall f :: 0 <= f < |allocator.infos| ==> allocator.infos[f].refs == 0
      requires allocator.backend != null ==> allocator.backend.slots == map[]
      ensures Valid() && this.allocator == allocator && this.hash == hash
      ensures Model() == EmptyStore(allocator.Model())
    {
      this.allocator := allocator;
      this.hash := hash;
      sequences := map[];
      sequencesByRequest := map[];
      prefixIndex := map[];
      new;
      FreshStoreInv(allocator.Model());
    }

    method TableCountOf() returns (n: nat)
      requires Valid()
      ensures n == TableCount(Model().pool)
    {
      if allocator.infos == [] {
        return 1;
      }
      n := if allocator.shape.PerLayerFrames() then allocator.shape.numLayers else 1;
    }

    method TokensPerBlockOf() returns (n: nat)
      requires Valid()
      ensures n == TokensPerBlock(Model().pool)
    {
      n := if allocator.infos == [] then 0 else allocator.shape.tokensPerBlock;
    }

    method IndexSequence(request: nat, sid: nat)
      modifies this`sequencesByRequest
      ensures sequencesByRequest == Index(old(sequencesByRequest), request, sid)
    {
      var ids := if request in sequencesByRequest then sequencesByRequest[request] else [];
      sequencesByRequest := sequencesByRequest[request := ids + [sid]];
    }

    method UnindexSequence(request: nat, sid: nat)
      modifies this`sequencesByRequest
      ensures sequencesByRequest == Unindex(old(sequencesByRequest), request, sid)
    {
      if request !in sequencesByRequest {
        return;
      }
      var ids := sequencesByRequest[request];
      var kept := [];
      var i := 0;
      while i < |ids|
        invariant i <= |ids|
        invariant kept + Without(ids[i..], sid) == Without(ids, sid)
      {
        assert ids[i..][1..] == ids[i + 1..];
        if ids[i] != sid {
          kept := kept + [ids[i]];
        }
        i := i + 1;
      }
      assert ids[i..] == [] && kept + [] == kept;
      if kept == [] {
        sequencesByRequest := sequencesByRequest - {request};
      } else {
        sequencesByRequest := sequencesByRequest[request := kept];
      }
    }

    method Create(sid: nat, request: nat) returns (ok: bool)
      requires Valid()
      modifies Repr()
      ensures Valid() && allocator.backend == old(allocator.backend)
      ensures (Model(), ok) == CreateSequence(old(Model()), sid, request)
    {
      hide Inv, ValidPool, Index;
      CreateInv(Model(), sid, request);
      if sid in sequences {
        return false;
      }
      var count := TableCountOf();
      var tables: seq<Table> := [];
      var i := 0;
      while i < count
        invariant i <= count && tables == seq(i, _ => [])
      {
        tables := tables + [[]];
        i := i + 1;
      }
      sequences := sequences[sid := Sequence(request, tables, "", 0)];
      IndexSequence(request, sid);
      ok := true;
    }

    method ForkFrom(parent: nat, child: nat, request: nat) returns (ok: bool)
      requires Valid()
      modifies Repr()
      ensures Valid() && allocator.backend == old(allocator.backend)
      ensures (Model(), ok) == ForkSequence(old(Model()), parent, child, request)
    {
      hide Inv, ValidPool, RetainAll, ForkTables, Flat, Index, AllResident;
      ghost var st := Model();
      ForkInv(st, parent, child, request);
      if parent !in sequences {
        return false;
      }
      if child in sequences {
        return false;
      }
      var tables: seq<Table> := sequences[parent].tables;
      var resident := NoSlots(tables);
      if !resident {
        return false;
      }
      var forked := ForkTablesOn(tables, child);
      sequences := sequences[child := Sequence(request, forked, "", 0)];
      IndexSequence(request, child);
      ok := true;
    }

    method NoSlots(tables: seq<Table>) returns (resident: bool)
      ensures resident == AllResident(tables)
    {
      var l := 0;
      while l < |tables|
        invariant l <= |tables|
        invariant forall k, i :: 0 <= k < l && 0 <= i < |tables[k]| ==> tables[k][i].slot.None?
      {
        var i := 0;
        while i < |tables[l]|
          invariant i <= |tables[l]|
          invariant forall k :: 0 <= k < i ==> tables[l][k].slot.None?
        {
          if tables[l][i].slot.Some? {
            return false;
          }
          i := i + 1;
        }
        l := l + 1;
      }
      resident := true;
    }

    method ForkTablesOn(tables: seq<Table>, child: nat) returns (forked: seq<Table>)
      requires allocator.Valid() && AllResident(tables)
      modifies allocator.Repr()
      ensures allocator.Valid() && allocator.backend == old(allocator.backend)
      ensures forked == ForkTables(tables, child)
      ensures allocator.Model() == RetainAll(old(allocator.Model()), Flat(forked))
    {
      ghost var p := allocator.Model();
      ghost var all := ForkTables(tables, child);
      forked := [];
      var l := 0;
      assert all[0..] == all;
      while l < |tables|
        invariant l <= |tables| && forked == all[..l]
        invariant allocator.Valid() && allocator.backend == old(allocator.backend)
        invariant RetainAll(allocator.Model(), Flat(all[l..])) == RetainAll(p, Flat(all))
      {
        var table := Fork(tables[l], child);
        assert all[l..][0] == table && all[l..][1..] == all[l + 1..];
        forall i | 0 <= i < |table|
          ensures table[i].slot.None?
        {
          assert tables[l][i].slot.None?;
        }
        RetainTableOn(allocator, table, Flat(all[l + 1..]));
        forked := forked + [table];
        l := l + 1;
      }
      assert forked == all && all[l..] == [];
    }

    /** Appends whole blocks; no allocation fails after the up-front check. */
    method Reserve(sid: nat, tokens: nat) returns (ok: bool)
      requires Valid()
      modifies Repr()
      ensures Valid() && allocator.backend == old(allocator.backend)
      ensures (Model(), ok) == ReserveTokens(old(Model()), sid, tokens)
    {
      hide Inv, ValidPool, GrowTables, CeilDiv, SameLayout;
      ghost var st := Model();
      ReserveInv(st, sid, tokens);
      if sid !in sequences {
        return false;
      }
      var tpb := TokensPerBlockOf();
      if tpb == 0 {
        return false;
      }
      var count := CeilDiv(tokens, tpb);
      var s := sequences[sid];
      if |allocator.freeList| < count * |s.tables| {
        return false;
      }
      var grown := GrowTablesOn(allocator, s.tables, sid, tpb, count);
      sequences := sequences[sid := s.(tables := grown)];
      ok := true;
    }

    method EnsureWritable(sid: nat, token: nat, layer: nat) returns (frame: Option<nat>)
      requires Valid()
      modifies Repr()
      ensures Valid() && allocator.backend == old(allocator.backend)
      ensures (Model(), frame) == EnsureTokenWritable(old(Model()), sid, token, layer)
    {
      hide Inv, ValidPool, Find, LowerBound, Allocate, Release, CopyBlock;
      ghost var st := Model();
      WriteInv(st, sid, token, layer, []);
      frame := None;
      if sid !in sequences || sequences[sid].tables == [] {
        return;
      }
      var s := sequences[sid];
      if layer >= |s.tables| {
        return;
      }
      var table := s.tables[layer];
      if table == [] {
        return;
      }
      var tpb := table[0].logical.count;
      if tpb == 0 {
        return;
      }
      var at := Find(table, token / tpb);
      if at.None? {
        return;
      }
      var entry := table[at.value];
      if entry.slot.Some? {
        return;
      }
      if entry.physical >= |allocator.infos| {
        return;
      }
      if allocator.infos[entry.physical].refs <= 1 {
        table := table[at.value := entry.(writable := true)];
        sequences := sequences[sid := s.(tables := s.tables[layer := table])];
        return Some(entry.physical);
      }
      FailedAllocation(allocator.Model());
      var copy := allocator.AllocateFrame();
      if copy.None? {
        return;
      }
      allocator.CopyFrame(entry.physical, copy.value);
      allocator.ReleaseFrame(entry.physical);
      table := table[at.value := entry.(physical := copy.value, writable := true)];
      sequences := sequences[sid := s.(tables := s.tables[layer := table])];
      frame := copy;
    }

    /** The engine's write: materialise the block, then store into the block it was given. */
    method Write(sid: nat, token: nat, layer: nat, content: Frame) returns (ok: bool)
      requires Valid()
      modifies Repr()
      ensures Valid() && allocator.backend == old(allocator.backend)
      ensures (Model(), ok) == WriteBlock(old(Model()), sid, token, layer, content)
    {
      hide Inv, ValidPool, EnsureTokenWritable;
      ghost var st := Model();
      WriteInv(st, sid, token, layer, content);
      var frame := EnsureWritable(sid, token, layer);
      PoolSizes(allocator.Model());
      if frame.None? || |content| != allocator.width {
        return false;
      }
      allocator.StoreIntoFrame(frame.value, content);
      ok := true;
    }

    method SwapOutOne(sid: nat) returns (swapped: nat)
      requires Valid()
      modifies Repr()
      ensures Valid() && allocator.backend == old(allocator.backend)
      ensures (Model(), swapped) == SwapOutSequence(old(Model()), sid)
    {
      hide Inv, ValidPool, SwapOutTables, Dense, SameKeys;
      ghost var st := Model();
      EvictInv(st, sid);
      if sid !in sequences {
        return 0;
      }
      DenseTables(st, sid);
      var s := sequences[sid];
      var moved, n := SwapOutTablesOn(allocator, s.tables);
      sequences := sequences[sid := s.(tables := moved)];
      swapped := n;
    }

    method SwapInOne(sid: nat) returns (ok: bool)
      requires Valid()
      modifies Repr()
      ensures Valid() && allocator.backend == old(allocator.backend)
      ensures (Model(), ok) == SwapInSequence(old(Model()), sid)
    {
      hide Inv, ValidPool, SlotCountAll, SwapInTables, Dense, Accounted, HeldBy, Rest;
      ghost var st := Model();
      RestoreInv(st, sid);
      if sid !in sequences {
        return false;
      }
      SwapInStarts(st, sid);
      var s := sequences[sid];
      var needed := CountSlots(s.tables);
      if needed == 0 {
        return true;
      }
      if |allocator.freeList| < needed {
        return false;
      }
      var restored := SwapInTablesOn(allocator, s.tables, Rest(st, sid));
      sequences := sequences[sid := s.(tables := restored)];
      ok := true;
    }

    /** Mid-release the books are between two states, so this promises the new state and no more. */
    method DropUser(sid: nat)
      requires allocator.Valid() && sid in sequences
      modifies Repr()
      ensures allocator.Valid() && allocator.backend == old(allocator.backend)
      ensures Model() == DropPrefixUser(old(Model()), sid)
    {
      hide ValidPool, FreeAll, FindRecord, Frames;
      var s := sequences[sid];
      if s.key == "" {
        return;
      }
      sequences := sequences[sid := s.(key := "", hash := 0)];
      if s.key !in prefixIndex {
        return;
      }
      var records := prefixIndex[s.key];
      var at := FindRecordIndex(records, s.hash);
      if at.None? {
        return;
      }
      var record := records[at.value];
      if record.users > 0 {
        record := record.(users := record.users - 1);
      }
      if record.users > 0 {
        prefixIndex := prefixIndex[s.key := records[at.value := record]];
        return;
      }
      ReleaseFramesOn(allocator, record.ids);
      var left := records[..at.value] + records[at.value + 1..];
      if left == [] {
        prefixIndex := prefixIndex - {s.key};
      } else {
        prefixIndex := prefixIndex[s.key := left];
      }
    }

    method ReleaseOne(sid: nat)
      requires Valid()
      modifies Repr()
      ensures Valid() && allocator.backend == old(allocator.backend)
      ensures Model() == ReleaseSequence(old(Model()), sid)
    {
      hide Inv, ValidPool, FreeAll, DropPrefixUser, Flat, Unindex;
      ghost var st := Model();
      ReleaseInv(st, sid);
      if sid !in sequences {
        return;
      }
      var s := sequences[sid];
      DropUser(sid);
      FreeTablesOn(allocator, s.tables);
      UnindexSequence(s.request, sid);
      sequences := sequences - {sid};
    }

    method SwapOutRequested(request: nat) returns (swapped: nat)
      requires Valid()
      modifies Repr()
      ensures Valid() && allocator.backend == old(allocator.backend)
      ensures (Model(), swapped) == SwapOutRequest(old(Model()), request)
    {
      hide Inv, ValidPool, SwapOutSequence;
      var ids := SequencesOf(request);
      swapped := 0;
      var i := 0;
      assert ids[0..] == ids;
      while i < |ids|
        invariant i <= |ids| && Valid() && allocator.backend == old(allocator.backend)
        invariant var r := SwapOutEach(Model(), ids[i..]); SwapOutRequest(old(Model()), request) == (r.0, swapped + r.1)
      {
        assert ids[i..][1..] == ids[i + 1..];
        var n := SwapOutOne(ids[i]);
        swapped := swapped + n;
        i := i + 1;
      }
    }

    method SequencesOf(request: nat) returns (ids: seq<nat>)
      ensures ids == SequencesFor(Model(), request)
    {
      ids := if request in sequencesByRequest then sequencesByRequest[request] else [];
    }

    method CountRequestSlots(ids: seq<nat>) returns (needed: nat)
      ensures needed == SlotsNeeded(Model(), ids)
    {
      hide SlotCountAll;
      needed := 0;
      var i := 0;
      assert ids[0..] == ids;
      while i < |ids|
        invariant i <= |ids| && needed + SlotsNeeded(Model(), ids[i..]) == SlotsNeeded(Model(), ids)
      {
        assert ids[i..][1..] == ids[i + 1..];
        if ids[i] in sequences {
          var n := CountSlots(sequences[ids[i]].tables);
          needed := needed + n;
        }
        i := i + 1;
      }
    }

    /** Counts what is in swap across the request first, then restores sequence by sequence. */
    method SwapInRequested(request: nat) returns (ok: bool)
      requires Valid()
      modifies Repr()
      ensures Valid() && allocator.backend == old(allocator.backend)
      ensures (Model(), ok) == SwapInRequest(old(Model()), request)
    {
      hide Inv, ValidPool, SwapInSequence, SlotsNeeded;
      var ids := SequencesOf(request);
      var needed := CountRequestSlots(ids);
      if needed > 0 && |allocator.freeList| < needed {
        return false;
      }
      var i := 0;
      assert ids[0..] == ids;
      while i < |ids|
        invariant i <= |ids| && Valid() && allocator.backend == old(allocator.backend)
        invariant SwapInEach(Model(), ids[i..]) == SwapInRequest(old(Model()), request)
      {
        assert ids[i..][1..] == ids[i + 1..];
        var one := SwapInOne(ids[i]);
        if !one {
          return false;
        }
        i := i + 1;
      }
      ok := true;
    }

    method ReleaseRequested(request: nat)
      requires Valid()
      modifies Repr()
      ensures Valid() && allocator.backend == old(allocator.backend)
      ensures Model() == ReleaseRequest(old(Model()), request)
    {
      hide Inv, ValidPool, ReleaseSequence;
      var ids := SequencesOf(request);
      var i := 0;
      assert ids[0..] == ids;
      while i < |ids|
        invariant i <= |ids| && Valid() && allocator.backend == old(allocator.backend)
        invariant ReleaseEach(Model(), ids[i..]) == ReleaseRequest(old(Model()), request)
      {
        assert ids[i..][1..] == ids[i + 1..];
        ReleaseOne(ids[i]);
        i := i + 1;
      }
    }

    /** A prefix with one live record only: two hashes under one key are ambiguous. */
    method PrefixTokens(key: string) returns (tokens: nat)
      ensures tokens == PrefixTokenCount(Model(), key)
    {
      if key == "" || key !in prefixIndex || |prefixIndex[key]| != 1 {
        return 0;
      }
      tokens := prefixIndex[key][0].tokens;
    }

    /** The books stay sound exactly when the call gives no sequence a second key. */
    method Publish(sid: nat, key: string) returns (ok: bool)
      requires Valid()
      modifies Repr()
      ensures allocator.Valid() && allocator.backend == old(allocator.backend)
      ensures Valid() <==> Disciplined(old(Model()), Op.Publish(sid, key))
      ensures (Model(), ok) == PublishPrefix(old(Model()), sid, key, hash)
    {
      hide Inv, ValidPool, FindRecord, RetainAll, Flat, FlatPhysicals, Frames, Blocks, AllResident, Disciplined;
      ghost var st := Model();
      PublishSoundIff(st, sid, key, hash);
      if key == "" || sid !in sequences || sequences[sid].tables == [] || sequences[sid].tables[0] == [] {
        return false;
      }
      var s := sequences[sid];
      if s.key == key {
        return true;
      }
      var tpb := TokensPerBlockOf();
      if tpb == 0 {
        return false;
      }
      var ids := CollectFrames(s.tables);
      if ids.None? {
        return false;
      }
      ResidentReferences(s.tables);
      var contents := ReadTables(allocator, s.tables);
      var h := hash(contents);
      var records := if key in prefixIndex then prefixIndex[key] else [];
      var at := FindRecordIndex(records, h);
      if at.Some? {
        prefixIndex := prefixIndex[key := records[at.value := records[at.value].(users := records[at.value].users + 1)]];
        sequences := sequences[sid := s.(key := key, hash := h)];
        return true;
      }
      RetainFramesOn(allocator, ids.value);
      sequences := sequences[sid := s.(key := key, hash := h)];
      prefixIndex := prefixIndex[key := records + [PrefixRecord(h, |s.tables[0]| * tpb, 1, ids.value)]];
      ok := true;
    }

    method Attach(sid: nat, key: string) returns (tokens: nat)
      requires Valid()
      modifies Repr()
      ensures Valid() && allocator.backend == old(allocator.backend)
      ensures (Model(), tokens) == AttachPrefix(old(Model()), sid, key)
    {
      hide Inv, ValidPool, RetainAll, Frames, AttachTables, TokensPerBlock, AttachPrefix;
      ghost var st := Model();
      AttachKeepsInv(st, sid, key);
      AttachStops(st, sid, key);
      if key == "" || sid !in sequences || sequences[sid].tables == [] || sequences[sid].tables[0] != [] {
        return 0;
      }
      if key !in prefixIndex || |prefixIndex[key]| != 1 {
        return 0;
      }
      var s, record := sequences[sid], prefixIndex[key][0];
      var tpb := TokensPerBlockOf();
      if tpb == 0 || record.ids == [] || |record.ids| % |s.tables| != 0 {
        return 0;
      }
      var n := |record.ids| / |s.tables|;
      var tables := AttachTablesOn(allocator, record.ids, n, |s.tables|, sid, tpb);
      sequences := sequences[sid := s.(tables := tables, key := key, hash := record.hash)];
      prefixIndex := prefixIndex[key := [record.(users := record.users + 1)]];
      tokens := record.tokens;
    }
  }
}
