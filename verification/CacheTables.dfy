/** What growing, evicting and restoring a sequence's tables does to references and bytes. */
module CacheTables {
  import opened Wrappers
  import opened FramePool
  import opened PageTable
  import opened CacheStore
  import opened CacheAccounting

  // ---- Moving one holder's references -------------------------------------------------------

  /** References either stay, go, or are new: held by nobody before and held once now. */
  ghost predicate Renews(before: multiset<Res>, after: multiset<Res>, others: multiset<Res>) {
    forall r :: after[r] <= before[r] || (after[r] == 1 && before[r] == 0 && others[r] == 0)
  }

  /** From pool p to pool q one holder went from `before` to `after`; the others noticed nothing. */
  ghost predicate Move(p: Pool, before: multiset<Res>, q: Pool, after: multiset<Res>, others: multiset<Res>) {
    && Accounted(p, others + before) && Accounted(q, others + after)
    && SameContent(p, q, others) && SameLayout(p, q)
    && Renews(before, after, others)
  }

  lemma MoveCompose(
    p: Pool, p1: Pool, p2: Pool, a: multiset<Res>, a': multiset<Res>, b: multiset<Res>, b': multiset<Res>,
    others: multiset<Res>)
    requires Move(p, a, p1, a', others + b) && Move(p1, b, p2, b', others + a')
    ensures Move(p, a + b, p2, a' + b', others)
  {
    assert others + (a + b) == (others + b) + a;
    assert others + (a' + b') == (others + a') + b';
    assert Renews(a + b, a' + b', others);
  }

  lemma MoveNothing(p: Pool, a: multiset<Res>, others: multiset<Res>)
    requires Accounted(p, others + a)
    ensures Move(p, a, p, a, others)
  {}

  lemma RenewsKeepsNoRepeats(before: seq<Res>, after: seq<Res>, others: multiset<Res>)
    requires NoRepeats(before) && Renews(multiset(before), multiset(after), others)
    ensures NoRepeats(after)
  {}

  lemma WheresSplit(t: Table)
    requires t != []
    ensures multiset(Wheres(t)) == multiset{Where(t[0])} + multiset(Wheres(t[1..]))
  {
    assert Wheres(t) == [Where(t[0])] + Wheres(t[1..]);
  }

  lemma FlatSplit(tables: seq<Table>)
    requires tables != []
    ensures HeldBy(tables) == multiset(Wheres(tables[0])) + HeldBy(tables[1..])
  {}

  lemma Regroup(others: multiset<Res>, a: multiset<Res>, b: multiset<Res>)
    ensures others + (a + b) == (others + b) + a == (others + a) + b
  {}

  // ---- Growing --------------------------------------------------------------------------------

  /** t' is t with `count` more resident blocks of tpb tokens each. */
  ghost predicate Grown(t: Table, t': Table, sid: nat, tpb: nat, count: nat) {
    && |t'| == |t| + count && t <= t' && Dense(t')
    && forall i :: |t| <= i < |t'| ==> t'[i].logical == LogicalBlock(sid, i, i * tpb, tpb) && t'[i].slot.None? && t'[i].writable
  }

  lemma AllocateMoves(p: Pool, own: multiset<Res>, others: multiset<Res>)
    requires Accounted(p, others + own) && p.free != []
    ensures var (q, id) := Allocate(p);
            && Move(p, own, q, own + multiset{OnFrame(id.value)}, others)
            && SameContent(p, q, own) && |q.free| == |p.free| - 1
  {
    AllocateAccounted(p, others + own);
    var (q, id) := Allocate(p);
    assert others + (own + multiset{OnFrame(id.value)}) == (others + own) + multiset{OnFrame(id.value)};
  }

  lemma {:induction false} GrowTableGrows(p: Pool, t: Table, sid: nat, tpb: nat, count: nat)
    requires ValidPool(p) && count <= |p.free| && Dense(t)
    ensures var (q, t') := GrowTable(p, t, sid, tpb, |t|, count);
            |q.free| == |p.free| - count && Grown(t, t', sid, tpb, count)
    decreases count
  {
    hide GrowTable, Allocate, MapEntry, ValidPool;
    if count == 0 {
      GrowTableDone(p, t, sid, tpb, |t|);
    } else {
      GrowTableStep(p, t, sid, tpb, |t|, count);
      var (q, id) := Allocate(p);
      var logical := LogicalBlock(sid, |t|, |t| * tpb, tpb);
      var t1 := MapEntry(t, logical, id.value, true);
      DenseMapAppends(t, logical, id.value, true);
      GrowTableGrows(q, t1, sid, tpb, count - 1);
      var (_, t') := GrowTable(q, t1, sid, tpb, |t1|, count - 1);
      assert t'[|t|] == t1[|t|];
    }
  }

  lemma GrowTableStep(p: Pool, t: Table, sid: nat, tpb: nat, index: nat, count: nat)
    requires ValidPool(p) && p.free != [] && count > 0
    ensures var (q, id) := Allocate(p);
            && id.Some? && |q.free| == |p.free| - 1
            && GrowTable(p, t, sid, tpb, index, count)
            == GrowTable(q, MapEntry(t, LogicalBlock(sid, index, index * tpb, tpb), id.value, true),
                         sid, tpb, index + 1, count - 1)
  {}

  lemma GrowTableDone(p: Pool, t: Table, sid: nat, tpb: nat, index: nat)
    requires ValidPool(p)
    ensures GrowTable(p, t, sid, tpb, index, 0) == (p, t)
  {}

  lemma {:induction false} GrowTableMoves(
    p: Pool, t: Table, sid: nat, tpb: nat, count: nat, others: multiset<Res>)
    requires Accounted(p, others + multiset(Wheres(t))) && count <= |p.free| && Dense(t)
    ensures var (q, t') := GrowTable(p, t, sid, tpb, |t|, count);
            && Move(p, multiset(Wheres(t)), q, multiset(Wheres(t')), others)
            && SameContent(p, q, multiset(Wheres(t)))
    decreases count
  {
    hide *;
    MoveStarts(p, multiset(Wheres(t)), others);
    if count == 0 {
      GrowTableDone(p, t, sid, tpb, |t|);
      MoveNothing(p, multiset(Wheres(t)), others);
    } else {
      GrowTableStep(p, t, sid, tpb, |t|, count);
      var (q, id) := Allocate(p);
      var t1 := MapEntry(t, LogicalBlock(sid, |t|, |t| * tpb, tpb), id.value, true);
      GrowOnce(p, t, sid, tpb, others);
      MoveEnds(p, multiset(Wheres(t)), q, multiset(Wheres(t1)), others);
      GrowTableMoves(q, t1, sid, tpb, count - 1, others);
      var (q', t') := GrowTable(q, t1, sid, tpb, |t1|, count - 1);
      MoveAgain(p, q, q', multiset(Wheres(t)), multiset(Wheres(t1)), multiset(Wheres(t')), others);
    }
  }

  lemma MoveStarts(p: Pool, mine: multiset<Res>, others: multiset<Res>)
    requires Accounted(p, others + mine)
    ensures ValidPool(p) && SameContent(p, p, mine)
  {}

  lemma MoveEnds(p: Pool, mine: multiset<Res>, q: Pool, given: multiset<Res>, others: multiset<Res>)
    requires Move(p, mine, q, given, others)
    ensures Accounted(q, others + given)
  {}

  lemma GrowOnce(p: Pool, t: Table, sid: nat, tpb: nat, others: multiset<Res>)
    requires Accounted(p, others + multiset(Wheres(t))) && p.free != [] && Dense(t)
    ensures var (q, id) := Allocate(p);
            var t1 := MapEntry(t, LogicalBlock(sid, |t|, |t| * tpb, tpb), id.value, true);
            && Move(p, multiset(Wheres(t)), q, multiset(Wheres(t1)), others)
            && multiset(Wheres(t)) <= multiset(Wheres(t1))
            && SameContent(p, q, multiset(Wheres(t)))
            && |q.free| == |p.free| - 1
            && |t1| == |t| + 1 && Dense(t1)
  {
    AllocateMoves(p, multiset(Wheres(t)), others);
    var (q, id) := Allocate(p);
    var logical := LogicalBlock(sid, |t|, |t| * tpb, tpb);
    DenseMapAppends(t, logical, id.value, true);
    assert Wheres(MapEntry(t, logical, id.value, true)) == Wheres(t) + [OnFrame(id.value)];
  }

  /** Two moves in a row, the first of which only added. */
  lemma MoveAgain(
    p: Pool, p1: Pool, p2: Pool, a: multiset<Res>, a1: multiset<Res>, a2: multiset<Res>, others: multiset<Res>)
    requires Move(p, a, p1, a1, others) && Move(p1, a1, p2, a2, others)
    requires a <= a1 && SameContent(p, p1, a) && SameContent(p1, p2, a1)
    ensures Move(p, a, p2, a2, others) && SameContent(p, p2, a)
  {}

  lemma {:induction false} GrowTablesGrow(p: Pool, tables: seq<Table>, sid: nat, tpb: nat, count: nat)
    requires ValidPool(p) && count * |tables| <= |p.free|
    requires forall l :: 0 <= l < |tables| ==> Dense(tables[l])
    ensures var (q, tables') := GrowTables(p, tables, sid, tpb, count);
            && |q.free| == |p.free| - count * |tables|
            && |tables'| == |tables|
            && forall l :: 0 <= l < |tables| ==> Grown(tables[l], tables'[l], sid, tpb, count)
    decreases |tables|
  {
    if tables != [] {
      assert count * |tables| == count + count * |tables[1..]|;
      GrowTableGrows(p, tables[0], sid, tpb, count);
      var (p1, t1) := GrowTable(p, tables[0], sid, tpb, |tables[0]|, count);
      GrowTablesGrow(p1, tables[1..], sid, tpb, count);
    }
  }

  lemma {:induction false} GrowTablesMove(
    p: Pool, tables: seq<Table>, sid: nat, tpb: nat, count: nat, others: multiset<Res>)
    requires Accounted(p, others + HeldBy(tables)) && count * |tables| <= |p.free|
    requires forall l :: 0 <= l < |tables| ==> Dense(tables[l])
    ensures var (q, tables') := GrowTables(p, tables, sid, tpb, count);
            && Move(p, HeldBy(tables), q, HeldBy(tables'), others)
            && SameContent(p, q, HeldBy(tables))
    decreases |tables|
  {
    if tables == [] {
      MoveNothing(p, HeldBy([]), others);
    } else {
      var t, rest := tables[0], tables[1..];
      FlatSplit(tables);
      assert count * |tables| == count + count * |rest|;
      Regroup(others, multiset(Wheres(t)), HeldBy(rest));
      GrowTableMoves(p, t, sid, tpb, count, others + HeldBy(rest));
      GrowTableGrows(p, t, sid, tpb, count);
      var (p1, t1) := GrowTable(p, t, sid, tpb, |t|, count);
      Regroup(others, multiset(Wheres(t1)), HeldBy(rest));
      GrowTablesMove(p1, rest, sid, tpb, count, others + multiset(Wheres(t1)));
      var (p2, rest') := GrowTables(p1, rest, sid, tpb, count);
      FlatSplit([t1] + rest');
      MoveCompose(p, p1, p2, multiset(Wheres(t)), multiset(Wheres(t1)), HeldBy(rest), HeldBy(rest'), others);
      GrowKeepsContent(p, p1, p2, t, t1, HeldBy(rest), others);
    }
  }

  lemma GrowKeepsContent(
    p: Pool, p1: Pool, p2: Pool, t: Table, t1: Table, rest: multiset<Res>, others: multiset<Res>)
    requires t <= t1
    requires SameContent(p, p1, others + rest) && SameContent(p, p1, multiset(Wheres(t)))
    requires SameContent(p1, p2, others + multiset(Wheres(t1))) && SameContent(p1, p2, rest)
    ensures SameContent(p, p2, multiset(Wheres(t)) + rest)
  {
    assert Wheres(t1) == Wheres(t) + Wheres(t1)[|t|..];
  }

  // ---- Moving entries one by one ----------------------------------------------------------------

  /** The same logical blocks holding the same bytes, each now in p or now in q. */
  ghost predicate SameTable(p: Pool, t: Table, q: Pool, t': Table) {
    && |t'| == |t|
    && forall i :: 0 <= i < |t| ==>
         t'[i].logical == t[i].logical && Content(q, Where(t'[i])) == Content(p, Where(t[i]))
  }

  ghost predicate SameTables(p: Pool, tables: seq<Table>, q: Pool, tables': seq<Table>) {
    && |tables'| == |tables|
    && forall l :: 0 <= l < |tables| ==> SameTable(p, tables[l], q, tables'[l])
  }

  lemma SameTablesSameBlocks(p: Pool, tables: seq<Table>, q: Pool, tables': seq<Table>)
    requires SameTables(p, tables, q, tables')
    ensures Blocks(q, tables') == Blocks(p, tables)
  {
    forall l | 0 <= l < |tables|
      ensures TableBlocks(q, tables'[l]) == TableBlocks(p, tables[l])
    {
      assert SameTable(p, tables[l], q, tables'[l]);
    }
  }

  lemma SameTableLater(p: Pool, t: Table, p1: Pool, t1: Table, p2: Pool)
    requires SameTable(p, t, p1, t1) && SameContent(p1, p2, multiset(Wheres(t1)))
    ensures SameTable(p, t, p2, t1)
  {
    forall i | 0 <= i < |t1|
      ensures Content(p2, Where(t1[i])) == Content(p1, Where(t1[i]))
    {
      assert Wheres(t1)[i] in multiset(Wheres(t1));
    }
  }

  lemma SameTableEarlier(p: Pool, p1: Pool, t: Table, p2: Pool, t2: Table)
    requires SameTable(p1, t, p2, t2) && SameContent(p, p1, multiset(Wheres(t)))
    ensures SameTable(p, t, p2, t2)
  {
    forall i | 0 <= i < |t|
      ensures Content(p1, Where(t[i])) == Content(p, Where(t[i]))
    {
      assert Wheres(t)[i] in multiset(Wheres(t));
    }
  }

  /** Head entry then tail, each moved with its bytes, is the whole table moved with its bytes. */
  lemma TableCons(
    p: Pool, p1: Pool, p2: Pool, t: Table, e: Entry, rest': Table, others: multiset<Res>)
    requires t != [] && e.logical == t[0].logical
    requires Move(p, multiset{Where(t[0])}, p1, multiset{Where(e)}, others + multiset(Wheres(t[1..])))
    requires Content(p1, Where(e)) == Content(p, Where(t[0]))
    requires Move(p1, multiset(Wheres(t[1..])), p2, multiset(Wheres(rest')), others + multiset{Where(e)})
    requires SameTable(p1, t[1..], p2, rest')
    ensures Move(p, multiset(Wheres(t)), p2, multiset(Wheres([e] + rest')), others)
    ensures SameTable(p, t, p2, [e] + rest')
  {
    WheresSplit(t);
    WheresSplit([e] + rest');
    assert ([e] + rest')[1..] == rest';
    MoveCompose(p, p1, p2, multiset{Where(t[0])}, multiset{Where(e)},
                multiset(Wheres(t[1..])), multiset(Wheres(rest')), others);
    assert Where(e) in others + multiset{Where(e)};
    SameTableCons(p, p1, p2, t, e, rest');
  }

  lemma SameTableCons(p: Pool, p1: Pool, p2: Pool, t: Table, e: Entry, rest': Table)
    requires t != [] && e.logical == t[0].logical
    requires SameContent(p, p1, multiset(Wheres(t[1..])))
    requires Content(p2, Where(e)) == Content(p, Where(t[0]))
    requires SameTable(p1, t[1..], p2, rest')
    ensures SameTable(p, t, p2, [e] + rest')
  {
    SameTableEarlier(p, p1, t[1..], p2, rest');
    forall i | 0 < i < |t|
      ensures ([e] + rest')[i] == rest'[i - 1] && t[i] == t[1..][i - 1]
    {}
  }

  lemma TablesCons(
    p: Pool, p1: Pool, p2: Pool, tables: seq<Table>, t1: Table, rest': seq<Table>, others: multiset<Res>)
    requires tables != []
    requires Move(p, multiset(Wheres(tables[0])), p1, multiset(Wheres(t1)), others + HeldBy(tables[1..]))
    requires SameTable(p, tables[0], p1, t1)
    requires Move(p1, HeldBy(tables[1..]), p2, HeldBy(rest'), others + multiset(Wheres(t1)))
    requires SameTables(p1, tables[1..], p2, rest')
    ensures Move(p, HeldBy(tables), p2, HeldBy([t1] + rest'), others)
    ensures SameTables(p, tables, p2, [t1] + rest')
  {
    hide SameTable, HeldBy, Wheres, Accounted, Renews;
    FlatSplit(tables);
    FlatSplit([t1] + rest');
    assert ([t1] + rest')[1..] == rest';
    MoveCompose(p, p1, p2, multiset(Wheres(tables[0])), multiset(Wheres(t1)),
                HeldBy(tables[1..]), HeldBy(rest'), others);
    SameTableLater(p, tables[0], p1, t1, p2);
    forall l | 0 < l < |tables|
      ensures SameTable(p, tables[l], p2, ([t1] + rest')[l])
    {
      assert tables[l] == tables[1..][l - 1] && ([t1] + rest')[l] == rest'[l - 1];
      TableHeldByAll(tables[1..], l - 1);
      SameTableEarlier(p, p1, tables[l], p2, rest'[l - 1]);
    }
  }

  lemma {:induction false} TableHeldByAll(tables: seq<Table>, l: nat)
    requires l < |tables|
    ensures multiset(Wheres(tables[l])) <= HeldBy(tables)
  {
    if l > 0 {
      TableHeldByAll(tables[1..], l - 1);
    }
  }

  // ---- Evicting ----------------------------------------------------------------------------------

  lemma SwapOutMoves(p: Pool, e: Entry, others: multiset<Res>)
    requires Accounted(p, others + multiset{Where(e)}) && e.slot.None?
    ensures var (q, slot) := SwapOut(p, e.physical);
            var e' := if slot.Some? then e.(slot := slot) else e;
            && Move(p, multiset{Where(e)}, q, multiset{Where(e')}, others)
            && Content(q, Where(e')) == Content(p, Where(e))
            && |q.free| == |p.free| + if slot.Some? then 1 else 0
  {
    var held := others + multiset{Where(e)};
    assert OnFrame(e.physical) in held;
    SwapOutAccounted(p, held, e.physical);
    var (q, slot) := SwapOut(p, e.physical);
    if slot.Some? {
      assert held - multiset{OnFrame(e.physical)} + multiset{InSlot(slot.value)} == others + multiset{InSlot(slot.value)};
    }
  }

  lemma {:induction false} SwapOutTableMoves(p: Pool, t: Table, others: multiset<Res>)
    requires Accounted(p, others + multiset(Wheres(t)))
    ensures var (q, t', n) := SwapOutTable(p, t);
            && Move(p, multiset(Wheres(t)), q, multiset(Wheres(t')), others)
            && SameTable(p, t, q, t')
            && |q.free| == |p.free| + n && SlotCount(t') == SlotCount(t) + n
    decreases |t|
  {
    if t == [] {
      MoveNothing(p, multiset(Wheres(t)), others);
    } else {
      var rest := t[1..];
      WheresSplit(t);
      Regroup(others, multiset{Where(t[0])}, multiset(Wheres(rest)));
      var (q, slot) := if t[0].slot.Some? then (p, None) else SwapOut(p, t[0].physical);
      var e := if slot.Some? then t[0].(slot := slot) else t[0];
      if t[0].slot.None? {
        SwapOutMoves(p, t[0], others + multiset(Wheres(rest)));
      } else {
        MoveNothing(p, multiset{Where(t[0])}, others + multiset(Wheres(rest)));
      }
      Regroup(others, multiset{Where(e)}, multiset(Wheres(rest)));
      SwapOutTableMoves(q, rest, others + multiset{Where(e)});
      var (q', rest', n) := SwapOutTable(q, rest);
      TableCons(p, q, q', t, e, rest', others);
      assert ([e] + rest')[1..] == rest';
    }
  }

  lemma {:induction false} SwapOutTablesMove(p: Pool, tables: seq<Table>, others: multiset<Res>)
    requires Accounted(p, others + HeldBy(tables))
    ensures var (q, tables', n) := SwapOutTables(p, tables);
            && Move(p, HeldBy(tables), q, HeldBy(tables'), others)
            && SameTables(p, tables, q, tables')
            && |q.free| == |p.free| + n && SlotCountAll(tables') == SlotCountAll(tables) + n
    decreases |tables|
  {
    if tables == [] {
      MoveNothing(p, HeldBy(tables), others);
    } else {
      var t, rest := tables[0], tables[1..];
      FlatSplit(tables);
      Regroup(others, multiset(Wheres(t)), HeldBy(rest));
      SwapOutTableMoves(p, t, others + HeldBy(rest));
      var (p1, t1, n1) := SwapOutTable(p, t);
      Regroup(others, multiset(Wheres(t1)), HeldBy(rest));
      SwapOutTablesMove(p1, rest, others + multiset(Wheres(t1)));
      var (p2, rest', n2) := SwapOutTables(p1, rest);
      TablesCons(p, p1, p2, tables, t1, rest', others);
      assert ([t1] + rest')[1..] == rest';
    }
  }

  // ---- Restoring ---------------------------------------------------------------------------------

  lemma SwapInMoves(p: Pool, e: Entry, others: multiset<Res>)
    requires Accounted(p, others + multiset{Where(e)}) && e.slot.Some? && p.free != []
    ensures var (q, id) := SwapIn(p, e.slot.value);
            && id.Some?
            && var e' := e.(physical := id.value, slot := None);
               && Move(p, multiset{Where(e)}, q, multiset{Where(e')}, others)
               && Content(q, Where(e')) == Content(p, Where(e))
               && |q.free| == |p.free| - 1
  {
    var held := others + multiset{Where(e)};
    assert InSlot(e.slot.value) in held;
    SwapInAccounted(p, held, e.slot.value);
    var (q, id) := SwapIn(p, e.slot.value);
    assert held - multiset{InSlot(e.slot.value)} == others;
  }

  lemma {:induction false} SwapInTableMoves(p: Pool, t: Table, others: multiset<Res>)
    requires Accounted(p, others + multiset(Wheres(t))) && SlotCount(t) <= |p.free|
    ensures var (q, t') := SwapInTable(p, t);
            && Move(p, multiset(Wheres(t)), q, multiset(Wheres(t')), others)
            && SameTable(p, t, q, t')
            && |q.free| == |p.free| - SlotCount(t) && SlotCount(t') == 0
    decreases |t|
  {
    if t == [] {
      MoveNothing(p, multiset(Wheres(t)), others);
    } else {
      var rest := t[1..];
      WheresSplit(t);
      Regroup(others, multiset{Where(t[0])}, multiset(Wheres(rest)));
      var (q, id) := if t[0].slot.Some? then SwapIn(p, t[0].slot.value) else (p, None);
      var e := if id.Some? then t[0].(physical := id.value, slot := None) else t[0];
      if t[0].slot.Some? {
        SwapInMoves(p, t[0], others + multiset(Wheres(rest)));
      } else {
        MoveNothing(p, multiset{Where(t[0])}, others + multiset(Wheres(rest)));
      }
      Regroup(others, multiset{Where(e)}, multiset(Wheres(rest)));
      SwapInTableMoves(q, rest, others + multiset{Where(e)});
      var (q', rest') := SwapInTable(q, rest);
      TableCons(p, q, q', t, e, rest', others);
      assert ([e] + rest')[1..] == rest';
    }
  }

  lemma {:induction false} SwapInTablesMove(p: Pool, tables: seq<Table>, others: multiset<Res>)
    requires Accounted(p, others + HeldBy(tables)) && SlotCountAll(tables) <= |p.free|
    ensures var (q, tables') := SwapInTables(p, tables);
            && Move(p, HeldBy(tables), q, HeldBy(tables'), others)
            && SameTables(p, tables, q, tables')
            && |q.free| == |p.free| - SlotCountAll(tables) && SlotCountAll(tables') == 0
    decreases |tables|
  {
    if tables == [] {
      MoveNothing(p, HeldBy(tables), others);
    } else {
      var t, rest := tables[0], tables[1..];
      FlatSplit(tables);
      Regroup(others, multiset(Wheres(t)), HeldBy(rest));
      SwapInTableMoves(p, t, others + HeldBy(rest));
      var (p1, t1) := SwapInTable(p, t);
      Regroup(others, multiset(Wheres(t1)), HeldBy(rest));
      SwapInTablesMove(p1, rest, others + multiset(Wheres(t1)));
      var (p2, rest') := SwapInTables(p1, rest);
      TablesCons(p, p1, p2, tables, t1, rest', others);
      assert ([t1] + rest')[1..] == rest';
    }
  }
}
