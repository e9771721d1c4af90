/**
  What page-table entries say about themselves: which logical block they are, and whether their
  sequence made them writable.  Neither changes what anybody reads, so the refinement results leave
  them out.
 */
module CacheLabels {
  import opened Wrappers
  import opened Arithmetic
  import opened SwapStore
  import opened FramePool
  import opened PageTable
  import opened CacheStore
  import opened CacheAccounting
  import opened CacheTables
  import opened CacheRefinement
  import opened CacheWrites
  import opened CachePrefixes
  import opened CacheSharing
  import opened CacheRuns
  import opened CacheTheorems
  import CacheIsolation
  import CacheLifecycle

  /** An entry without its frame or slot. */
  datatype Mark = Mark(logical: LogicalBlock, writable: bool)

  function Marks(t: Table): seq<Mark> {
    seq(|t|, i requires 0 <= i < |t| => Mark(t[i].logical, t[i].writable))
  }

  function Marked(tables: seq<Table>): seq<seq<Mark>> {
    seq(|tables|, l requires 0 <= l < |tables| => Marks(tables[l]))
  }

  ghost function MarksOf(st: Store): map<nat, seq<seq<Mark>>> {
    map sid | sid in st.seqs :: Marked(st.seqs[sid].tables)
  }

  /** n blocks of a sequence in a row, from block `first` on. */
  function Blank(sid: nat, first: nat, n: nat, tpb: nat, writable: bool): seq<Mark> {
    seq(n, k requires 0 <= k < n => Mark(LogicalBlock(sid, first + k, (first + k) * tpb, tpb), writable))
  }

  function BlankRows(tables: nat, sid: nat, n: nat, tpb: nat): seq<seq<Mark>> {
    seq(tables, _ => Blank(sid, 0, n, tpb, false))
  }

  function Extended(rows: seq<seq<Mark>>, sid: nat, n: nat, tpb: nat): seq<seq<Mark>> {
    seq(|rows|, l requires 0 <= l < |rows| => rows[l] + Blank(sid, |rows[l]|, n, tpb, true))
  }

  function InheritedRow(row: seq<Mark>, child: nat): seq<Mark> {
    seq(|row|, i requires 0 <= i < |row| => Mark(row[i].logical.(sequence := child), false))
  }

  function Inherited(rows: seq<seq<Mark>>, child: nat): seq<seq<Mark>> {
    seq(|rows|, l requires 0 <= l < |rows| => InheritedRow(rows[l], child))
  }

  function Opened(rows: seq<seq<Mark>>, layer: nat, i: nat): seq<seq<Mark>> {
    if layer < |rows| && i < |rows[layer]| then rows[layer := rows[layer][i := rows[layer][i].(writable := true)]] else rows
  }

  /** What an attachment of so many tokens does to the marks. */
  ghost predicate AttachMarks(m: map<nat, seq<seq<Mark>>>, m': map<nat, seq<seq<Mark>>>, tables: nat, sid: nat, tokens: nat, tpb: nat) {
    if tokens > 0 then tpb > 0 && m' == m[sid := BlankRows(tables, sid, tokens / tpb, tpb)] else m' == m
  }

  /**
    What a call with this result does to the marks: reserving adds writable blocks of its own, forking
    hands the parent's blocks to the child and clears their flags there, a write sets the flag of the
    block it made its own, attaching starts with blocks that are not writable, releasing forgets them,
    and every other call changes none.
   */
  ghost predicate MarksFollow(st: Store, op: Op, result: nat, m': map<nat, seq<seq<Mark>>>) {
    var m, tpb := MarksOf(st), TokensPerBlock(st.pool);
    match op
    case Create(sid, _) => m' == if result > 0 then m[sid := seq(TableCount(st.pool), _ => [])] else m
    case ForkFrom(parent, child, _) =>
      if result > 0 then parent in m && m' == m[child := Inherited(m[parent], child)] else m' == m
    case Reserve(sid, tokens) =>
      if result > 0 then tpb > 0 && sid in m && m' == m[sid := Extended(m[sid], sid, CeilDiv(tokens, tpb), tpb)] else m' == m
    case Write(sid, token, layer, _) =>
      if Writable(st, sid, token, layer) then tpb > 0 && sid in m && m' == m[sid := Opened(m[sid], layer, token / tpb)] else m' == m
    case Attach(sid, _) =>
      AttachMarks(m, m', TableCount(st.pool), sid, result, tpb)
    case ReleaseOne(sid) => m' == m - {sid}
    case ReleaseWhole(request) => m' == m - set sid | sid in SequencesFor(st, request)
    case _ => m' == m
  }

  // ---- One call -----------------------------------------------------------------------------------------

  lemma MarksAfterPut(st: Store, p: Pool, sid: nat, s: Sequence)
    ensures MarksOf(st.(pool := p, seqs := st.seqs[sid := s])) == MarksOf(st)[sid := Marked(s.tables)]
  {}

  lemma MarksOfReserve(st: Store, sid: nat, tokens: nat)
    requires MemoryInv(st)
    ensures ValidPool(st.pool)
    ensures var (st', ok) := ReserveTokens(st, sid, tokens);
            var m, tpb := MarksOf(st), TokensPerBlock(st.pool);
            if ok then tpb > 0 && sid in m && MarksOf(st') == m[sid := Extended(m[sid], sid, CeilDiv(tokens, tpb), tpb)]
            else MarksOf(st') == m
  {
    hide MemoryInv, ReserveTokens, GrowTables, CeilDiv, ValidPool, TokensPerBlock, Grown, TablesOk;
    PoolIsValid(st);
    ReserveIs(st, sid, tokens);
    if ReserveTokens(st, sid, tokens).1 {
      var tpb := TokensPerBlock(st.pool);
      var n, tables := CeilDiv(tokens, tpb), st.seqs[sid].tables;
      TablesOkOf(st, sid);
      TablesAreDense(st.pool, tables);
      GrowTablesGrow(st.pool, tables, sid, tpb, n);
      var (q, tables') := GrowTables(st.pool, tables, sid, tpb, n);
      forall l | 0 <= l < |tables|
        ensures Marks(tables'[l]) == Marks(tables[l]) + Blank(sid, |tables[l]|, n, tpb, true)
      {
        GrownMarks(tables[l], tables'[l], sid, tpb, n);
      }
      assert Marked(tables') == Extended(Marked(tables), sid, n, tpb);
      MarksAfterPut(st, q, sid, st.seqs[sid].(tables := tables'));
    }
  }

  lemma GrownMarks(t: Table, t': Table, sid: nat, tpb: nat, n: nat)
    requires Grown(t, t', sid, tpb, n)
    ensures Marks(t') == Marks(t) + Blank(sid, |t|, n, tpb, true)
  {
    hide Dense;
    var r := Marks(t) + Blank(sid, |t|, n, tpb, true);
    forall i | 0 <= i < |t'|
      ensures Marks(t')[i] == r[i]
    {
      if i < |t| {
        assert t'[i] == t[i];
      }
    }
  }

  lemma {:induction false} MarksOfSwapOut(p: Pool, t: Table)
    requires ValidPool(p)
    ensures Marks(SwapOutTable(p, t).1) == Marks(t)
    decreases |t|
  {
    hide ValidPool;
    if t != [] {
      var (q, slot) := if t[0].slot.Some? then (p, None) else SwapOut(p, t[0].physical);
      MarksOfSwapOut(q, t[1..]);
      MarksAreFirst(t, t[0].(slot := if slot.Some? then slot else t[0].slot), SwapOutTable(q, t[1..]).1);
    }
  }

  lemma MarksAreFirst(t: Table, e: Entry, rest: Table)
    requires t != [] && e.logical == t[0].logical && e.writable == t[0].writable && Marks(rest) == Marks(t[1..])
    ensures Marks([e] + rest) == Marks(t)
  {
    assert |rest| == |Marks(rest)| && |t[1..]| == |Marks(t[1..])|;
    forall i | 0 <= i < |t|
      ensures Marks([e] + rest)[i] == Marks(t)[i]
    {
      if i > 0 {
        assert Marks(rest)[i - 1] == Marks(t[1..])[i - 1];
      }
    }
  }

  lemma {:induction false} MarksOfSwapIn(p: Pool, t: Table)
    requires ValidPool(p)
    ensures Marks(SwapInTable(p, t).1) == Marks(t)
    decreases |t|
  {
    hide ValidPool;
    if t != [] {
      var (q, id) := if t[0].slot.Some? then SwapIn(p, t[0].slot.value) else (p, None);
      MarksOfSwapIn(q, t[1..]);
      MarksAreFirst(t, if id.Some? then t[0].(physical := id.value, slot := None) else t[0], SwapInTable(q, t[1..]).1);
    }
  }

  lemma MarkedFirst(tables: seq<Table>, t: Table, rest: seq<Table>)
    requires tables != [] && Marks(t) == Marks(tables[0]) && Marked(rest) == Marked(tables[1..])
    ensures Marked([t] + rest) == Marked(tables)
  {
    hide Marks;
    assert |rest| == |Marked(rest)| && |tables[1..]| == |Marked(tables[1..])|;
    forall l | 0 <= l < |tables|
      ensures Marked([t] + rest)[l] == Marked(tables)[l]
    {
      if l > 0 {
        assert Marked(rest)[l - 1] == Marked(tables[1..])[l - 1];
      }
    }
  }

  lemma {:induction false} MarkedSwapOut(p: Pool, tables: seq<Table>)
    requires ValidPool(p)
    ensures Marked(SwapOutTables(p, tables).1) == Marked(tables)
    decreases |tables|
  {
    hide ValidPool, SwapOutTable, Marked, Marks;
    if tables != [] {
      var (p1, t1, _) := SwapOutTable(p, tables[0]);
      MarksOfSwapOut(p, tables[0]);
      MarkedSwapOut(p1, tables[1..]);
      MarkedFirst(tables, t1, SwapOutTables(p1, tables[1..]).1);
    }
  }

  lemma {:induction false} MarkedSwapIn(p: Pool, tables: seq<Table>)
    requires ValidPool(p)
    ensures Marked(SwapInTables(p, tables).1) == Marked(tables)
    decreases |tables|
  {
    hide ValidPool, SwapInTable, Marked, Marks;
    if tables != [] {
      var (p1, t1) := SwapInTable(p, tables[0]);
      MarksOfSwapIn(p, tables[0]);
      MarkedSwapIn(p1, tables[1..]);
      MarkedFirst(tables, t1, SwapInTables(p1, tables[1..]).1);
    }
  }

  lemma MarksUnder(st: Store, st': Store)
    requires st'.seqs.Keys == st.seqs.Keys && forall sid :: sid in st.seqs ==> Marked(st'.seqs[sid].tables) == Marked(st.seqs[sid].tables)
    ensures MarksOf(st') == MarksOf(st)
  {}

  lemma MarksOfEvict(st: Store, sid: nat)
    requires ValidPool(st.pool)
    ensures MarksOf(SwapOutSequence(st, sid).0) == MarksOf(st) && SwapOutSequence(st, sid).0.seqs.Keys == st.seqs.Keys
  {
    hide ValidPool, SwapOutTables, Marked;
    if sid in st.seqs {
      MarkedSwapOut(st.pool, st.seqs[sid].tables);
      MarksUnder(st, SwapOutSequence(st, sid).0);
    }
  }

  lemma MarksOfRestore(st: Store, sid: nat)
    requires ValidPool(st.pool)
    ensures MarksOf(SwapInSequence(st, sid).0) == MarksOf(st)
  {
    hide ValidPool, SwapInTables, Marked, SlotCountAll;
    if sid in st.seqs {
      MarkedSwapIn(st.pool, st.seqs[sid].tables);
      MarksUnder(st, SwapInSequence(st, sid).0);
    }
  }

  lemma {:induction false} MarksOfEvictEach(st: Store, ids: seq<nat>)
    requires ValidPool(st.pool)
    ensures MarksOf(SwapOutEach(st, ids).0) == MarksOf(st)
    decreases |ids|
  {
    hide ValidPool, SwapOutSequence, MarksOf;
    if ids != [] {
      MarksOfEvict(st, ids[0]);
      MarksOfEvictEach(SwapOutSequence(st, ids[0]).0, ids[1..]);
    }
  }

  lemma {:induction false} MarksOfRestoreEach(st: Store, ids: seq<nat>)
    requires ValidPool(st.pool)
    ensures MarksOf(SwapInEach(st, ids).0) == MarksOf(st)
    decreases |ids|
  {
    hide ValidPool, SwapInSequence, MarksOf;
    if ids != [] {
      MarksOfRestore(st, ids[0]);
      MarksOfRestoreEach(SwapInSequence(st, ids[0]).0, ids[1..]);
    }
  }

  lemma MarksOfRestoreRequest(st: Store, request: nat)
    requires ValidPool(st.pool)
    ensures MarksOf(SwapInRequest(st, request).0) == MarksOf(st)
  {
    hide ValidPool, SwapInEach, MarksOf, SlotsNeeded;
    MarksOfRestoreEach(st, SequencesFor(st, request));
  }

  lemma MarksOfCreate(st: Store, sid: nat, request: nat)
    ensures var (st', ok) := CreateSequence(st, sid, request);
            MarksOf(st') == if ok then MarksOf(st)[sid := seq(TableCount(st.pool), _ => [])] else MarksOf(st)
  {
    if sid !in st.seqs {
      var tables: seq<Table> := seq(TableCount(st.pool), _ => []);
      assert Marked(tables) == seq(TableCount(st.pool), _ => []);
      MarksAfterPut(st, st.pool, sid, Sequence(request, tables, "", 0));
    }
  }

  lemma MarkedFork(tables: seq<Table>, child: nat)
    ensures Marked(ForkTables(tables, child)) == Inherited(Marked(tables), child)
  {
    forall l | 0 <= l < |tables|
      ensures Marks(Fork(tables[l], child)) == InheritedRow(Marks(tables[l]), child)
    {
    }
  }

  lemma MarksOfFork(st: Store, parent: nat, child: nat, request: nat)
    requires ValidPool(st.pool)
    ensures var (st', ok) := ForkSequence(st, parent, child, request);
            if ok then parent in MarksOf(st) && MarksOf(st') == MarksOf(st)[child := Inherited(MarksOf(st)[parent], child)]
            else MarksOf(st') == MarksOf(st)
  {
    hide ValidPool, ForkTables, Marked, Inherited, RetainAll, Flat, AllResident;
    if ForkSequence(st, parent, child, request).1 {
      MarkedFork(st.seqs[parent].tables, child);
      assert MarksOf(st)[parent] == Marked(st.seqs[parent].tables);
    }
  }

  lemma MarkedPut(tables: seq<Table>, layer: nat, i: nat, e: Entry)
    requires layer < |tables| && i < |tables[layer]| && e.logical == tables[layer][i].logical && e.writable
    ensures Marked(tables[layer := tables[layer][i := e]]) == Opened(Marked(tables), layer, i)
  {
    var r := Marked(tables[layer := tables[layer][i := e]]);
    forall l | 0 <= l < |tables|
      ensures r[l] == Opened(Marked(tables), layer, i)[l]
    {
      assert Marks(tables[layer][i := e]) == Marks(tables[layer])[i := Mark(e.logical, true)];
    }
  }

  lemma MarksAfterEntry(st: Store, p: Pool, sid: nat, layer: nat, i: nat, e: Entry)
    requires sid in st.seqs && layer < |st.seqs[sid].tables| && i < |st.seqs[sid].tables[layer]|
    requires e.logical == st.seqs[sid].tables[layer][i].logical && e.writable
    ensures MarksOf(PutEntry(st, p, sid, layer, i, e)) == MarksOf(st)[sid := Opened(Marked(st.seqs[sid].tables), layer, i)]
  {
    hide Opened, Marked;
    MarkedPut(st.seqs[sid].tables, layer, i, e);
  }

  lemma MarksOfEnsure(st: Store, sid: nat, token: nat, layer: nat)
    requires MemoryInv(st)
    ensures ValidPool(st.pool)
    ensures var st' := EnsureTokenWritable(st, sid, token, layer).0;
            if Writable(st, sid, token, layer) then
              && sid in st.seqs && TokensPerBlock(st.pool) > 0
              && MarksOf(st') == MarksOf(st)[sid := Opened(Marked(st.seqs[sid].tables), layer, token / TokensPerBlock(st.pool))]
            else MarksOf(st') == MarksOf(st)
  {
    hide MemoryInv, MarksOf, Opened, Marked, PutEntry, EnsureTokenWritable, ValidPool, TargetReady, Release, CopyBlock, Allocate;
    PoolIsValid(st);
    TargetIsReady(st, sid, token, layer);
    EnsureIs(st, sid, token, layer);
    if Writable(st, sid, token, layer) {
      var i := token / TokensPerBlock(st.pool);
      var e: Entry := st.seqs[sid].tables[layer][i];
      var (p, copy) := Allocate(st.pool);
      MarksAfterEntry(st, st.pool, sid, layer, i, e.(writable := true));
      if st.pool.infos[e.physical].refs != 1 {
        var e': Entry := e.(physical := copy.value, writable := true);
        MarksAfterEntry(st, Release(CopyBlock(p, e.physical, copy.value), e.physical), sid, layer, i, e');
      }
    }
  }

  lemma MarksOfWrite(st: Store, sid: nat, token: nat, layer: nat, content: Frame)
    requires ValidPool(st.pool)
    ensures MarksOf(WriteBlock(st, sid, token, layer, content).0) == MarksOf(EnsureTokenWritable(st, sid, token, layer).0)
  {
    hide ValidPool, EnsureTokenWritable, WriteFrame, Marked;
  }

  lemma MarksOfPublish(st: Store, sid: nat, key: string, hash: ContentHash)
    requires MemoryInv(st)
    ensures ValidPool(st.pool) && MarksOf(PublishPrefix(st, sid, key, hash).0) == MarksOf(st)
  {
    hide MemoryInv, ValidPool, PublishPrefix, Marked, RetainAll, Flat, Blocks;
    PoolIsValid(st);
    CacheLifecycle.PublishIs(st, sid, key, hash);
    MarksUnder(st, PublishPrefix(st, sid, key, hash).0);
  }

  lemma {:induction false} MarkedAttach(ids: seq<nat>, sid: nat, tpb: nat, n: nat, k: nat)
    requires |ids| == n * k
    ensures |AttachTables(ids, sid, tpb, n, k)| == k
    ensures forall l :: 0 <= l < k ==> Marks(AttachTables(ids, sid, tpb, n, k)[l]) == Blank(sid, 0, n, tpb, false)
    decreases k
  {
    if k > 0 {
      assert n * k == n + n * (k - 1);
      MarkedAttach(ids[n..], sid, tpb, n, k - 1);
      assert Marks(AttachTable(ids[..n], sid, tpb)) == Blank(sid, 0, n, tpb, false);
    }
  }

  lemma MarksOfAttach(st: Store, sid: nat, key: string)
    requires MemoryInv(st) && PrefixInv(st)
    ensures ValidPool(st.pool)
    ensures var (st', tokens) := AttachPrefix(st, sid, key);
            AttachMarks(MarksOf(st), MarksOf(st'), TableCount(st.pool), sid, tokens, TokensPerBlock(st.pool))
  {
    hide *;
    PoolIsValid(st);
    AttachShape(st, sid, key);
    AttachUnfolds(st, sid, key);
    if CanAttach(st, sid, key) {
      CanAttachShows(st, sid, key);
      var record, k, tpb := st.prefixes[key][0], TableCount(st.pool), TokensPerBlock(st.pool);
      RecordShows(st.pool, record);
      AttachTokens(st.pool, record);
      var n := |record.ids| / k;
      var tables := AttachTables(record.ids, sid, tpb, n, k);
      MarkedAttached(record.ids, sid, tpb, n, k);
      DivOfMultiple(n, tpb);
      var s := st.seqs[sid].(tables := tables, key := key, hash := record.hash);
      var q := RetainAll(st.pool, Frames(record.ids));
      MarksAfterPut(st, q, sid, s);
      MarksIgnorePrefixes(st.(pool := q, seqs := st.seqs[sid := s]), AttachPrefix(st, sid, key).0.prefixes);
      AttachMarksFrom(MarksOf(st), MarksOf(AttachPrefix(st, sid, key).0), k, sid, n, tpb);
    } else {
      NoAttachMarks(MarksOf(st), TableCount(st.pool), sid, TokensPerBlock(st.pool));
    }
  }

  lemma MarksIgnorePrefixes(st: Store, prefixes: map<string, seq<PrefixRecord>>)
    ensures MarksOf(st.(prefixes := prefixes)) == MarksOf(st)
  {}

  lemma RecordShows(p: Pool, r: PrefixRecord)
    requires RecordOk(p, r)
    ensures TokensPerBlock(p) > 0 && TableCount(p) > 0 && r.tokens == |r.ids| / TableCount(p) * TokensPerBlock(p)
  {}

  lemma MarkedAttached(ids: seq<nat>, sid: nat, tpb: nat, n: nat, k: nat)
    requires |ids| == n * k
    ensures Marked(AttachTables(ids, sid, tpb, n, k)) == BlankRows(k, sid, n, tpb)
  {
    hide Marks, Blank, AttachTables;
    MarkedAttach(ids, sid, tpb, n, k);
  }

  lemma AttachMarksFrom(m: map<nat, seq<seq<Mark>>>, m': map<nat, seq<seq<Mark>>>, tables: nat, sid: nat, n: nat, tpb: nat)
    requires tpb > 0 && n * tpb / tpb == n && m' == m[sid := BlankRows(tables, sid, n, tpb)]
    ensures n * tpb > 0 ==> AttachMarks(m, m', tables, sid, n * tpb, tpb)
  {
    hide BlankRows;
  }

  lemma NoAttachMarks(m: map<nat, seq<seq<Mark>>>, tables: nat, sid: nat, tpb: nat)
    ensures AttachMarks(m, m, tables, sid, 0, tpb)
  {}

  lemma MarksOfRelease(st: Store, sid: nat)
    requires Inv(st)
    ensures ValidPool(st.pool) && MarksOf(ReleaseSequence(st, sid)) == MarksOf(st) - {sid} && Inv(ReleaseSequence(st, sid))
  {
    hide *;
    InvParts(st);
    ReleaseInv(st, sid);
    MarksWithout(st, ReleaseSequence(st, sid), sid);
  }

  lemma MarksWithout(st: Store, st': Store, sid: nat)
    requires st'.seqs == st.seqs - {sid}
    ensures MarksOf(st') == MarksOf(st) - {sid}
  {
    hide Marked;
  }

  lemma {:induction false} MarksOfReleaseEach(st: Store, ids: seq<nat>)
    requires Inv(st)
    ensures ValidPool(st.pool) && MarksOf(ReleaseEach(st, ids)) == MarksOf(st) - set sid | sid in ids
    decreases |ids|
  {
    hide Inv, ValidPool, ReleaseSequence, MarksOf;
    InvParts(st);
    if ids != [] {
      MarksOfRelease(st, ids[0]);
      MarksOfReleaseEach(ReleaseSequence(st, ids[0]), ids[1..]);
      assert (set sid | sid in ids) == {ids[0]} + set sid | sid in ids[1..];
    }
  }

  // ---- Every call, every run --------------------------------------------------------------------------------

  lemma MarksAt(st: Store, sid: nat)
    ensures sid in st.seqs <==> sid in MarksOf(st)
    ensures sid in st.seqs ==> MarksOf(st)[sid] == Marked(st.seqs[sid].tables)
  {}

  /** Main result on entries: every call changes their labels and flags as stated, and in no other way. */
  lemma StepMarks(st: Store, op: Op, hash: ContentHash)
    requires Inv(st)
    ensures ValidPool(st.pool)
    ensures MarksFollow(st, op, Step(st, op, hash).1, MarksOf(Step(st, op, hash).0))
  {
    hide Inv, Step, CreateSequence, ForkSequence, ReserveTokens, WriteBlock, SwapOutSequence, SwapInSequence, SwapOutRequest, SwapInRequest,
         PublishPrefix, AttachPrefix, ReleaseSequence, ReleaseEach, EnsureTokenWritable, SequencesFor, ValidPool, MemoryInv, PrefixInv,
         MarksOf, Marked, Writable, Opened, Extended, Inherited, Blank, AttachMarks, CeilDiv, TokensPerBlock, TableCount;
    InvParts(st);
    StepIs(st, op, hash);
    match op
    case Create(sid, request) => MarksOfCreate(st, sid, request); FlagIs(CreateSequence(st, sid, request));
    case ForkFrom(parent, child, request) =>
      MarksOfFork(st, parent, child, request);
      FlagIs(ForkSequence(st, parent, child, request));
    case Reserve(sid, tokens) => MarksOfReserve(st, sid, tokens); FlagIs(ReserveTokens(st, sid, tokens));
    case Write(sid, token, layer, content) =>
      MarksOfEnsure(st, sid, token, layer);
      MarksOfWrite(st, sid, token, layer, content);
      MarksAt(st, sid);
      FlagIs(WriteBlock(st, sid, token, layer, content));
    case Evict(sid) => MarksOfEvict(st, sid);
    case Restore(sid) => MarksOfRestore(st, sid); FlagIs(SwapInSequence(st, sid));
    case EvictRequest(request) => MarksOfEvictRequest(st, request);
    case RestoreRequest(request) => MarksOfRestoreRequest(st, request); FlagIs(SwapInRequest(st, request));
    case Publish(sid, key) => MarksOfPublish(st, sid, key, hash); FlagIs(PublishPrefix(st, sid, key, hash));
    case Attach(sid, key) => MarksOfAttach(st, sid, key);
    case ReleaseOne(sid) => MarksOfRelease(st, sid);
    case ReleaseWhole(request) => MarksOfReleaseEach(st, SequencesFor(st, request));
  }

  lemma MarksOfEvictRequest(st: Store, request: nat)
    requires ValidPool(st.pool)
    ensures MarksOf(SwapOutRequest(st, request).0) == MarksOf(st)
  {
    hide ValidPool, SwapOutEach, MarksOf;
    MarksOfEvictEach(st, SequencesFor(st, request));
  }

  predicate RowLabelled(row: seq<Mark>, sid: nat, tpb: nat) {
    forall i :: 0 <= i < |row| ==> row[i].logical == LogicalBlock(sid, i, i * tpb, tpb)
  }

  /** Entry i of every table of a sequence says it is that sequence's block i, with that block's tokens. */
  ghost predicate Labelled(m: map<nat, seq<seq<Mark>>>, tpb: nat) {
    forall sid, l :: sid in m && 0 <= l < |m[sid]| ==> RowLabelled(m[sid][l], sid, tpb)
  }

  lemma OpenedLabels(rows: seq<seq<Mark>>, layer: nat, i: nat, sid: nat, tpb: nat)
    requires forall l :: 0 <= l < |rows| ==> RowLabelled(rows[l], sid, tpb)
    ensures forall l :: 0 <= l < |Opened(rows, layer, i)| ==> RowLabelled(Opened(rows, layer, i)[l], sid, tpb)
  {}

  lemma ExtendedLabels(row: seq<Mark>, sid: nat, n: nat, tpb: nat)
    requires RowLabelled(row, sid, tpb)
    ensures RowLabelled(row + Blank(sid, |row|, n, tpb, true), sid, tpb)
  {}

  lemma InheritedLabels(row: seq<Mark>, sid: nat, child: nat, tpb: nat)
    requires RowLabelled(row, sid, tpb)
    ensures RowLabelled(InheritedRow(row, child), child, tpb)
  {}

  lemma FollowKeepsLabels(st: Store, op: Op, result: nat, m': map<nat, seq<seq<Mark>>>)
    requires MarksFollow(st, op, result, m') && Labelled(MarksOf(st), TokensPerBlock(st.pool))
    ensures Labelled(m', TokensPerBlock(st.pool))
  {
    hide MarksOf, Writable, Opened, Blank, InheritedRow, TokensPerBlock, TableCount, RowLabelled, CeilDiv;
    var m, tpb := MarksOf(st), TokensPerBlock(st.pool);
    forall sid, l | sid in m' && 0 <= l < |m'[sid]|
      ensures RowLabelled(m'[sid][l], sid, tpb)
    {
      NoLabels(sid, tpb);
      match op
      case ForkFrom(parent, child, _) =>
        if result > 0 && sid == child {
          InheritedLabels(m[parent][l], parent, child, tpb);
        }
      case Reserve(target, tokens) =>
        if result > 0 && sid == target {
          ExtendedLabels(m[target][l], target, CeilDiv(tokens, tpb), tpb);
        }
      case Write(target, token, layer, _) =>
        if Writable(st, target, token, layer) && sid == target {
          OpenedLabels(m[target], layer, token / tpb, target, tpb);
        }
      case Attach(target, _) =>
        if result > 0 && sid == target {
          BlankLabels(target, result / tpb, tpb);
        }
      case _ =>
    }
  }

  lemma NoLabels(sid: nat, tpb: nat)
    ensures RowLabelled([], sid, tpb)
  {}

  lemma BlankLabels(sid: nat, n: nat, tpb: nat)
    ensures RowLabelled(Blank(sid, 0, n, tpb, false), sid, tpb)
  {}

  /** Over every run an entry's place in its table and its label agree. */
  lemma {:induction false} LabelsOverRuns(st: Store, ops: seq<Op>, hash: ContentHash)
    requires Inv(st) && ValidPool(st.pool) && DisciplinedRun(st, ops, hash) && Labelled(MarksOf(st), TokensPerBlock(st.pool))
    ensures TokensPerBlock(Run(st, ops, hash).pool) == TokensPerBlock(st.pool)
    ensures Labelled(MarksOf(Run(st, ops, hash)), TokensPerBlock(st.pool))
    decreases |ops|
  {
    hide *;
    if ops == [] {
      NothingRun(st, hash);
    } else {
      RunUnfolds(st, ops, hash);
      StepMarks(st, ops[0], hash);
      FollowKeepsLabels(st, ops[0], Step(st, ops[0], hash).1, MarksOf(Step(st, ops[0], hash).0));
      StepKeepsInv(st, ops[0], hash);
      CacheIsolation.RunKeepsLayout(st, ops[0], hash);
      var st1 := Step(st, ops[0], hash).0;
      AbsNumbers(st);
      AbsNumbers(st1);
      LabelsOverRuns(st1, ops[1..], hash);
    }
  }

  lemma FreshLabels(p: Pool)
    ensures Labelled(MarksOf(EmptyStore(p)), TokensPerBlock(p))
  {}
}
