/** Copy-on-write and the store that follows it: the one path by which bytes change. */
module CacheWrites {
  import opened Wrappers
  import opened SwapStore
  import opened FramePool
  import opened PageTable
  import opened CacheStore
  import opened CacheAccounting
  import opened CacheTables
  import opened PrivateStore
  import opened CacheRefinement

  /** One sequence never maps the same frame, or holds the same slot, at two positions. */
  lemma PositionsDiffer(tables: seq<Table>, l: nat, i: nat, l': nat, i': nat)
    requires NoRepeats(Flat(tables))
    requires l < |tables| && i < |tables[l]| && l' < |tables| && i' < |tables[l']|
    requires (l, i) != (l', i')
    ensures Where(tables[l][i]) != Where(tables[l'][i'])
  {
    var r := Where(tables[l][i]);
    var e := tables[l][i].(slot := if r.InSlot? then None else Some(0));
    FlatUpdate(tables, l, i, e);
    var tables' := tables[l := tables[l][i := e]];
    FlatHolds(tables, l, i);
    FlatHolds(tables', l', i');
    assert tables'[l'][i'] == tables[l'][i'];
    assert multiset(Flat(tables))[r] == 1;
  }

  lemma EntryPutTablesOk(p: Pool, q: Pool, tables: seq<Table>, l: nat, i: nat, e: Entry, others: multiset<Res>)
    requires TablesOk(p, tables) && SameLayout(p, q)
    requires l < |tables| && i < |tables[l]| && e.logical == tables[l][i].logical
    requires Renews(HeldBy(tables), HeldBy(tables[l := tables[l][i := e]]), others)
    ensures TablesOk(q, tables[l := tables[l][i := e]])
  {
    var tables' := tables[l := tables[l][i := e]];
    RenewsKeepsNoRepeats(Flat(tables), Flat(tables'), others);
    forall k | 0 <= k < |tables'|
      ensures TableOk(q, tables'[k]) && |tables'[k]| == |tables'[0]|
    {
      assert TableOk(p, tables[k]);
    }
  }

  lemma EntryElsewhere(p: Pool, q: Pool, tables: seq<Table>, l: nat, i: nat, l': nat, i': nat)
    requires l < |tables| && i < |tables[l]| && l' < |tables| && i' < |tables[l']| && (l, i) != (l', i')
    requires NoRepeats(Flat(tables)) && SameContent(p, q, HeldBy(tables) - multiset{Where(tables[l][i])})
    ensures Content(q, Where(tables[l'][i'])) == Content(p, Where(tables[l'][i']))
  {
    hide Content, NoRepeats, Flat;
    FlatHolds(tables, l', i');
    PositionsDiffer(tables, l, i, l', i');
  }

  lemma SameBlockwise(p: Pool, q: Pool, tables: seq<Table>, tables': seq<Table>)
    requires |tables'| == |tables| && forall l :: 0 <= l < |tables| ==> |tables'[l]| == |tables[l]|
    requires forall l, i :: 0 <= l < |tables| && 0 <= i < |tables[l]| ==>
               Content(q, Where(tables'[l][i])) == Content(p, Where(tables[l][i]))
    ensures Blocks(q, tables') == Blocks(p, tables)
  {
    hide Content, Where;
    forall l | 0 <= l < |tables|
      ensures TableBlocks(q, tables'[l]) == TableBlocks(p, tables[l])
    {}
  }

  /** The bytes a sequence reads when one entry moves and takes its bytes along. */
  lemma EntryPutSameBlocks(p: Pool, q: Pool, tables: seq<Table>, l: nat, i: nat, e: Entry)
    requires l < |tables| && i < |tables[l]|
    requires Content(q, Where(e)) == Content(p, Where(tables[l][i]))
    requires SameContent(p, q, HeldBy(tables) - multiset{Where(tables[l][i])})
    requires NoRepeats(Flat(tables))
    ensures Blocks(q, tables[l := tables[l][i := e]]) == Blocks(p, tables)
  {
    hide SameContent, Content, NoRepeats, Flat, HeldBy;
    var tables' := tables[l := tables[l][i := e]];
    forall l', i' | 0 <= l' < |tables| && 0 <= i' < |tables[l']|
      ensures Content(q, Where(tables'[l'][i'])) == Content(p, Where(tables[l'][i']))
    {
      if (l, i) != (l', i') {
        EntryElsewhere(p, q, tables, l, i, l', i');
        assert tables'[l'][i'] == tables[l'][i'];
      }
    }
    SameBlockwise(p, q, tables, tables');
  }

  /** The position a write goes to is mapped, resident, and held by nobody else. */
  ghost predicate Exclusive(st: Store, sid: nat, layer: nat, block: nat, frame: nat) {
    && sid in st.seqs && layer < |st.seqs[sid].tables| && block < |st.seqs[sid].tables[layer]|
    && Where(st.seqs[sid].tables[layer][block]) == OnFrame(frame)
    && frame < |st.pool.infos| && st.pool.infos[frame].refs == 1
  }

  /** When a token can be written: mapped, resident, and private or a spare frame exists. */
  ghost predicate Writable(st: Store, sid: nat, token: nat, layer: nat) {
    var tpb := TokensPerBlock(st.pool);
    && tpb > 0 && sid in st.seqs && layer < |st.seqs[sid].tables|
    && token / tpb < |st.seqs[sid].tables[layer]|
    && var e := st.seqs[sid].tables[layer][token / tpb];
       && e.slot.None?
       && (Count(st.pool, OnFrame(e.physical)) == 1 || st.pool.free != [])
  }

  lemma TargetOf(st: Store, sid: nat, token: nat, layer: nat)
    requires MemoryInv(st) && sid in st.seqs && layer < |st.seqs[sid].tables|
    requires st.seqs[sid].tables[layer] != []
    ensures var t, tpb := st.seqs[sid].tables[layer], TokensPerBlock(st.pool);
            && tpb > 0 && t[0].logical.count == tpb
            && Find(t, token / tpb) == (if token / tpb < |t| then Some(token / tpb) else None)
  {
    assert TableOk(st.pool, st.seqs[sid].tables[layer]);
    DenseLowerBound(st.seqs[sid].tables[layer], token / TokensPerBlock(st.pool));
  }

  lemma EntryIsCounted(st: Store, sid: nat, layer: nat, i: nat)
    requires MemoryInv(st) && sid in st.seqs
    requires layer < |st.seqs[sid].tables| && i < |st.seqs[sid].tables[layer]|
    ensures var r := Where(st.seqs[sid].tables[layer][i]);
            && r in Own(st, sid) && Own(st, sid) <= Held(st)
            && Own(st, sid)[r] == 1 && Count(st.pool, r) >= 1
            && (r.OnFrame? ==> r.frame < |st.pool.infos|)
            && (Count(st.pool, r) == 1 ==> r !in Rest(st, sid))
  {
    var r := Where(st.seqs[sid].tables[layer][i]);
    FlatHolds(st.seqs[sid].tables, layer, i);
    HeldSplits(st, sid);
    assert NoRepeats(Flat(st.seqs[sid].tables));
    assert Held(st)[r] == Count(st.pool, r);
  }

  /** Copying a shared block out: a new frame with the old bytes, one reference fewer on the old. */
  lemma CopyOutMoves(st: Store, sid: nat, layer: nat, i: nat)
    requires MemoryInv(st) && sid in st.seqs && st.pool.free != []
    requires layer < |st.seqs[sid].tables| && i < |st.seqs[sid].tables[layer]|
    requires st.seqs[sid].tables[layer][i].slot.None?
    ensures var e := st.seqs[sid].tables[layer][i];
            var (p, copy) := Allocate(st.pool);
            var q := Release(CopyBlock(p, e.physical, copy.value), e.physical);
            && Move(st.pool, Own(st, sid), q, Own(st, sid) - multiset{Where(e)} + multiset{OnFrame(copy.value)}, Rest(st, sid))
            && Content(q, OnFrame(copy.value)) == Content(st.pool, Where(e))
            && SameContent(st.pool, q, Own(st, sid))
            && copy.value < |q.infos| && q.infos[copy.value].refs == 1 && SameLayout(st.pool, q)
            && |q.free| <= |st.pool.free|
  {
    hide *;
    var e := st.seqs[sid].tables[layer][i];
    WhereResident(e);
    PoolIsValid(st);
    EntryIsCounted(st, sid, layer, i);
    HeldSplits(st, sid);
    MemoryAccounts(st);
    CopyOutAccounted(st.pool, Held(st), e.physical);
    var (p, copy) := Allocate(st.pool);
    var q := Release(CopyBlock(p, e.physical, copy.value), e.physical);
    CopyOutIsMove(st.pool, q, Held(st), Own(st, sid), Rest(st, sid), Where(e), OnFrame(copy.value));
  }

  lemma WhereResident(e: Entry)
    requires e.slot.None?
    ensures Where(e) == OnFrame(e.physical)
  {}

  lemma CopyOutIsMove(p: Pool, q: Pool, held: multiset<Res>, own: multiset<Res>, rest: multiset<Res>, gone: Res, made: Res)
    requires held == rest + own && gone in own && made !in held && Accounted(p, held)
    requires Accounted(q, held + multiset{made} - multiset{gone}) && SameContent(p, q, held) && SameLayout(p, q)
    ensures Move(p, own, q, own - multiset{gone} + multiset{made}, rest)
    ensures SameContent(p, q, own)
  {
    hide Accounted, SameLayout, Content;
    assert held + multiset{made} - multiset{gone} == rest + (own - multiset{gone} + multiset{made});
    assert rest + own == held;
    assert SameContent(p, q, rest);
  }

  lemma CopyOutAccounted(p: Pool, held: multiset<Res>, source: nat)
    requires Accounted(p, held) && OnFrame(source) in held && p.free != []
    ensures var (a, copy) := Allocate(p);
            var q := Release(CopyBlock(a, source, copy.value), source);
            && Accounted(q, held + multiset{OnFrame(copy.value)} - multiset{OnFrame(source)})
            && OnFrame(copy.value) !in held
            && Content(q, OnFrame(copy.value)) == Content(p, OnFrame(source))
            && SameContent(p, q, held) && SameLayout(p, q)
            && copy.value < |q.infos| && q.infos[copy.value].refs == 1
            && |q.free| <= |p.free|
  {
    AllocateAccounted(p, held);
    var (a, copy) := Allocate(p);
    var held1 := held + multiset{OnFrame(copy.value)};
    CopyAccounted(a, held1, source, copy.value);
    var c := CopyBlock(a, source, copy.value);
    ReleaseAccounted(c, held1, source);
    assert (held1 - multiset{OnFrame(source)})[OnFrame(copy.value)] == Count(Release(c, source), OnFrame(copy.value));
  }

  lemma WritableEntry(st: Store, sid: nat, token: nat, layer: nat)
    requires Writable(st, sid, token, layer)
    ensures TokensPerBlock(st.pool) > 0 && sid in st.seqs && layer < |st.seqs[sid].tables|
    ensures token / TokensPerBlock(st.pool) < |st.seqs[sid].tables[layer]|
    ensures st.seqs[sid].tables[layer][token / TokensPerBlock(st.pool)].slot.None?
  {}

  lemma PutIsExclusive(st: Store, q: Pool, sid: nat, layer: nat, i: nat, e: Entry)
    requires sid in st.seqs && layer < |st.seqs[sid].tables| && i < |st.seqs[sid].tables[layer]|
    requires e.slot.None? && e.physical < |q.infos| && q.infos[e.physical].refs == 1
    ensures Exclusive(PutEntry(st, q, sid, layer, i, e), sid, layer, i, e.physical) && PutEntry(st, q, sid, layer, i, e).pool == q
  {}

  lemma EnsureWritableRefines(st: Store, sid: nat, token: nat, layer: nat)
    requires MemoryInv(st)
    ensures var (st', frame) := EnsureTokenWritable(st, sid, token, layer);
            && MemoryInv(st') && Abs(st') == Abs(st)
            && SameLayout(st.pool, st'.pool)
            && (frame.Some? <==> Writable(st, sid, token, layer))
            && (frame.None? ==> st' == st)
            && (frame.Some? ==> Exclusive(st', sid, layer, token / TokensPerBlock(st.pool), frame.value))
            && |st'.pool.free| <= |st.pool.free|
  {
    hide *;
    PoolIsValid(st);
    TargetIsReady(st, sid, token, layer);
    EnsureIs(st, sid, token, layer);
    LayoutItself(st.pool);
    if Writable(st, sid, token, layer) {
      WritableEntry(st, sid, token, layer);
      var i := token / TokensPerBlock(st.pool);
      EntryIsCounted(st, sid, layer, i);
      var e := st.seqs[sid].tables[layer][i];
      var (p, copy) := Allocate(st.pool);
      WriteInPlaceRefines(st, sid, layer, i);
      if st.pool.infos[e.physical].refs == 1 {
        PutIsExclusive(st, st.pool, sid, layer, i, e.(writable := true));
      } else {
        CopyOutRefines(st, sid, layer, i);
        PutIsExclusive(st, Release(CopyBlock(p, e.physical, copy.value), e.physical), sid, layer, i, e.(physical := copy.value, writable := true));
      }
    }
  }

  /** What the call relies on at its target: uniform block sizes and a counted frame. */
  ghost predicate TargetReady(st: Store, sid: nat, token: nat, layer: nat) {
    sid in st.seqs && layer < |st.seqs[sid].tables| && st.seqs[sid].tables[layer] != [] ==>
      var t, tpb := st.seqs[sid].tables[layer], TokensPerBlock(st.pool);
      && tpb > 0 && t[0].logical.count == tpb
      && Find(t, token / tpb) == (if token / tpb < |t| then Some(token / tpb) else None)
      && (token / tpb < |t| && t[token / tpb].slot.None? ==>
            Count(st.pool, OnFrame(t[token / tpb].physical)) >= 1)
  }

  lemma TargetIsReady(st: Store, sid: nat, token: nat, layer: nat)
    requires MemoryInv(st)
    ensures TargetReady(st, sid, token, layer)
  {
    if sid in st.seqs && layer < |st.seqs[sid].tables| && st.seqs[sid].tables[layer] != [] {
      TargetOf(st, sid, token, layer);
      var i := token / TokensPerBlock(st.pool);
      if i < |st.seqs[sid].tables[layer]| {
        EntryIsCounted(st, sid, layer, i);
      }
    }
  }

  lemma AllocateSucceeds(p: Pool)
    requires ValidPool(p)
    ensures Allocate(p).1.Some? <==> p.free != []
  {
    hide ValidPool;
  }

  /** The call by cases: refuse, write in place, or copy out first. */
  lemma EnsureIs(st: Store, sid: nat, token: nat, layer: nat)
    requires ValidPool(st.pool) && TargetReady(st, sid, token, layer)
    ensures var r := EnsureTokenWritable(st, sid, token, layer);
            if !Writable(st, sid, token, layer) then r == (st, None)
            else
              var i := token / TokensPerBlock(st.pool);
              var e := st.seqs[sid].tables[layer][i];
              && e.physical < |st.pool.infos|
              && if st.pool.infos[e.physical].refs == 1 then
                   r == (PutEntry(st, st.pool, sid, layer, i, e.(writable := true)), Some(e.physical))
                 else
                   && st.pool.free != []
                   && var (p, copy) := Allocate(st.pool);
                      var q := Release(CopyBlock(p, e.physical, copy.value), e.physical);
                      r == (PutEntry(st, q, sid, layer, i, e.(physical := copy.value, writable := true)), copy)
  {
    hide ValidPool, Find, PutEntry, Release, CopyBlock;
    if Writable(st, sid, token, layer) {
      AllocateSucceeds(st.pool);
    }
  }

  /** One entry moves with its bytes: the accounting holds and nobody reads a difference. */
  lemma EntryMoved(st: Store, sid: nat, layer: nat, i: nat, e': Entry, q: Pool)
    requires MemoryInv(st) && sid in st.seqs
    requires layer < |st.seqs[sid].tables| && i < |st.seqs[sid].tables[layer]|
    requires e'.logical == st.seqs[sid].tables[layer][i].logical
    requires Move(st.pool, Own(st, sid), q,
                  Own(st, sid) - multiset{Where(st.seqs[sid].tables[layer][i])} + multiset{Where(e')}, Rest(st, sid))
    requires Content(q, Where(e')) == Content(st.pool, Where(st.seqs[sid].tables[layer][i]))
    requires SameContent(st.pool, q, Own(st, sid))
    ensures MemoryInv(PutEntry(st, q, sid, layer, i, e')) && Abs(PutEntry(st, q, sid, layer, i, e')) == Abs(st)
  {
    var tables: seq<Table> := st.seqs[sid].tables;
    FlatUpdate(tables, layer, i, e');
    EntryPutTablesOk(st.pool, q, tables, layer, i, e', Rest(st, sid));
    EntryPutSameBlocks(st.pool, q, tables, layer, i, e');
    PutMovedUnseen(st, sid, tables[layer := tables[layer][i := e']], q);
  }

  lemma WriteInPlaceRefines(st: Store, sid: nat, layer: nat, i: nat)
    requires MemoryInv(st) && sid in st.seqs
    requires layer < |st.seqs[sid].tables| && i < |st.seqs[sid].tables[layer]|
    requires st.seqs[sid].tables[layer][i].slot.None?
    ensures var st' := PutEntry(st, st.pool, sid, layer, i, st.seqs[sid].tables[layer][i].(writable := true));
            MemoryInv(st') && Abs(st') == Abs(st)
  {
    var t: Table := st.seqs[sid].tables[layer];
    EntryIsCounted(st, sid, layer, i);
    OwnMoveStarts(st, sid);
    assert Own(st, sid) - multiset{Where(t[i])} + multiset{Where(t[i])} == Own(st, sid);
    MoveNothing(st.pool, Own(st, sid), Rest(st, sid));
    EntryMoved(st, sid, layer, i, t[i].(writable := true), st.pool);
  }

  lemma CopyOutRefines(st: Store, sid: nat, layer: nat, i: nat)
    requires MemoryInv(st) && sid in st.seqs && st.pool.free != []
    requires layer < |st.seqs[sid].tables| && i < |st.seqs[sid].tables[layer]|
    requires st.seqs[sid].tables[layer][i].slot.None?
    ensures var e := st.seqs[sid].tables[layer][i];
            var (p, copy) := Allocate(st.pool);
            var q := Release(CopyBlock(p, e.physical, copy.value), e.physical);
            var st' := PutEntry(st, q, sid, layer, i, e.(physical := copy.value, writable := true));
            && MemoryInv(st') && Abs(st') == Abs(st) && SameLayout(st.pool, q)
            && copy.value < |q.infos| && q.infos[copy.value].refs == 1
            && |q.free| <= |st.pool.free|
  {
    var e: Entry := st.seqs[sid].tables[layer][i];
    var (p, copy) := Allocate(st.pool);
    var q := Release(CopyBlock(p, e.physical, copy.value), e.physical);
    CopyOutMoves(st, sid, layer, i);
    EntryMoved(st, sid, layer, i, e.(physical := copy.value, writable := true), q);
  }

  /** Storing into an exclusively held frame changes that one block of that one sequence. */
  lemma StoreRefines(st: Store, sid: nat, layer: nat, block: nat, frame: nat, content: Frame)
    requires MemoryInv(st) && Exclusive(st, sid, layer, block, frame) && |content| == st.pool.width
    ensures var st' := st.(pool := WriteFrame(st.pool, frame, content));
            && MemoryInv(st')
            && PHasBlock(Abs(st), sid, layer, block)
            && Abs(st') == PWrite(Abs(st), sid, layer, block, content)
  {
    hide *;
    ExclusiveEntry(st, sid, layer, block, frame);
    var q := WriteFrame(st.pool, frame, content);
    var s := st.seqs[sid];
    StoreMoves(st, sid, layer, block, frame, content);
    TablesOkOf(st, sid);
    TablesOkDistinct(st.pool, s.tables);
    MoveLayout(st.pool, Own(st, sid), q, Own(st, sid), Rest(st, sid));
    TablesOkOnSameLayout(st.pool, q, s.tables);
    OwnIs(st, sid);
    PutMoved(st, sid, s, q);
    assert st.seqs[sid := s] == st.seqs;
    StoredBlocks(st.pool, q, s.tables, layer, block, frame, content);
    StoredAbs(st, st.(pool := q), sid, layer, block, content);
  }

  lemma ExclusiveEntry(st: Store, sid: nat, layer: nat, block: nat, frame: nat)
    requires MemoryInv(st) && Exclusive(st, sid, layer, block, frame)
    ensures sid in st.seqs && layer < |st.seqs[sid].tables| && block < |st.seqs[sid].tables[layer]|
    ensures Where(st.seqs[sid].tables[layer][block]) == OnFrame(frame)
    ensures ValidPool(st.pool) && frame < |st.pool.bytes|
  {}

  lemma TablesOkDistinct(p: Pool, tables: seq<Table>)
    requires TablesOk(p, tables)
    ensures NoRepeats(Flat(tables))
  {}

  lemma MoveLayout(p: Pool, before: multiset<Res>, q: Pool, after: multiset<Res>, others: multiset<Res>)
    requires Move(p, before, q, after, others)
    ensures SameLayout(p, q)
  {}

  lemma OwnIs(st: Store, sid: nat)
    requires sid in st.seqs
    ensures Own(st, sid) == HeldBy(st.seqs[sid].tables)
  {}

  lemma StoredAbs(st: Store, st': Store, sid: nat, layer: nat, block: nat, content: Frame)
    requires sid in st.seqs && layer < |st.seqs[sid].tables| && block < |st.seqs[sid].tables[layer]|
    requires Abs(st') == Abs(st).(seqs := Abs(st).seqs[sid := AbsSeq(st'.pool, st.seqs[sid])])
    requires Blocks(st'.pool, st.seqs[sid].tables)
          == Blocks(st.pool, st.seqs[sid].tables)[layer := TableBlocks(st.pool, st.seqs[sid].tables[layer])[block := content]]
    ensures PHasBlock(Abs(st), sid, layer, block) && Abs(st') == PWrite(Abs(st), sid, layer, block, content)
  {
    AbsReadsBlocks(st, sid);
    hide Abs, TableBlocks;
    assert |Blocks(st.pool, st.seqs[sid].tables)| == |st.seqs[sid].tables|;
  }

  lemma AbsReadsBlocks(st: Store, sid: nat)
    requires sid in st.seqs
    ensures sid in Abs(st).seqs && Abs(st).seqs[sid] == AbsSeq(st.pool, st.seqs[sid])
  {}

  lemma StoreMoves(st: Store, sid: nat, layer: nat, block: nat, frame: nat, content: Frame)
    requires MemoryInv(st) && Exclusive(st, sid, layer, block, frame) && |content| == st.pool.width
    ensures var q := WriteFrame(st.pool, frame, content);
            && Move(st.pool, Own(st, sid), q, Own(st, sid), Rest(st, sid))
            && Content(q, OnFrame(frame)) == content
            && forall r :: r != OnFrame(frame) ==> Content(q, r) == Content(st.pool, r)
  {
    EntryIsCounted(st, sid, layer, block);
    OwnMoveStarts(st, sid);
    WriteAccounted(st.pool, Rest(st, sid) + Own(st, sid), frame, content);
  }

  lemma StoredBlocks(p: Pool, q: Pool, tables: seq<Table>, l: nat, i: nat, frame: nat, content: Frame)
    requires NoRepeats(Flat(tables)) && l < |tables| && i < |tables[l]|
    requires Where(tables[l][i]) == OnFrame(frame) && Content(q, OnFrame(frame)) == content
    requires forall r :: r != OnFrame(frame) ==> Content(q, r) == Content(p, r)
    ensures Blocks(q, tables) == Blocks(p, tables)[l := TableBlocks(p, tables[l])[i := content]]
  {
    forall l', i' | 0 <= l' < |tables| && 0 <= i' < |tables[l']| && (l, i) != (l', i')
      ensures Content(q, Where(tables[l'][i'])) == Content(p, Where(tables[l'][i']))
    {
      PositionsDiffer(tables, l, i, l', i');
    }
    forall l' | 0 <= l' < |tables|
      ensures TableBlocks(q, tables[l']) == if l' == l then TableBlocks(p, tables[l])[i := content] else TableBlocks(p, tables[l'])
    {}
  }

  lemma WritableHasBlocks(st: Store, sid: nat, token: nat, layer: nat)
    ensures Writable(st, sid, token, layer) ==> TokensPerBlock(st.pool) > 0
  {}

  lemma WidthStays(p: Pool, q: Pool)
    requires SameLayout(p, q)
    ensures q.width == p.width
  {}

  lemma WriteBlockIs(st: Store, sid: nat, token: nat, layer: nat, content: Frame)
    requires ValidPool(st.pool)
    ensures var (st1, frame) := EnsureTokenWritable(st, sid, token, layer);
            && ValidPool(st1.pool)
            && if frame.None? || |content| != st1.pool.width then WriteBlock(st, sid, token, layer, content) == (st1, false)
               else frame.value < |st1.pool.bytes|
                    && WriteBlock(st, sid, token, layer, content) == (st1.(pool := WriteFrame(st1.pool, frame.value, content)), true)
  {
    hide EnsureTokenWritable;
  }

  lemma WriteRefines(st: Store, sid: nat, token: nat, layer: nat, content: Frame)
    requires MemoryInv(st)
    ensures var (st', ok) := WriteBlock(st, sid, token, layer, content);
            && MemoryInv(st')
            && (ok <==> Writable(st, sid, token, layer) && |content| == st.pool.width)
            && (ok ==> PHasBlock(Abs(st), sid, layer, token / TokensPerBlock(st.pool)))
            && Abs(st') == if ok then PWrite(Abs(st), sid, layer, token / TokensPerBlock(st.pool), content) else Abs(st)
  {
    hide *;
    EnsureWritableRefines(st, sid, token, layer);
    PoolIsValid(st);
    WriteBlockIs(st, sid, token, layer, content);
    WritableHasBlocks(st, sid, token, layer);
    var (st1, frame) := EnsureTokenWritable(st, sid, token, layer);
    WidthStays(st.pool, st1.pool);
    if frame.Some? && |content| == st1.pool.width {
      StoreRefines(st1, sid, layer, token / TokensPerBlock(st.pool), frame.value, content);
    }
  }
}
