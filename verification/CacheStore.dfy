/**
  The cache manager as a value: page tables by sequence, the request index and the prefix
  index over one frame pool.  Each function is one public call; nested loops over tables and
  entries are written as recursion over the same order.
 */
module CacheStore {
  import opened Wrappers
  import opened Arithmetic
  import opened SwapStore
  import opened FramePool
  import opened PageTable

  datatype Sequence = Sequence(request: nat, tables: seq<Table>, key: string, hash: nat)

  datatype PrefixRecord = PrefixRecord(hash: nat, tokens: nat, users: nat, ids: seq<nat>)

  datatype Store = Store(
    pool: Pool,
    seqs: map<nat, Sequence>,
    byRequest: map<nat, seq<nat>>,
    prefixes: map<string, seq<PrefixRecord>>)

  /** The content hash of a sequence's frames, by table; the program's FNV mix is one instance. */
  type ContentHash = seq<seq<Frame>> -> nat

  function TokensPerBlock(p: Pool): nat {
    if p.infos == [] then 0 else p.shape.tokensPerBlock
  }

  function TableCount(p: Pool): (n: nat)
    ensures n >= 1
  {
    if p.infos != [] && p.shape.PerLayerFrames() then p.shape.numLayers else 1
  }

  function EmptyStore(p: Pool): Store {
    Store(p, map[], map[], map[])
  }

  // ---- References and bytes behind tables ------------------------------------------------

  function Where(e: Entry): Res {
    if e.slot.Some? then InSlot(e.slot.value) else OnFrame(e.physical)
  }

  function Wheres(t: Table): seq<Res> {
    seq(|t|, i requires 0 <= i < |t| => Where(t[i]))
  }

  /** Every reference of a sequence, table by table. */
  function Flat(tables: seq<Table>): seq<Res> {
    if tables == [] then [] else Wheres(tables[0]) + Flat(tables[1..])
  }

  function Frames(ids: seq<nat>): seq<Res> {
    seq(|ids|, i requires 0 <= i < |ids| => OnFrame(ids[i]))
  }

  function Physicals(t: Table): seq<nat> {
    seq(|t|, i requires 0 <= i < |t| => t[i].physical)
  }

  function FlatPhysicals(tables: seq<Table>): seq<nat> {
    if tables == [] then [] else Physicals(tables[0]) + FlatPhysicals(tables[1..])
  }

  function TableBlocks(p: Pool, t: Table): seq<Frame> {
    seq(|t|, i requires 0 <= i < |t| => Content(p, Where(t[i])))
  }

  /** What a sequence reads: bytes by layer and logical block, resident or swapped out. */
  function Blocks(p: Pool, tables: seq<Table>): seq<seq<Frame>> {
    seq(|tables|, l requires 0 <= l < |tables| => TableBlocks(p, tables[l]))
  }

  predicate AllResident(tables: seq<Table>) {
    forall l, i :: 0 <= l < |tables| && 0 <= i < |tables[l]| ==> tables[l][i].slot.None?
  }

  function SlotCount(t: Table): nat {
    if t == [] then 0 else (if t[0].slot.Some? then 1 else 0) + SlotCount(t[1..])
  }

  function SlotCountAll(tables: seq<Table>): nat {
    if tables == [] then 0 else SlotCount(tables[0]) + SlotCountAll(tables[1..])
  }

  // ---- Request index ---------------------------------------------------------------------

  function Index(m: map<nat, seq<nat>>, request: nat, sid: nat): map<nat, seq<nat>> {
    m[request := (if request in m then m[request] else []) + [sid]]
  }

  function Without(ids: seq<nat>, sid: nat): seq<nat> {
    if ids == [] then []
    else (if ids[0] == sid then [] else [ids[0]]) + Without(ids[1..], sid)
  }

  function Unindex(m: map<nat, seq<nat>>, request: nat, sid: nat): map<nat, seq<nat>> {
    if request !in m then m
    else
      var ids := Without(m[request], sid);
      if ids == [] then m - {request} else m[request := ids]
  }

  function SequencesFor(st: Store, request: nat): seq<nat> {
    if request in st.byRequest then st.byRequest[request] else []
  }

  // ---- Sequence lifecycle ----------------------------------------------------------------

  function CreateSequence(st: Store, sid: nat, request: nat): (Store, bool) {
    if sid in st.seqs then (st, false)
    else
      var s := Sequence(request, seq(TableCount(st.pool), _ => []), "", 0);
      (st.(seqs := st.seqs[sid := s], byRequest := Index(st.byRequest, request, sid)), true)
  }

  function ForkTables(tables: seq<Table>, child: nat): seq<Table> {
    seq(|tables|, l requires 0 <= l < |tables| => Fork(tables[l], child))
  }

  function ForkSequence(st: Store, parent: nat, child: nat, request: nat): (r: (Store, bool))
    requires ValidPool(st.pool)
    ensures ValidPool(r.0.pool)
  {
    if parent !in st.seqs || child in st.seqs || !AllResident(st.seqs[parent].tables) then (st, false)
    else
      var tables := ForkTables(st.seqs[parent].tables, child);
      (st.(pool := RetainAll(st.pool, Flat(tables)),
           seqs := st.seqs[child := Sequence(request, tables, "", 0)],
           byRequest := Index(st.byRequest, request, child)), true)
  }

  function GrowTable(p: Pool, t: Table, sid: nat, tpb: nat, index: nat, count: nat): (r: (Pool, Table))
    requires ValidPool(p)
    ensures ValidPool(r.0)
    decreases count
  {
    if count == 0 || p.free == [] then (p, t)
    else
      var (q, id) := Allocate(p);
      GrowTable(q, MapEntry(t, LogicalBlock(sid, index, index * tpb, tpb), id.value, true),
                sid, tpb, index + 1, count - 1)
  }

  function GrowTables(p: Pool, tables: seq<Table>, sid: nat, tpb: nat, count: nat): (r: (Pool, seq<Table>))
    requires ValidPool(p)
    ensures ValidPool(r.0)
    decreases |tables|
  {
    if tables == [] then (p, [])
    else
      var (p1, t1) := GrowTable(p, tables[0], sid, tpb, |tables[0]|, count);
      var (p2, rest) := GrowTables(p1, tables[1..], sid, tpb, count);
      (p2, [t1] + rest)
  }

  /** Appends blocks for `tokens` more tokens to every table, or changes nothing. */
  function ReserveTokens(st: Store, sid: nat, tokens: nat): (r: (Store, bool))
    requires ValidPool(st.pool)
    ensures ValidPool(r.0.pool)
  {
    var tpb := TokensPerBlock(st.pool);
    if sid !in st.seqs || tpb == 0 then (st, false)
    else
      var s := st.seqs[sid];
      var blocks := CeilDiv(tokens, tpb);
      if !CanAllocate(st.pool, blocks * |s.tables|) then (st, false)
      else
        var (p, tables) := GrowTables(st.pool, s.tables, sid, tpb, blocks);
        (st.(pool := p, seqs := st.seqs[sid := s.(tables := tables)]), true)
  }

  function PutEntry(st: Store, p: Pool, sid: nat, layer: nat, i: nat, e: Entry): Store
    requires sid in st.seqs && layer < |st.seqs[sid].tables| && i < |st.seqs[sid].tables[layer]|
  {
    var s := st.seqs[sid];
    st.(pool := p, seqs := st.seqs[sid := s.(tables := s.tables[layer := s.tables[layer][i := e]])])
  }

  /** Copy-on-write: a shared block moves to a private frame before anyone may write it. */
  function EnsureTokenWritable(st: Store, sid: nat, token: nat, layer: nat): (r: (Store, Option<nat>))
    requires ValidPool(st.pool)
    ensures ValidPool(r.0.pool)
    ensures r.1.Some? ==> r.1.value < |r.0.pool.infos|
  {
    if sid !in st.seqs || layer >= |st.seqs[sid].tables| then (st, None)
    else
      var t := st.seqs[sid].tables[layer];
      if t == [] || t[0].logical.count == 0 then (st, None)
      else
        match Find(t, token / t[0].logical.count)
        case None => (st, None)
        case Some(i) =>
          var e := t[i];
          if e.slot.Some? || e.physical >= |st.pool.infos| then (st, None)
          else if st.pool.infos[e.physical].refs <= 1 then
            (PutEntry(st, st.pool, sid, layer, i, e.(writable := true)), Some(e.physical))
          else
            var (p, copy) := Allocate(st.pool);
            if copy.None? then (st, None)
            else
              var q := Release(CopyBlock(p, e.physical, copy.value), e.physical);
              (PutEntry(st, q, sid, layer, i, e.(physical := copy.value, writable := true)), copy)
  }

  /** Materialise the token's block, then store new bytes for the whole block into it. */
  function WriteBlock(st: Store, sid: nat, token: nat, layer: nat, content: Frame): (r: (Store, bool))
    requires ValidPool(st.pool)
    ensures ValidPool(r.0.pool)
  {
    var (st1, frame) := EnsureTokenWritable(st, sid, token, layer);
    if frame.None? || |content| != st1.pool.width then (st1, false)
    else (st1.(pool := WriteFrame(st1.pool, frame.value, content)), true)
  }

  // ---- Swapping ----------------------------------------------------------------------------

  /** Evicts each resident entry the pool will take; a shared one stays where it is. */
  function SwapOutTable(p: Pool, t: Table): (r: (Pool, Table, nat))
    requires ValidPool(p)
    ensures ValidPool(r.0)
    decreases |t|
  {
    if t == [] then (p, [], 0)
    else
      var (q, slot) := if t[0].slot.Some? then (p, None) else SwapOut(p, t[0].physical);
      var e := if slot.Some? then t[0].(slot := slot) else t[0];
      var (q', rest, n) := SwapOutTable(q, t[1..]);
      (q', [e] + rest, n + if slot.Some? then 1 else 0)
  }

  function SwapOutTables(p: Pool, tables: seq<Table>): (r: (Pool, seq<Table>, nat))
    requires ValidPool(p)
    ensures ValidPool(r.0)
    decreases |tables|
  {
    if tables == [] then (p, [], 0)
    else
      var (p1, t1, n1) := SwapOutTable(p, tables[0]);
      var (p2, rest, n2) := SwapOutTables(p1, tables[1..]);
      (p2, [t1] + rest, n1 + n2)
  }

  function SwapOutSequence(st: Store, sid: nat): (r: (Store, nat))
    requires ValidPool(st.pool)
    ensures ValidPool(r.0.pool)
  {
    if sid !in st.seqs then (st, 0)
    else
      var (p, tables, n) := SwapOutTables(st.pool, st.seqs[sid].tables);
      (st.(pool := p, seqs := st.seqs[sid := st.seqs[sid].(tables := tables)]), n)
  }

  function SwapInTable(p: Pool, t: Table): (r: (Pool, Table))
    requires ValidPool(p)
    ensures ValidPool(r.0)
    decreases |t|
  {
    if t == [] then (p, [])
    else
      var (q, id) := if t[0].slot.Some? then SwapIn(p, t[0].slot.value) else (p, None);
      var e := if id.Some? then t[0].(physical := id.value, slot := None) else t[0];
      var (q', rest) := SwapInTable(q, t[1..]);
      (q', [e] + rest)
  }

  function SwapInTables(p: Pool, tables: seq<Table>): (r: (Pool, seq<Table>))
    requires ValidPool(p)
    ensures ValidPool(r.0)
    decreases |tables|
  {
    if tables == [] then (p, [])
    else
      var (p1, t1) := SwapInTable(p, tables[0]);
      var (p2, rest) := SwapInTables(p1, tables[1..]);
      (p2, [t1] + rest)
  }

  /** Restores every swapped block, or nothing when the pool cannot hold them all. */
  function SwapInSequence(st: Store, sid: nat): (r: (Store, bool))
    requires ValidPool(st.pool)
    ensures ValidPool(r.0.pool)
  {
    if sid !in st.seqs then (st, false)
    else
      var s := st.seqs[sid];
      var needed := SlotCountAll(s.tables);
      if needed == 0 then (st, true)
      else if !CanAllocate(st.pool, needed) then (st, false)
      else
        var (p, tables) := SwapInTables(st.pool, s.tables);
        (st.(pool := p, seqs := st.seqs[sid := s.(tables := tables)]), true)
  }

  // ---- Prefix index ------------------------------------------------------------------------

  function FindRecord(records: seq<PrefixRecord>, hash: nat): (r: Option<nat>)
    ensures r.Some? ==> r.value < |records| && records[r.value].hash == hash
    ensures r.None? ==> forall i :: 0 <= i < |records| ==> records[i].hash != hash
  {
    if records == [] then None
    else if records[0].hash == hash then Some(0)
    else
      var r := FindRecord(records[1..], hash);
      if r.Some? then Some(r.value + 1) else None
  }

  function DropPrefixUser(st: Store, sid: nat): (r: Store)
    requires ValidPool(st.pool) && sid in st.seqs
    ensures ValidPool(r.pool) && sid in r.seqs && r.seqs[sid].tables == st.seqs[sid].tables
  {
    var s := st.seqs[sid];
    if s.key == "" then st
    else
      var st1 := st.(seqs := st.seqs[sid := s.(key := "", hash := 0)]);
      if s.key !in st.prefixes then st1
      else
        var records := st.prefixes[s.key];
        match FindRecord(records, s.hash)
        case None => st1
        case Some(i) =>
          if records[i].users > 1 then
            st1.(prefixes := st.prefixes[s.key := records[i := records[i].(users := records[i].users - 1)]])
          else
            var left := records[..i] + records[i + 1..];
            st1.(pool := FreeAll(st.pool, Frames(records[i].ids)),
                 prefixes := if left == [] then st.prefixes - {s.key} else st.prefixes[s.key := left])
  }

  function ReleaseSequence(st: Store, sid: nat): (r: Store)
    requires ValidPool(st.pool)
    ensures ValidPool(r.pool)
  {
    if sid !in st.seqs then st
    else
      var s := st.seqs[sid];
      var st1 := DropPrefixUser(st, sid);
      st1.(pool := FreeAll(st1.pool, Flat(s.tables)),
           seqs := st1.seqs - {sid},
           byRequest := Unindex(st1.byRequest, s.request, sid))
  }

  function PrefixTokenCount(st: Store, key: string): nat {
    if key == "" || key !in st.prefixes || |st.prefixes[key]| != 1 then 0
    else st.prefixes[key][0].tokens
  }

  /** Pins the sequence's frames under a key; an equal hash under that key is the same content. */
  function PublishPrefix(st: Store, sid: nat, key: string, hash: ContentHash): (r: (Store, bool))
    requires ValidPool(st.pool)
    ensures ValidPool(r.0.pool)
  {
    if key == "" || sid !in st.seqs || st.seqs[sid].tables == [] || st.seqs[sid].tables[0] == [] then (st, false)
    else
      var s := st.seqs[sid];
      var tpb := TokensPerBlock(st.pool);
      if s.key == key then (st, true)
      else if tpb == 0 || !AllResident(s.tables) then (st, false)
      else
        var h := hash(Blocks(st.pool, s.tables));
        var records := if key in st.prefixes then st.prefixes[key] else [];
        var st1 := st.(seqs := st.seqs[sid := s.(key := key, hash := h)]);
        match FindRecord(records, h)
        case Some(i) =>
          (st1.(prefixes := st.prefixes[key := records[i := records[i].(users := records[i].users + 1)]]), true)
        case None =>
          var record := PrefixRecord(h, |s.tables[0]| * tpb, 1, FlatPhysicals(s.tables));
          (st1.(pool := RetainAll(st.pool, Flat(s.tables)),
                prefixes := st.prefixes[key := records + [record]]), true)
  }

  /** The read-only mapping of `n` published frames as one table. */
  function AttachTable(ids: seq<nat>, sid: nat, tpb: nat): Table {
    seq(|ids|, i requires 0 <= i < |ids| => Entry(LogicalBlock(sid, i, i * tpb, tpb), ids[i], false, None))
  }

  /** Deals the published frames out evenly, `n` to each of `tables` tables, in order. */
  function AttachTables(ids: seq<nat>, sid: nat, tpb: nat, n: nat, tables: nat): seq<Table>
    requires |ids| == n * tables
    decreases tables
  {
    if tables == 0 then []
    else
      assert n * tables == n + n * (tables - 1);
      [AttachTable(ids[..n], sid, tpb)] + AttachTables(ids[n..], sid, tpb, n, tables - 1)
  }

  function AttachPrefix(st: Store, sid: nat, key: string): (r: (Store, nat))
    requires ValidPool(st.pool)
    ensures ValidPool(r.0.pool)
  {
    if key == "" || sid !in st.seqs || st.seqs[sid].tables == [] || st.seqs[sid].tables[0] != []
       || key !in st.prefixes || |st.prefixes[key]| != 1 then (st, 0)
    else
      var s, record := st.seqs[sid], st.prefixes[key][0];
      var tpb, k := TokensPerBlock(st.pool), |s.tables|;
      if tpb == 0 || record.ids == [] || |record.ids| % k != 0 then (st, 0)
      else
        var n := |record.ids| / k;
        assert |record.ids| == n * k;
        var tables := AttachTables(record.ids, sid, tpb, n, k);
        (st.(pool := RetainAll(st.pool, Frames(record.ids)),
             seqs := st.seqs[sid := s.(tables := tables, key := key, hash := record.hash)],
             prefixes := st.prefixes[key := [record.(users := record.users + 1)]]), record.tokens)
  }

  // ---- Whole requests ------------------------------------------------------------------------

  function SwapOutEach(st: Store, ids: seq<nat>): (r: (Store, nat))
    requires ValidPool(st.pool)
    ensures ValidPool(r.0.pool)
    decreases |ids|
  {
    if ids == [] then (st, 0)
    else
      var (st1, n1) := SwapOutSequence(st, ids[0]);
      var (st2, n2) := SwapOutEach(st1, ids[1..]);
      (st2, n1 + n2)
  }

  function SwapOutRequest(st: Store, request: nat): (r: (Store, nat))
    requires ValidPool(st.pool)
    ensures ValidPool(r.0.pool)
  {
    SwapOutEach(st, SequencesFor(st, request))
  }

  function SlotsNeeded(st: Store, ids: seq<nat>): nat {
    if ids == [] then 0
    else (if ids[0] in st.seqs then SlotCountAll(st.seqs[ids[0]].tables) else 0) + SlotsNeeded(st, ids[1..])
  }

  function SwapInEach(st: Store, ids: seq<nat>): (r: (Store, bool))
    requires ValidPool(st.pool)
    ensures ValidPool(r.0.pool)
    decreases |ids|
  {
    if ids == [] then (st, true)
    else
      var (st1, ok) := SwapInSequence(st, ids[0]);
      if ok then SwapInEach(st1, ids[1..]) else (st1, false)
  }

  function SwapInRequest(st: Store, request: nat): (r: (Store, bool))
    requires ValidPool(st.pool)
    ensures ValidPool(r.0.pool)
  {
    var ids := SequencesFor(st, request);
    var needed := SlotsNeeded(st, ids);
    if needed > 0 && !CanAllocate(st.pool, needed) then (st, false) else SwapInEach(st, ids)
  }

  function ReleaseEach(st: Store, ids: seq<nat>): (r: Store)
    requires ValidPool(st.pool)
    ensures ValidPool(r.pool)
    decreases |ids|
  {
    if ids == [] then st else ReleaseEach(ReleaseSequence(st, ids[0]), ids[1..])
  }

  function ReleaseRequest(st: Store, request: nat): (r: Store)
    requires ValidPool(st.pool)
    ensures ValidPool(r.pool)
  {
    ReleaseEach(st, SequencesFor(st, request))
  }
}
