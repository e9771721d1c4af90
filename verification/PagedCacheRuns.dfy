/**
  The paged cache against an append list: after any run of whole-model steps and forks, each
  layer of each branch gathers exactly what was appended to that branch, prefix included.
 */
module PagedCacheRuns {
  import opened Wrappers
  import opened Vectors
  import opened Arithmetic
  import opened SwapStore
  import opened FramePool
  import opened CacheStore
  import opened CacheAccounting
  import opened CacheWrites
  import opened CacheLayout
  import opened PagedPoolModel
  import opened PagedPoolMemos
  import opened PagedRows
  import opened PagedLayers
  import CacheRuns
  import CacheTheorems

  // ---- One layer's update ----------------------------------------------------------------------------

  /** Grows the table to cover the new tokens, then writes them. */
  function UpdateLayer(s: PoolState, cfg: PoolConfig, sid: nat, layer: nat, start: nat, keys: seq<Row>, values: seq<Row>): (r: (PoolState, bool))
    requires ValidPool(s.store.pool) && cfg.tpb > 0 && |values| == |keys|
    ensures ValidPool(r.0.store.pool)
  {
    var (s1, ok) := EnsureCapacity(s, cfg, sid, start + |keys|);
    if !ok then (s1, false) else WriteSpan(s1, cfg, sid, layer, start, keys, values)
  }

  /** The frames a gather reads, and the memo tables it leaves behind. */
  function GatherFrames(s: PoolState, cfg: PoolConfig, sid: nat, length: nat): (r: (PoolState, seq<nat>))
    requires cfg.tpb > 0
    ensures r.0.store == s.store && r.0.tableLen == s.tableLen && r.0.writable == s.writable
  {
    var needed := CeilDiv(length, cfg.tpb);
    var (s1, table, _) := DecodeInputs(s, cfg, sid, needed * cfg.tpb);
    (s1, if needed <= |table| then table[..needed] else table)
  }

  /** `_gather`: the first `length` rows of one stream, block after block. */
  ghost function Gathered(s: PoolState, frames: seq<nat>, layer: nat, stream: KVStream, length: nat): (r: seq<Row>)
    requires GatherOk(s, frames, layer, length)
    ensures |r| == length
  {
    hide GatherOk;
    seq(length, t requires 0 <= t < length => TokenInFrames(s, frames, layer, length, t); GatheredAt(s, frames, layer, stream, t))
  }

  ghost predicate GatherOk(s: PoolState, frames: seq<nat>, layer: nat, length: nat) {
    var shape := ShapeOf(s);
    && shape.tokensPerBlock > 0 && layer < shape.FrameLayers()
    && CeilDiv(length, shape.tokensPerBlock) <= |frames|
    && forall i :: 0 <= i < |frames| ==> frames[i] < |s.store.pool.bytes| && |s.store.pool.bytes[frames[i]]| >= ElementCount(shape)
  }

  lemma TokenInFrames(s: PoolState, frames: seq<nat>, layer: nat, length: nat, t: nat)
    requires GatherOk(s, frames, layer, length) && t < length
    ensures ShapeOf(s).tokensPerBlock > 0 && t / ShapeOf(s).tokensPerBlock < |frames| && layer < ShapeOf(s).FrameLayers()
    ensures var f := frames[t / ShapeOf(s).tokensPerBlock];
            f < |s.store.pool.bytes| && |s.store.pool.bytes[f]| >= ElementCount(ShapeOf(s))
  {
    hide ElementCount;
    CeilDivOfSuccessor(t, ShapeOf(s).tokensPerBlock);
    CeilDivMonotone(t + 1, length, ShapeOf(s).tokensPerBlock);
  }

  ghost function GatheredAt(s: PoolState, frames: seq<nat>, layer: nat, stream: KVStream, t: nat): Row
    requires ShapeOf(s).tokensPerBlock > 0 && layer < ShapeOf(s).FrameLayers() && t / ShapeOf(s).tokensPerBlock < |frames|
    requires frames[t / ShapeOf(s).tokensPerBlock] < |s.store.pool.bytes|
    requires |s.store.pool.bytes[frames[t / ShapeOf(s).tokensPerBlock]]| >= ElementCount(ShapeOf(s))
  {
    var shape := ShapeOf(s);
    RowFitsFrame(shape, layer, stream, t % shape.tokensPerBlock);
    RowAt(s.store.pool.bytes[frames[t / shape.tokensPerBlock]], RowIndex(shape, layer, stream, t % shape.tokensPerBlock), TokenElems(shape))
  }

  lemma BlockReads(s: PoolState, cfg: PoolConfig, sid: nat, i: nat)
    requires PoolInv(s, cfg) && sid in s.store.seqs && i < |BlockTableOf(s.store, sid)|
    ensures var f := BlockTableOf(s.store, sid)[i];
            f < |s.store.pool.bytes| && i < |Reading(s.store, sid)| && s.store.pool.bytes[f] == Reading(s.store, sid)[i]
  {
    hide PoolInv, CacheRuns.Inv, MemoryInv;
    PoolShows(s, cfg);
    OneTable(s.store, sid);
    AlwaysResident(s.store, sid);
    EntryIsCounted(s.store, sid, 0, i);
  }

  /** One gathered row is the row the blocks hold for that token. */
  ghost predicate ReadsAs(s: PoolState, frames: seq<nat>, r: seq<Frame>, layer: nat, stream: KVStream, length: nat, t: nat)
    requires GatherOk(s, frames, layer, length) && t < length && Sized(r, ShapeOf(s))
  {
    && ShapeOf(s).tokensPerBlock > 0 && layer < ShapeOf(s).FrameLayers() && t / ShapeOf(s).tokensPerBlock < |r|
    && Gathered(s, frames, layer, stream, length)[t] == TokenAt(r, ShapeOf(s), layer, stream, t)
  }

  lemma ReadsAsIs(s: PoolState, frames: seq<nat>, r: seq<Frame>, layer: nat, stream: KVStream, length: nat, t: nat)
    requires GatherOk(s, frames, layer, length) && t < length && Sized(r, ShapeOf(s))
    ensures ReadsAs(s, frames, r, layer, stream, length, t) <==>
            && ShapeOf(s).tokensPerBlock > 0 && layer < ShapeOf(s).FrameLayers() && t / ShapeOf(s).tokensPerBlock < |r|
            && Gathered(s, frames, layer, stream, length)[t] == TokenAt(r, ShapeOf(s), layer, stream, t)
  {
    hide GatherOk, Gathered, TokenAt, Sized;
  }

  /** A gather reads, through its cached table, exactly what the sequence's own blocks say. */
  lemma GatherReads(s: PoolState, cfg: PoolConfig, sid: nat, layer: nat, length: nat)
    requires cfg.tpb > 0 && PoolInv(s, cfg) && MemosAgree(s, cfg) && Geometry(s, cfg) && sid in s.store.seqs && Some(sid) != cfg.spacer
    requires CeilDiv(length, cfg.tpb) <= |BlockTableOf(s.store, sid)| && layer < ShapeOf(s).FrameLayers()
    ensures var (s', frames) := GatherFrames(s, cfg, sid, length);
            && PoolInv(s', cfg) && MemosAgree(s', cfg) && GatherOk(s', frames, layer, length)
            && ShapeOf(s).tokensPerBlock > 0 && |Reading(s.store, sid)| == |BlockTableOf(s.store, sid)| && Sized(Reading(s.store, sid), ShapeOf(s))
            && ShapeOf(s') == ShapeOf(s)
            && forall stream, t :: 0 <= t < length ==> ReadsAs(s', frames, Reading(s.store, sid), layer, stream, length, t)
  {
    hide *;
    GeometryShows(s, cfg);
    ReadingsSized(s, cfg, sid);
    var needed := CeilDiv(length, cfg.tpb);
    WholeBlocks(needed, cfg.tpb);
    DecodeInputsAreCurrent(s, cfg, sid, needed * cfg.tpb);
    MinIs(needed, |BlockTableOf(s.store, sid)|);
    GatherIs(s, cfg, sid, length);
    var (s', frames) := GatherFrames(s, cfg, sid, length);
    PoolIgnoresMemos(s, s', cfg);
    assert frames == BlockTableOf(s.store, sid)[..needed];
    SameStoreShape(s, s');
    forall i | 0 <= i < |frames|
      ensures frames[i] < |s'.store.pool.bytes| && |s'.store.pool.bytes[frames[i]]| >= ElementCount(ShapeOf(s'))
    {
      BlockReads(s, cfg, sid, i);
      SizedAt(Reading(s.store, sid), ShapeOf(s), i);
    }
    GatherOkFrom(s', frames, layer, length);
    forall stream, t | 0 <= t < length
      ensures ReadsAs(s', frames, Reading(s.store, sid), layer, stream, length, t)
    {
      TokenGathered(s, s', cfg, sid, frames, layer, stream, length, t);
    }
  }

  lemma TokenGathered(s: PoolState, s': PoolState, cfg: PoolConfig, sid: nat, frames: seq<nat>, layer: nat, stream: KVStream, length: nat, t: nat)
    requires cfg.tpb > 0 && PoolInv(s, cfg) && Geometry(s, cfg) && sid in s.store.seqs && s'.store == s.store
    requires ShapeOf(s).tokensPerBlock > 0 && Sized(Reading(s.store, sid), ShapeOf(s)) && |Reading(s.store, sid)| == |BlockTableOf(s.store, sid)|
    requires frames <= BlockTableOf(s.store, sid) && layer < ShapeOf(s).FrameLayers()
    requires GatherOk(s', frames, layer, length) && t < length
    ensures ShapeOf(s') == ShapeOf(s) && ReadsAs(s', frames, Reading(s.store, sid), layer, stream, length, t)
  {
    hide *;
    SameStoreShape(s, s');
    ReadsAsIs(s', frames, Reading(s.store, sid), layer, stream, length, t);
    GeometryShows(s, cfg);
    TokenInFrames(s', frames, layer, length, t);
    BlockReads(s, cfg, sid, t / cfg.tpb);
    TokenIs(Reading(s.store, sid), ShapeOf(s), layer, stream, t);
    GatheredIs(s', frames, layer, stream, length, t);
  }

  lemma SameStoreShape(s: PoolState, s': PoolState)
    requires s'.store == s.store
    ensures ShapeOf(s') == ShapeOf(s)
  {}

  lemma GatherIs(s: PoolState, cfg: PoolConfig, sid: nat, length: nat)
    requires cfg.tpb > 0
    ensures var needed := CeilDiv(length, cfg.tpb);
            var (s1, table, _) := DecodeInputs(s, cfg, sid, needed * cfg.tpb);
            GatherFrames(s, cfg, sid, length) == (s1, if needed <= |table| then table[..needed] else table)
  {
    hide DecodeInputs, CeilDiv;
  }

  lemma GatherOkFrom(s: PoolState, frames: seq<nat>, layer: nat, length: nat)
    requires ShapeOf(s).tokensPerBlock > 0 && layer < ShapeOf(s).FrameLayers()
    requires CeilDiv(length, ShapeOf(s).tokensPerBlock) <= |frames|
    requires forall i :: 0 <= i < |frames| ==> frames[i] < |s.store.pool.bytes| && |s.store.pool.bytes[frames[i]]| >= ElementCount(ShapeOf(s))
    ensures GatherOk(s, frames, layer, length)
  {
    hide ElementCount, CeilDiv;
  }

  lemma GatheredIs(s: PoolState, frames: seq<nat>, layer: nat, stream: KVStream, length: nat, t: nat)
    requires GatherOk(s, frames, layer, length) && t < length
    ensures ShapeOf(s).tokensPerBlock > 0 && t / ShapeOf(s).tokensPerBlock < |frames|
    ensures frames[t / ShapeOf(s).tokensPerBlock] < |s.store.pool.bytes|
    ensures var shape := ShapeOf(s);
            var frame, k := s.store.pool.bytes[frames[t / shape.tokensPerBlock]], RowIndex(shape, layer, stream, t % shape.tokensPerBlock);
            && k * TokenElems(shape) + TokenElems(shape) <= |frame|
            && Gathered(s, frames, layer, stream, length)[t] == RowAt(frame, k, TokenElems(shape))
  {
    hide ElementCount, TokenElems, RowIndex, RowAt, CeilDiv;
    TokenInFrames(s, frames, layer, length, t);
    RowFitsFrame(ShapeOf(s), layer, stream, t % ShapeOf(s).tokensPerBlock);
  }

  // ---- Append lists ----------------------------------------------------------------------------------------

  /** Everything appended to one layer of one branch. */
  datatype Lists = Lists(keys: seq<Row>, values: seq<Row>)

  function Append(a: Lists, b: Lists): Lists { Lists(a.keys + b.keys, a.values + b.values) }

  /** The blocks read back as the lists, token by token. */
  ghost predicate Holds(r: seq<Frame>, s: BlockShape, layer: nat, lists: Lists)
    requires s.tokensPerBlock > 0 && layer < s.FrameLayers()
  {
    && |lists.keys| == |lists.values| && Sized(r, s)
    && forall t :: 0 <= t < |lists.keys| ==> HoldsAt(r, s, layer, lists, t)
  }

  ghost predicate HoldsAt(r: seq<Frame>, s: BlockShape, layer: nat, lists: Lists, t: nat)
    requires s.tokensPerBlock > 0 && layer < s.FrameLayers() && |lists.keys| == |lists.values| && Sized(r, s) && t < |lists.keys|
  {
    && t / s.tokensPerBlock < |r|
    && TokenAt(r, s, layer, Key, t) == lists.keys[t] && TokenAt(r, s, layer, Value, t) == lists.values[t]
  }

  lemma HoldsAfterGrowth(r: seq<Frame>, r': seq<Frame>, s: BlockShape, layer: nat, lists: Lists)
    requires s.tokensPerBlock > 0 && layer < s.FrameLayers() && Holds(r, s, layer, lists) && r <= r' && Sized(r', s)
    ensures Holds(r', s, layer, lists)
  {
    hide ElementCount, RowAt, RowIndex, TokenElems;
    forall t | 0 <= t < |lists.keys|
      ensures HoldsAt(r', s, layer, lists, t)
    {
      assert HoldsAt(r, s, layer, lists, t);
    }
  }

  lemma HoldsAfterWrite(r: seq<Frame>, r': seq<Frame>, s: BlockShape, layer: nat, lists: Lists, added: Lists)
    requires s.tokensPerBlock > 0 && layer < s.FrameLayers() && Holds(r, s, layer, lists) && |added.keys| == |added.values|
    requires WroteRows(r, r', s, layer, |lists.keys|, added.keys, added.values)
    requires CeilDiv(|lists.keys| + |added.keys|, s.tokensPerBlock) <= |r|
    ensures Holds(r', s, layer, Append(lists, added))
  {
    hide TokenAt, Sized, CeilDiv;
    var all := Append(lists, added);
    forall t | 0 <= t < |all.keys|
      ensures HoldsAt(r', s, layer, all, t)
    {
      WithinBlocks(t, |all.keys|, s.tokensPerBlock);
      if t < |lists.keys| {
        assert HoldsAt(r, s, layer, lists, t);
      }
      WroteAt(r, r', s, layer, |lists.keys|, added.keys, added.values, layer, Key, t);
      WroteAt(r, r', s, layer, |lists.keys|, added.keys, added.values, layer, Value, t);
    }
  }

  lemma WroteAt(r: seq<Frame>, r': seq<Frame>, s: BlockShape, layer: nat, from: nat, keys: seq<Row>, values: seq<Row>, l: nat, stream: KVStream, t: nat)
    requires s.tokensPerBlock > 0 && |values| == |keys| && WroteRows(r, r', s, layer, from, keys, values)
    requires l < s.FrameLayers() && t / s.tokensPerBlock < |r|
    ensures |r'| == |r| && Sized(r, s) && Sized(r', s)
    ensures TokenAt(r', s, l, stream, t) == WrittenOr(l == layer && from <= t < from + |keys|, stream, keys, values, t - from, TokenAt(r, s, l, stream, t))
  {
    hide TokenAt, Sized;
  }

  lemma WithinBlocks(t: nat, n: nat, tpb: nat)
    requires tpb > 0 && t < n
    ensures t / tpb < CeilDiv(n, tpb)
  {
    CeilDivOfSuccessor(t, tpb);
    CeilDivMonotone(t + 1, n, tpb);
  }

  lemma HoldsInOtherLayer(r: seq<Frame>, r': seq<Frame>, s: BlockShape, written: nat, from: nat, keys: seq<Row>, values: seq<Row>, layer: nat, lists: Lists)
    requires s.tokensPerBlock > 0 && layer < s.FrameLayers() && layer != written && |values| == |keys|
    requires Holds(r, s, layer, lists) && WroteRows(r, r', s, written, from, keys, values)
    ensures Holds(r', s, layer, lists)
  {
    hide TokenAt, Sized;
    forall t | 0 <= t < |lists.keys|
      ensures HoldsAt(r', s, layer, lists, t)
    {
      assert HoldsAt(r, s, layer, lists, t);
    }
  }

  /** What a gather returns for a layer that holds these lists. */
  lemma GatherReturnsLists(s: PoolState, cfg: PoolConfig, sid: nat, layer: nat, lists: Lists)
    requires cfg.tpb > 0 && PoolInv(s, cfg) && MemosAgree(s, cfg) && Geometry(s, cfg) && sid in s.store.seqs && Some(sid) != cfg.spacer
    requires layer < ShapeOf(s).FrameLayers() && ShapeOf(s).tokensPerBlock > 0
    requires CeilDiv(|lists.keys|, cfg.tpb) <= |BlockTableOf(s.store, sid)|
    requires Holds(Reading(s.store, sid), ShapeOf(s), layer, lists)
    ensures var (s', frames) := GatherFrames(s, cfg, sid, |lists.keys|);
            && PoolInv(s', cfg) && MemosAgree(s', cfg) && GatherOk(s', frames, layer, |lists.keys|)
            && Gathered(s', frames, layer, Key, |lists.keys|) == lists.keys
            && Gathered(s', frames, layer, Value, |lists.keys|) == lists.values
  {
    hide *;
    GatherReads(s, cfg, sid, layer, |lists.keys|);
    HoldsShows(Reading(s.store, sid), ShapeOf(s), layer, lists);
    var (s', frames) := GatherFrames(s, cfg, sid, |lists.keys|);
    forall t | 0 <= t < |lists.keys|
      ensures Gathered(s', frames, layer, Key, |lists.keys|)[t] == lists.keys[t]
      ensures Gathered(s', frames, layer, Value, |lists.keys|)[t] == lists.values[t]
    {
      ReadsAsIs(s', frames, Reading(s.store, sid), layer, Key, |lists.keys|, t);
      ReadsAsIs(s', frames, Reading(s.store, sid), layer, Value, |lists.keys|, t);
    }
    assert |Gathered(s', frames, layer, Key, |lists.keys|)| == |Gathered(s', frames, layer, Value, |lists.keys|)| == |lists.keys|;
  }

  lemma HoldsShows(r: seq<Frame>, s: BlockShape, layer: nat, lists: Lists)
    requires s.tokensPerBlock > 0 && layer < s.FrameLayers() && Holds(r, s, layer, lists)
    ensures |lists.keys| == |lists.values| && Sized(r, s)
    ensures forall t :: 0 <= t < |lists.keys| ==>
              && t / s.tokensPerBlock < |r|
              && TokenAt(r, s, layer, Key, t) == lists.keys[t] && TokenAt(r, s, layer, Value, t) == lists.values[t]
  {
    hide TokenAt, Sized;
    forall t | 0 <= t < |lists.keys|
      ensures t / s.tokensPerBlock < |r|
      ensures TokenAt(r, s, layer, Key, t) == lists.keys[t] && TokenAt(r, s, layer, Value, t) == lists.values[t]
    {
      assert HoldsAt(r, s, layer, lists, t);
    }
  }

  // ---- One layer's update, for every layer --------------------------------------------------------------------

  /** Every layer of the branch reads back as its lists. */
  ghost predicate AllHold(s: PoolState, sid: nat, lists: seq<Lists>) {
    && ShapeOf(s).tokensPerBlock > 0 && |lists| == ShapeOf(s).FrameLayers()
    && forall l :: 0 <= l < |lists| ==> Holds(Reading(s.store, sid), ShapeOf(s), l, lists[l])
  }

  lemma AllHoldAt(s: PoolState, sid: nat, lists: seq<Lists>, l: nat)
    requires AllHold(s, sid, lists) && l < |lists|
    ensures ShapeOf(s).tokensPerBlock > 0 && |lists| == ShapeOf(s).FrameLayers()
    ensures Holds(Reading(s.store, sid), ShapeOf(s), l, lists[l])
  {}

  lemma AllHoldAfterGrowth(s: PoolState, s': PoolState, sid: nat, lists: seq<Lists>)
    requires AllHold(s, sid, lists) && ShapeOf(s') == ShapeOf(s)
    requires Reading(s.store, sid) <= Reading(s'.store, sid) && Sized(Reading(s'.store, sid), ShapeOf(s))
    ensures AllHold(s', sid, lists)
  {
    hide Holds, Reading, Sized;
    forall l | 0 <= l < |lists|
      ensures Holds(Reading(s'.store, sid), ShapeOf(s), l, lists[l])
    {
      HoldsAfterGrowth(Reading(s.store, sid), Reading(s'.store, sid), ShapeOf(s), l, lists[l]);
    }
  }

  lemma AllHoldAfterWrite(s: PoolState, s': PoolState, sid: nat, lists: seq<Lists>, layer: nat, added: Lists)
    requires AllHold(s, sid, lists) && ShapeOf(s') == ShapeOf(s) && layer < |lists| && |added.keys| == |added.values|
    requires ShapeOf(s).tokensPerBlock > 0
    requires WroteRows(Reading(s.store, sid), Reading(s'.store, sid), ShapeOf(s), layer, |lists[layer].keys|, added.keys, added.values)
    requires CeilDiv(|lists[layer].keys| + |added.keys|, ShapeOf(s).tokensPerBlock) <= |Reading(s.store, sid)|
    ensures AllHold(s', sid, lists[layer := Append(lists[layer], added)])
  {
    hide Holds, Reading, WroteRows, CeilDiv, Append;
    var lists' := lists[layer := Append(lists[layer], added)];
    forall l | 0 <= l < |lists|
      ensures Holds(Reading(s'.store, sid), ShapeOf(s), l, lists'[l])
    {
      if l == layer {
        HoldsAfterWrite(Reading(s.store, sid), Reading(s'.store, sid), ShapeOf(s), l, lists[l], added);
      } else {
        HoldsInOtherLayer(Reading(s.store, sid), Reading(s'.store, sid), ShapeOf(s), layer, |lists[layer].keys|, added.keys, added.values, l, lists[l]);
      }
    }
  }

  /** The remembered write position lies before the next one. */
  ghost predicate MemoBehind(s: PoolState, sid: nat, start: nat) {
    s.writable.Some? && s.writable.value.0 == sid ==> s.writable.value.1 < start
  }

  /** The state a layer's update, or a whole step, leaves. */
  ghost predicate Updated(s: PoolState, s': PoolState, cfg: PoolConfig, sid: nat, start: nat, n: nat, lists: seq<Lists>)
    requires cfg.tpb > 0
  {
    && PoolInv(s', cfg) && MemosAgree(s', cfg) && Geometry(s', cfg) && ShapeOf(s') == ShapeOf(s)
    && sid in s.store.seqs && s'.store.seqs.Keys == s.store.seqs.Keys && Untouched(s.store, s'.store, sid, cfg.spacer)
    && AllHold(s', sid, lists) && |BlockTableOf(s'.store, sid)| == CeilDiv(start + n, cfg.tpb)
    && FreshMemo(s', cfg, sid, start)
    && (s'.writable == s.writable
        || (s'.writable.Some? && s'.writable.value.0 == sid && start <= s'.writable.value.1 < start + n))
  }

  lemma UntouchedBoth(a: Store, b: Store, c: Store, sid: nat, spacer: Option<nat>)
    requires Untouched(a, b, sid, spacer) && Untouched(b, c, sid, spacer)
    ensures Untouched(a, c, sid, spacer)
  {
    hide Reading;
  }

  lemma UntouchedBySpan(st: Store, st': Store, sid: nat, spacer: Option<nat>)
    requires st'.seqs.Keys == st.seqs.Keys
    requires forall k :: k in st.seqs && k != sid ==> st'.seqs[k] == st.seqs[k] && Reading(st', k) == Reading(st, k)
    ensures Untouched(st, st', sid, spacer)
  {
    hide Reading;
  }

  lemma VacuousMemo(s: PoolState, cfg: PoolConfig, sid: nat, start: nat)
    requires cfg.tpb > 0 && MemoBehind(s, sid, start)
    ensures FreshMemo(s, cfg, sid, start)
  {}

  lemma GrewReads(st: Store, st': Store, sid: nat, n: nat, spacer: Option<nat>)
    requires Grew(st, st', sid, n, spacer)
    ensures Reading(st, sid) <= Reading(st', sid)
  {}

  lemma FreshOnSameStore(s: PoolState, s': PoolState, cfg: PoolConfig, sid: nat, start: nat)
    requires cfg.tpb > 0 && FreshMemo(s, cfg, sid, start) && s'.store == s.store && s'.writable == s.writable
    ensures FreshMemo(s', cfg, sid, start)
  {}

  /** One layer's update appends to that layer and leaves the others, and the other branches, alone. */
  lemma LayerIsUpdated(s: PoolState, cfg: PoolConfig, sid: nat, layer: nat, start: nat, lists: seq<Lists>, added: Lists)
    requires cfg.tpb > 0 && PoolInv(s, cfg) && MemosAgree(s, cfg) && Geometry(s, cfg)
    requires sid in s.store.seqs && Some(sid) != cfg.spacer && AllHold(s, sid, lists) && layer < |lists|
    requires |lists[layer].keys| == start && |added.values| == |added.keys|
    requires RowsOf(added.keys, TokenElems(ShapeOf(s))) && RowsOf(added.values, TokenElems(ShapeOf(s)))
    requires |BlockTableOf(s.store, sid)| <= CeilDiv(start + |added.keys|, cfg.tpb)
    requires MemoBehind(s, sid, start) || (FreshMemo(s, cfg, sid, start) && |BlockTableOf(s.store, sid)| == CeilDiv(start + |added.keys|, cfg.tpb))
    ensures ValidPool(s.store.pool)
    ensures var (s', ok) := UpdateLayer(s, cfg, sid, layer, start, added.keys, added.values);
            ok ==> Updated(s, s', cfg, sid, start, |added.keys|, lists[layer := Append(lists[layer], added)])
  {
    hide *;
    PoolShows(s, cfg);
    GeometryShows(s, cfg);
    AllHoldAt(s, sid, lists, layer);
    var n := |added.keys|;
    EnsureCapacityIs(s, cfg, sid, start + n);
    MaxIs(|BlockTableOf(s.store, sid)|, CeilDiv(start + n, cfg.tpb));
    UpdateIs(s, cfg, sid, layer, start, added.keys, added.values);
    var (s1, ok1) := EnsureCapacity(s, cfg, sid, start + n);
    if ok1 {
      var grown := CeilDiv(start + n, cfg.tpb) - |BlockTableOf(s.store, sid)|;
      GrewLayout(s.store, s1.store, sid, grown, cfg.spacer);
      GrewReads(s.store, s1.store, sid, grown, cfg.spacer);
      GeometryKept(s, s1, cfg);
      ReadingsSized(s1, cfg, sid);
      AllHoldAfterGrowth(s, s1, sid, lists);
      if MemoBehind(s, sid, start) {
        BehindSame(s, s1, sid, start);
        VacuousMemo(s1, cfg, sid, start);
      } else {
        FreshOnSameStore(s, s1, cfg, sid, start);
      }
      SpanIsWritten(s1, cfg, sid, layer, start, added.keys, added.values);
      var (s', ok) := WriteSpan(s1, cfg, sid, layer, start, added.keys, added.values);
      if ok {
        SpanWroteShows(s1, s', cfg, sid, layer, start, added.keys, added.values);
        AroundShows(s1, s', cfg, sid, start, |added.keys|);
        AllHoldAfterWrite(s1, s', sid, lists, layer, added);
        UntouchedBySpan(s1.store, s'.store, sid, cfg.spacer);
        UntouchedBoth(s.store, s1.store, s'.store, sid, cfg.spacer);
        if added.keys != [] {
          FreshAfter(s', cfg, sid, start);
        } else {
          assert added.values == [];
          NothingToWrite(s1, cfg, sid, layer, start);
        }
        UpdatedFrom(s, s', cfg, sid, start, n, lists[layer := Append(lists[layer], added)]);
      }
    }
  }

  lemma BehindSame(s: PoolState, s': PoolState, sid: nat, start: nat)
    requires MemoBehind(s, sid, start) && s'.writable == s.writable
    ensures MemoBehind(s', sid, start)
  {}

  lemma UpdateIs(s: PoolState, cfg: PoolConfig, sid: nat, layer: nat, start: nat, keys: seq<Row>, values: seq<Row>)
    requires ValidPool(s.store.pool) && cfg.tpb > 0 && |values| == |keys|
    ensures var (s1, ok) := EnsureCapacity(s, cfg, sid, start + |keys|);
            && ValidPool(s1.store.pool)
            && UpdateLayer(s, cfg, sid, layer, start, keys, values) ==
               if !ok then (s1, false) else WriteSpan(s1, cfg, sid, layer, start, keys, values)
  {
    hide EnsureCapacity, WriteSpan, ValidPool;
  }

  lemma UpdatedFrom(s: PoolState, s': PoolState, cfg: PoolConfig, sid: nat, start: nat, n: nat, lists: seq<Lists>)
    requires cfg.tpb > 0
    requires PoolInv(s', cfg) && MemosAgree(s', cfg) && Geometry(s', cfg) && ShapeOf(s') == ShapeOf(s)
    requires sid in s.store.seqs && s'.store.seqs.Keys == s.store.seqs.Keys && Untouched(s.store, s'.store, sid, cfg.spacer)
    requires AllHold(s', sid, lists) && |BlockTableOf(s'.store, sid)| == CeilDiv(start + n, cfg.tpb)
    requires FreshMemo(s', cfg, sid, start)
    requires s'.writable == s.writable
             || (s'.writable.Some? && s'.writable.value.0 == sid && start <= s'.writable.value.1 < start + n)
    ensures Updated(s, s', cfg, sid, start, n, lists)
  {
    hide PoolInv, MemosAgree, Geometry, Untouched, AllHold, BlockTableOf, CeilDiv, FreshMemo;
  }

  lemma UpdatedShows(s: PoolState, s': PoolState, cfg: PoolConfig, sid: nat, start: nat, n: nat, lists: seq<Lists>)
    requires cfg.tpb > 0 && Updated(s, s', cfg, sid, start, n, lists)
    ensures PoolInv(s', cfg) && MemosAgree(s', cfg) && Geometry(s', cfg) && ShapeOf(s') == ShapeOf(s)
    ensures sid in s.store.seqs && s'.store.seqs.Keys == s.store.seqs.Keys && Untouched(s.store, s'.store, sid, cfg.spacer)
    ensures AllHold(s', sid, lists) && |BlockTableOf(s'.store, sid)| == CeilDiv(start + n, cfg.tpb)
    ensures FreshMemo(s', cfg, sid, start)
    ensures s'.writable == s.writable
            || (s'.writable.Some? && s'.writable.value.0 == sid && start <= s'.writable.value.1 < start + n)
  {
    hide PoolInv, MemosAgree, Geometry, Untouched, AllHold, BlockTableOf, CeilDiv, FreshMemo;
  }

  // ---- Whole-model steps -----------------------------------------------------------------------------------------

  /** A single token goes to the kernel, when there is one. */
  predicate ToKernel(cfg: PoolConfig, n: nat) { cfg.useKernel && n == 1 }

  /** What reading the layer back does to the memos: a launch's inputs, or a gather. */
  function ReadBack(s: PoolState, cfg: PoolConfig, sid: nat, length: nat, n: nat): (r: PoolState)
    requires cfg.tpb > 0
    ensures r.store == s.store && r.tableLen == s.tableLen && r.writable == s.writable
  {
    if ToKernel(cfg, n) then DecodeInputs(s, cfg, sid, length).0 else GatherFrames(s, cfg, sid, length).0
  }

  lemma ReadBackKeeps(s: PoolState, cfg: PoolConfig, sid: nat, length: nat, n: nat)
    requires cfg.tpb > 0 && PoolInv(s, cfg) && MemosAgree(s, cfg) && sid in s.store.seqs && Some(sid) != cfg.spacer
    ensures var r := ReadBack(s, cfg, sid, length, n);
            PoolInv(r, cfg) && MemosAgree(r, cfg) && r.store == s.store && r.writable == s.writable
  {
    hide PoolInv, MemosAgree, DecodeInputs, CeilDiv, BlockTableOf;
    DecodeInputsAreCurrent(s, cfg, sid, length);
    DecodeInputsAreCurrent(s, cfg, sid, CeilDiv(length, cfg.tpb) * cfg.tpb);
    PoolIgnoresMemos(s, ReadBack(s, cfg, sid, length, n), cfg);
  }

  /** The layers of one model step in order, each update followed by the read its attention makes. */
  function UpdateAll(s: PoolState, cfg: PoolConfig, sid: nat, start: nat, layer: nat, inputs: seq<Lists>): (r: (PoolState, bool))
    requires ValidPool(s.store.pool) && cfg.tpb > 0 && forall l :: 0 <= l < |inputs| ==> |inputs[l].values| == |inputs[l].keys|
    ensures ValidPool(r.0.store.pool)
    decreases |inputs|
  {
    if inputs == [] then (s, true)
    else
      var (s1, ok) := UpdateLayer(s, cfg, sid, layer, start, inputs[0].keys, inputs[0].values);
      if !ok then (s1, false)
      else UpdateAll(ReadBack(s1, cfg, sid, start + |inputs[0].keys|, |inputs[0].keys|), cfg, sid, start, layer + 1, inputs[1..])
  }

  /** Every input brings n tokens of the right width. */
  ghost predicate InputsOk(inputs: seq<Lists>, n: nat, size: nat) {
    forall l :: 0 <= l < |inputs| ==>
      |inputs[l].keys| == |inputs[l].values| == n && RowsOf(inputs[l].keys, size) && RowsOf(inputs[l].values, size)
  }

  function AppendFrom(lists: seq<Lists>, layer: nat, inputs: seq<Lists>): (r: seq<Lists>)
    requires layer + |inputs| == |lists|
    ensures |r| == |lists|
    decreases |inputs|
  {
    if inputs == [] then lists
    else AppendFrom(lists[layer := Append(lists[layer], inputs[0])], layer + 1, inputs[1..])
  }

  lemma {:induction false} AppendFromAt(lists: seq<Lists>, layer: nat, inputs: seq<Lists>, l: nat)
    requires layer + |inputs| == |lists| && l < |lists|
    ensures AppendFrom(lists, layer, inputs)[l] == if l < layer then lists[l] else Append(lists[l], inputs[l - layer])
    decreases |inputs|
  {
    if inputs != [] {
      AppendFromAt(lists[layer := Append(lists[layer], inputs[0])], layer + 1, inputs[1..], l);
    }
  }

  lemma UpdatedTwice(a: PoolState, b: PoolState, c: PoolState, cfg: PoolConfig, sid: nat, start: nat, n: nat, lists: seq<Lists>, lists': seq<Lists>)
    requires cfg.tpb > 0 && Updated(a, b, cfg, sid, start, n, lists) && Updated(b, c, cfg, sid, start, n, lists')
    ensures Updated(a, c, cfg, sid, start, n, lists')
  {
    hide *;
    UpdatedShows(a, b, cfg, sid, start, n, lists);
    UpdatedShows(b, c, cfg, sid, start, n, lists');
    UntouchedBoth(a.store, b.store, c.store, sid, cfg.spacer);
    UpdatedFrom(a, c, cfg, sid, start, n, lists');
  }

  lemma UpdatedByReading(a: PoolState, b: PoolState, c: PoolState, cfg: PoolConfig, sid: nat, start: nat, n: nat, lists: seq<Lists>)
    requires cfg.tpb > 0 && Updated(a, b, cfg, sid, start, n, lists) && c.store == b.store && c.writable == b.writable
    requires PoolInv(c, cfg) && MemosAgree(c, cfg)
    ensures Updated(a, c, cfg, sid, start, n, lists)
  {
    hide *;
    UpdatedShows(a, b, cfg, sid, start, n, lists);
    FreshOnSameStore(b, c, cfg, sid, start);
    AllHoldOnSameStore(b, c, cfg, sid, lists);
    UpdatedFrom(a, c, cfg, sid, start, n, lists);
  }

  lemma AllHoldOnSameStore(s: PoolState, s': PoolState, cfg: PoolConfig, sid: nat, lists: seq<Lists>)
    requires AllHold(s, sid, lists) && s'.store == s.store && Geometry(s, cfg)
    ensures AllHold(s', sid, lists) && Geometry(s', cfg) && ShapeOf(s') == ShapeOf(s)
  {}

  lemma {:induction false} StepAppends(s: PoolState, cfg: PoolConfig, sid: nat, start: nat, n: nat, layer: nat, lists: seq<Lists>, inputs: seq<Lists>)
    requires cfg.tpb > 0 && PoolInv(s, cfg) && MemosAgree(s, cfg) && Geometry(s, cfg)
    requires sid in s.store.seqs && Some(sid) != cfg.spacer && AllHold(s, sid, lists) && layer + |inputs| == |lists| && inputs != []
    requires InputsOk(inputs, n, TokenElems(ShapeOf(s)))
    requires forall l :: layer <= l < |lists| ==> |lists[l].keys| == start
    requires |BlockTableOf(s.store, sid)| <= CeilDiv(start + n, cfg.tpb)
    requires MemoBehind(s, sid, start) || (FreshMemo(s, cfg, sid, start) && |BlockTableOf(s.store, sid)| == CeilDiv(start + n, cfg.tpb))
    ensures ValidPool(s.store.pool) && forall l :: 0 <= l < |inputs| ==> |inputs[l].values| == |inputs[l].keys|
    ensures var (s', ok) := UpdateAll(s, cfg, sid, start, layer, inputs);
            ok ==> Updated(s, s', cfg, sid, start, n, AppendFrom(lists, layer, inputs))
    decreases |inputs|
  {
    hide *;
    PoolShows(s, cfg);
    InputsShow(inputs, n, TokenElems(ShapeOf(s)));
    LayerIsUpdated(s, cfg, sid, layer, start, lists, inputs[0]);
    UpdateAllStep(s, cfg, sid, start, layer, inputs);
    AppendFromStep(lists, layer, inputs);
    var (s1, ok1) := UpdateLayer(s, cfg, sid, layer, start, inputs[0].keys, inputs[0].values);
    if ok1 {
      var lists1 := lists[layer := Append(lists[layer], inputs[0])];
      UpdatedShows(s, s1, cfg, sid, start, n, lists1);
      ReadBackKeeps(s1, cfg, sid, start + n, n);
      var s2 := ReadBack(s1, cfg, sid, start + n, n);
      UpdatedByReading(s, s1, s2, cfg, sid, start, n, lists1);
      UpdatedShows(s, s2, cfg, sid, start, n, lists1);
      if inputs[1..] == [] {
        UpdateAllDone(s2, cfg, sid, start, layer + 1);
        AppendFromDone(lists1, layer + 1);
      } else {
        StepAppends(s2, cfg, sid, start, n, layer + 1, lists1, inputs[1..]);
        var (s', ok) := UpdateAll(s2, cfg, sid, start, layer + 1, inputs[1..]);
        if ok {
          UpdatedTwice(s, s2, s', cfg, sid, start, n, lists1, AppendFrom(lists1, layer + 1, inputs[1..]));
        }
      }
    }
  }

  lemma InputsShow(inputs: seq<Lists>, n: nat, size: nat)
    requires InputsOk(inputs, n, size)
    ensures forall l :: 0 <= l < |inputs| ==> |inputs[l].keys| == |inputs[l].values| == n
    ensures inputs != [] ==>
              && RowsOf(inputs[0].keys, size) && RowsOf(inputs[0].values, size) && InputsOk(inputs[1..], n, size)
              && forall l :: 0 <= l < |inputs[1..]| ==> |inputs[1..][l].values| == |inputs[1..][l].keys|
  {
    hide RowsOf;
  }

  lemma AppendSize(a: Lists, b: Lists)
    ensures |Append(a, b).keys| == |a.keys| + |b.keys|
  {}

  lemma UpdateAllDone(s: PoolState, cfg: PoolConfig, sid: nat, start: nat, layer: nat)
    requires ValidPool(s.store.pool) && cfg.tpb > 0
    ensures UpdateAll(s, cfg, sid, start, layer, []) == (s, true)
  {}

  lemma AppendFromDone(lists: seq<Lists>, layer: nat)
    requires layer == |lists|
    ensures AppendFrom(lists, layer, []) == lists
  {}

  lemma AppendFromStep(lists: seq<Lists>, layer: nat, inputs: seq<Lists>)
    requires layer + |inputs| == |lists| && inputs != []
    ensures AppendFrom(lists, layer, inputs) == AppendFrom(lists[layer := Append(lists[layer], inputs[0])], layer + 1, inputs[1..])
  {}

  lemma UpdateAllStep(s: PoolState, cfg: PoolConfig, sid: nat, start: nat, layer: nat, inputs: seq<Lists>)
    requires ValidPool(s.store.pool) && cfg.tpb > 0 && inputs != [] && forall l :: 0 <= l < |inputs| ==> |inputs[l].values| == |inputs[l].keys|
    ensures var (s1, ok) := UpdateLayer(s, cfg, sid, layer, start, inputs[0].keys, inputs[0].values);
            && ValidPool(s1.store.pool)
            && UpdateAll(s, cfg, sid, start, layer, inputs) ==
               if !ok then (s1, false)
               else UpdateAll(ReadBack(s1, cfg, sid, start + |inputs[0].keys|, |inputs[0].keys|), cfg, sid, start, layer + 1, inputs[1..])
  {
    hide UpdateLayer, GatherFrames, ValidPool;
  }

  // ---- Runs of steps and forks --------------------------------------------------------------------------------------

  /** The pool and, per branch, how many tokens every layer holds between steps. */
  datatype PagedCache = PagedCache(pool: PoolState, lengths: map<nat, nat>)

  /** A whole-model step on one branch, or a fork taken between steps. */
  datatype CacheOp = StepOn(sid: nat, inputs: seq<Lists>) | ForkOff(parent: nat, child: nat)

  ghost predicate WellFormed(c: PagedCache, op: CacheOp) {
    match op
    case StepOn(sid, inputs) =>
      && sid in c.lengths && inputs != [] && |inputs| == ShapeOf(c.pool).FrameLayers()
      && InputsOk(inputs, |inputs[0].keys|, TokenElems(ShapeOf(c.pool)))
    case ForkOff(parent, child) => parent in c.lengths
  }

  /** The state after the call, and whether every assertion in it held. */
  ghost function Apply(c: PagedCache, cfg: PoolConfig, op: CacheOp): (r: (PagedCache, bool))
    requires ValidPool(c.pool.store.pool) && cfg.tpb > 0 && WellFormed(c, op)
    ensures ValidPool(r.0.pool.store.pool)
  {
    match op
    case StepOn(sid, inputs) =>
      InputsShow(inputs, |inputs[0].keys|, TokenElems(ShapeOf(c.pool)));
      var (s, ok) := UpdateAll(c.pool, cfg, sid, c.lengths[sid], 0, inputs);
      (PagedCache(s, if ok then c.lengths[sid := c.lengths[sid] + |inputs[0].keys|] else c.lengths), ok)
    case ForkOff(parent, child) =>
      var (s, ok) := ForkPool(c.pool, parent, child);
      (PagedCache(s, if ok then c.lengths[child := c.lengths[parent]] else c.lengths), ok)
  }

  /** The same calls on plain append lists: a step appends to its branch, a fork copies. */
  function ApplyLists(all: map<nat, seq<Lists>>, op: CacheOp): map<nat, seq<Lists>> {
    match op
    case StepOn(sid, inputs) =>
      if sid in all && |inputs| == |all[sid]| then all[sid := AppendFrom(all[sid], 0, inputs)] else all
    case ForkOff(parent, child) => if parent in all then all[child := all[parent]] else all
  }

  ghost predicate BranchOk(c: PagedCache, cfg: PoolConfig, sid: nat, lists: seq<Lists>)
    requires sid in c.lengths && cfg.tpb > 0
  {
    && sid in c.pool.store.seqs && Some(sid) != cfg.spacer && AllHold(c.pool, sid, lists)
    && (forall l :: 0 <= l < |lists| ==> |lists[l].keys| == c.lengths[sid])
    && |BlockTableOf(c.pool.store, sid)| == CeilDiv(c.lengths[sid], cfg.tpb)
  }

  ghost predicate CacheOk(c: PagedCache, cfg: PoolConfig, all: map<nat, seq<Lists>>) {
    && cfg.tpb > 0 && PoolInv(c.pool, cfg) && MemosAgree(c.pool, cfg) && Geometry(c.pool, cfg)
    && c.lengths.Keys == all.Keys
    && (forall sid :: sid in c.lengths ==> BranchOk(c, cfg, sid, all[sid]))
    && (c.pool.writable.Some? ==>
          c.pool.writable.value.0 in c.lengths && c.pool.writable.value.1 < c.lengths[c.pool.writable.value.0])
  }

  lemma CacheShows(c: PagedCache, cfg: PoolConfig, all: map<nat, seq<Lists>>)
    requires CacheOk(c, cfg, all)
    ensures cfg.tpb > 0 && PoolInv(c.pool, cfg) && MemosAgree(c.pool, cfg) && Geometry(c.pool, cfg) && ValidPool(c.pool.store.pool)
    ensures c.lengths.Keys == all.Keys
  {
    PoolShows(c.pool, cfg);
  }

  lemma BranchShows(c: PagedCache, cfg: PoolConfig, all: map<nat, seq<Lists>>, sid: nat)
    requires CacheOk(c, cfg, all) && sid in c.lengths
    ensures sid in all && cfg.tpb > 0 && BranchOk(c, cfg, sid, all[sid])
    ensures sid in c.pool.store.seqs && Some(sid) != cfg.spacer && AllHold(c.pool, sid, all[sid])
    ensures |all[sid]| == ShapeOf(c.pool).FrameLayers()
    ensures forall l :: 0 <= l < |all[sid]| ==> |all[sid][l].keys| == c.lengths[sid]
    ensures |BlockTableOf(c.pool.store, sid)| == CeilDiv(c.lengths[sid], cfg.tpb)
    ensures MemoBehind(c.pool, sid, c.lengths[sid])
  {
    hide PoolInv, MemosAgree, Geometry, Holds, BlockTableOf, CeilDiv;
  }

  lemma CacheFrom(c: PagedCache, cfg: PoolConfig, all: map<nat, seq<Lists>>)
    requires cfg.tpb > 0 && PoolInv(c.pool, cfg) && MemosAgree(c.pool, cfg) && Geometry(c.pool, cfg)
    requires c.lengths.Keys == all.Keys
    requires forall sid :: sid in c.lengths ==> BranchOk(c, cfg, sid, all[sid])
    requires c.pool.writable.Some? ==>
               c.pool.writable.value.0 in c.lengths && c.pool.writable.value.1 < c.lengths[c.pool.writable.value.0]
    ensures CacheOk(c, cfg, all)
  {
    hide PoolInv, MemosAgree, Geometry, BranchOk;
  }

  /** A branch nobody touched is as it was. */
  lemma BranchKept(c: PagedCache, c': PagedCache, cfg: PoolConfig, sid: nat, lists: seq<Lists>)
    requires cfg.tpb > 0 && sid in c.lengths && BranchOk(c, cfg, sid, lists) && ShapeOf(c'.pool) == ShapeOf(c.pool)
    requires sid in c'.lengths && c'.lengths[sid] == c.lengths[sid]
    requires sid in c'.pool.store.seqs && c'.pool.store.seqs[sid] == c.pool.store.seqs[sid]
    requires Reading(c'.pool.store, sid) == Reading(c.pool.store, sid)
    ensures BranchOk(c', cfg, sid, lists)
  {
    hide Reading, Holds, CeilDiv;
    assert BlockTableOf(c'.pool.store, sid) == BlockTableOf(c.pool.store, sid);
    hide BlockTableOf;
    forall l | 0 <= l < |lists|
      ensures Holds(Reading(c'.pool.store, sid), ShapeOf(c'.pool), l, lists[l])
    {
      AllHoldAt(c.pool, sid, lists, l);
    }
  }

  lemma BranchFrom(c: PagedCache, cfg: PoolConfig, sid: nat, lists: seq<Lists>)
    requires cfg.tpb > 0 && sid in c.lengths && sid in c.pool.store.seqs && Some(sid) != cfg.spacer && AllHold(c.pool, sid, lists)
    requires forall l :: 0 <= l < |lists| ==> |lists[l].keys| == c.lengths[sid]
    requires |BlockTableOf(c.pool.store, sid)| == CeilDiv(c.lengths[sid], cfg.tpb)
    ensures BranchOk(c, cfg, sid, lists)
  {
    hide AllHold, BlockTableOf, CeilDiv;
  }

  lemma UntouchedAt(st: Store, st': Store, sid: nat, spacer: Option<nat>, k: nat)
    requires Untouched(st, st', sid, spacer) && k in st.seqs && k != sid && Some(k) != spacer
    ensures k in st'.seqs && st'.seqs[k] == st.seqs[k] && Reading(st', k) == Reading(st, k)
  {
    hide Reading;
  }

  lemma StepKeepsCache(c: PagedCache, cfg: PoolConfig, all: map<nat, seq<Lists>>, sid: nat, inputs: seq<Lists>)
    requires CacheOk(c, cfg, all) && WellFormed(c, StepOn(sid, inputs))
    ensures ValidPool(c.pool.store.pool) && cfg.tpb > 0
    ensures var (c', ok) := Apply(c, cfg, StepOn(sid, inputs));
            ok ==> CacheOk(c', cfg, ApplyLists(all, StepOn(sid, inputs)))
  {
    hide *;
    CacheShows(c, cfg, all);
    StepMeans(c, sid, inputs);
    BranchShows(c, cfg, all, sid);
    GeometryShows(c.pool, cfg);
    var start, n := c.lengths[sid], |inputs[0].keys|;
    CeilDivMonotone(start, start + n, cfg.tpb);
    StepAppends(c.pool, cfg, sid, start, n, 0, all[sid], inputs);
    StepUnfolds(c, cfg, all, sid, inputs);
    var (c', ok) := Apply(c, cfg, StepOn(sid, inputs));
    if ok {
      var lists := AppendFrom(all[sid], 0, inputs);
      UpdatedShows(c.pool, c'.pool, cfg, sid, start, n, lists);
      forall l | 0 <= l < |lists|
        ensures |lists[l].keys| == c'.lengths[sid]
      {
        AppendFromAt(all[sid], 0, inputs, l);
        AppendSize(all[sid][l], inputs[l]);
      }
      BranchFrom(c', cfg, sid, lists);
      var all' := ApplyLists(all, StepOn(sid, inputs));
      forall k | k in c'.lengths
        ensures BranchOk(c', cfg, k, all'[k])
      {
        if k != sid {
          BranchShows(c, cfg, all, k);
          UntouchedAt(c.pool.store, c'.pool.store, sid, cfg.spacer, k);
          BranchKept(c, c', cfg, k, all[k]);
        }
      }
      MemoInBranch(c, cfg, all);
      CacheFrom(c', cfg, all');
    }
  }

  /** A step ends with the read of its last layer. */
  lemma {:induction false} StepEndsReading(s: PoolState, cfg: PoolConfig, sid: nat, start: nat, layer: nat, inputs: seq<Lists>, n: nat) returns (s1: PoolState)
    requires ValidPool(s.store.pool) && cfg.tpb > 0 && inputs != []
    requires forall l :: 0 <= l < |inputs| ==> |inputs[l].values| == |inputs[l].keys| == n
    requires UpdateAll(s, cfg, sid, start, layer, inputs).1
    ensures UpdateAll(s, cfg, sid, start, layer, inputs).0 == ReadBack(s1, cfg, sid, start + n, n)
    decreases |inputs|
  {
    hide UpdateLayer, UpdateAll, ReadBack, ValidPool;
    UpdateAllStep(s, cfg, sid, start, layer, inputs);
    s1 := UpdateLayer(s, cfg, sid, layer, start, inputs[0].keys, inputs[0].values).0;
    var s2 := ReadBack(s1, cfg, sid, start + n, n);
    if |inputs| == 1 {
      assert inputs[1..] == [];
      UpdateAllDone(s2, cfg, sid, start, layer + 1);
    } else {
      s1 := StepEndsReading(s2, cfg, sid, start, layer + 1, inputs[1..], n);
    }
  }

  /** A read leaves the sequence's whole table behind, when it has just the blocks its length needs. */
  lemma ReadBackLeaves(s: PoolState, cfg: PoolConfig, sid: nat, length: nat, n: nat)
    requires cfg.tpb > 0 && |BlockTableOf(s.store, sid)| == CeilDiv(length, cfg.tpb)
    requires MemosAgree(ReadBack(s, cfg, sid, length, n), cfg)
    ensures var r := ReadBack(s, cfg, sid, length, n);
            && sid in r.devTable && r.devTable[sid] == BlockTableOf(r.store, sid)
            && sid in r.devContext && r.devContext[sid] == if ToKernel(cfg, n) then length else CeilDiv(length, cfg.tpb) * cfg.tpb
  {
    hide BlockTableOf, CeilDiv, MemosAgree, DecodeInputs;
    var blocks := CeilDiv(length, cfg.tpb);
    WholeBlocks(blocks, cfg.tpb);
    MemosShow(ReadBack(s, cfg, sid, length, n), cfg, sid);
    DecodeInputsIs(s, cfg, sid, length);
    DecodeInputsIs(s, cfg, sid, blocks * cfg.tpb);
  }

  /**
    What a step leaves for the next launch: the branch's whole block table, and its length, rounded up
    to whole blocks after a gather.
   */
  lemma StepLeavesTable(c: PagedCache, cfg: PoolConfig, all: map<nat, seq<Lists>>, sid: nat, inputs: seq<Lists>)
    requires CacheOk(c, cfg, all) && WellFormed(c, StepOn(sid, inputs))
    ensures ValidPool(c.pool.store.pool) && cfg.tpb > 0 && inputs != []
    ensures var (c', ok) := Apply(c, cfg, StepOn(sid, inputs));
            ok ==>
              && sid in c'.lengths && sid in c'.pool.devTable && c'.pool.devTable[sid] == BlockTableOf(c'.pool.store, sid)
              && sid in c'.pool.devContext
              && c'.pool.devContext[sid] == if ToKernel(cfg, |inputs[0].keys|) then c'.lengths[sid] else CeilDiv(c'.lengths[sid], cfg.tpb) * cfg.tpb
  {
    hide *;
    StepKeepsCache(c, cfg, all, sid, inputs);
    StepMeans(c, sid, inputs);
    CacheShows(c, cfg, all);
    BranchShows(c, cfg, all, sid);
    StepUnfolds(c, cfg, all, sid, inputs);
    var (c', ok) := Apply(c, cfg, StepOn(sid, inputs));
    if ok {
      var all' := ApplyLists(all, StepOn(sid, inputs));
      CacheShows(c', cfg, all');
      BranchShows(c', cfg, all', sid);
      var s1 := StepEndsReading(c.pool, cfg, sid, c.lengths[sid], 0, inputs, |inputs[0].keys|);
      ReadBackLeaves(s1, cfg, sid, c'.lengths[sid], |inputs[0].keys|);
    }
  }

  lemma MemoInBranch(c: PagedCache, cfg: PoolConfig, all: map<nat, seq<Lists>>)
    requires CacheOk(c, cfg, all)
    ensures c.pool.writable.Some? ==>
              c.pool.writable.value.0 in c.lengths && c.pool.writable.value.1 < c.lengths[c.pool.writable.value.0]
  {}

  lemma StepMeans(c: PagedCache, sid: nat, inputs: seq<Lists>)
    requires WellFormed(c, StepOn(sid, inputs))
    ensures sid in c.lengths && inputs != [] && |inputs| == ShapeOf(c.pool).FrameLayers()
    ensures InputsOk(inputs, |inputs[0].keys|, TokenElems(ShapeOf(c.pool)))
    ensures forall l :: 0 <= l < |inputs| ==> |inputs[l].values| == |inputs[l].keys| == |inputs[0].keys|
  {}

  lemma StepUnfolds(c: PagedCache, cfg: PoolConfig, all: map<nat, seq<Lists>>, sid: nat, inputs: seq<Lists>)
    requires ValidPool(c.pool.store.pool) && cfg.tpb > 0 && WellFormed(c, StepOn(sid, inputs))
    requires forall l :: 0 <= l < |inputs| ==> |inputs[l].values| == |inputs[l].keys|
    ensures var (s, ok) := UpdateAll(c.pool, cfg, sid, c.lengths[sid], 0, inputs);
            Apply(c, cfg, StepOn(sid, inputs)) ==
            (PagedCache(s, if ok then c.lengths[sid := c.lengths[sid] + |inputs[0].keys|] else c.lengths), ok)
    ensures sid in all && |inputs| == |all[sid]| ==> ApplyLists(all, StepOn(sid, inputs)) == all[sid := AppendFrom(all[sid], 0, inputs)]
  {
    hide UpdateAll, ValidPool, InputsOk, AppendFrom;
  }

  lemma ForkKeepsCache(c: PagedCache, cfg: PoolConfig, all: map<nat, seq<Lists>>, parent: nat, child: nat)
    requires CacheOk(c, cfg, all) && WellFormed(c, ForkOff(parent, child))
    ensures ValidPool(c.pool.store.pool) && cfg.tpb > 0
    ensures var (c', ok) := Apply(c, cfg, ForkOff(parent, child));
            && (ok <==> child !in c.pool.store.seqs)
            && (ok ==> CacheOk(c', cfg, ApplyLists(all, ForkOff(parent, child))))
  {
    hide *;
    CacheShows(c, cfg, all);
    ForkMeans(c, parent, child);
    BranchShows(c, cfg, all, parent);
    ForkIs(c.pool, cfg, parent, child);
    ForkStepUnfolds(c, cfg, all, parent, child);
    var (c', ok) := Apply(c, cfg, ForkOff(parent, child));
    if ok {
      SpacerLives(c.pool, cfg);
      ForkGeometry(c.pool, cfg, parent, child);
      AllHoldSameReading(c.pool, c'.pool, parent, child, all[parent]);
      BranchFrom(c', cfg, child, all[parent]);
      var all' := ApplyLists(all, ForkOff(parent, child));
      forall k | k in c'.lengths
        ensures BranchOk(c', cfg, k, all'[k])
      {
        if k != child {
          BranchShows(c, cfg, all, k);
          BranchKept(c, c', cfg, k, all[k]);
        }
      }
      forall k | k in c.lengths
        ensures k in c.pool.store.seqs
      {
        BranchShows(c, cfg, all, k);
      }
      MemoInBranch(c, cfg, all);
      CacheFrom(c', cfg, all');
    }
  }

  lemma SpacerLives(s: PoolState, cfg: PoolConfig)
    requires PoolInv(s, cfg)
    ensures cfg.spacer.Some? ==> cfg.spacer.value in s.store.seqs
  {}

  lemma AllHoldSameReading(s: PoolState, s': PoolState, sid: nat, sid': nat, lists: seq<Lists>)
    requires AllHold(s, sid, lists) && ShapeOf(s') == ShapeOf(s) && Reading(s'.store, sid') == Reading(s.store, sid)
    ensures AllHold(s', sid', lists)
  {
    hide Holds, Reading;
  }

  lemma ForkMeans(c: PagedCache, parent: nat, child: nat)
    requires WellFormed(c, ForkOff(parent, child))
    ensures parent in c.lengths
  {}

  lemma ForkGeometry(s: PoolState, cfg: PoolConfig, parent: nat, child: nat)
    requires PoolInv(s, cfg) && Geometry(s, cfg)
    ensures ValidPool(s.store.pool)
    ensures Geometry(ForkPool(s, parent, child).0, cfg) && ShapeOf(ForkPool(s, parent, child).0) == ShapeOf(s)
  {
    hide *;
    PoolShows(s, cfg);
    CacheRuns.ForkInv(s.store, parent, child, child);
    ForkUnfolds(s, parent, child);
    GeometryKept(s, ForkPool(s, parent, child).0, cfg);
  }

  lemma ForkStepUnfolds(c: PagedCache, cfg: PoolConfig, all: map<nat, seq<Lists>>, parent: nat, child: nat)
    requires ValidPool(c.pool.store.pool) && cfg.tpb > 0 && WellFormed(c, ForkOff(parent, child))
    ensures var (s, ok) := ForkPool(c.pool, parent, child);
            Apply(c, cfg, ForkOff(parent, child)) ==
            (PagedCache(s, if ok then c.lengths[child := c.lengths[parent]] else c.lengths), ok)
    ensures parent in all ==> ApplyLists(all, ForkOff(parent, child)) == all[child := all[parent]]
  {
    hide ForkPool, ValidPool;
  }

  /** The state a run of successful calls ends in; a failed assertion ends the run early. */
  ghost predicate RunsTo(c: PagedCache, cfg: PoolConfig, ops: seq<CacheOp>, c': PagedCache)
    requires cfg.tpb > 0
    decreases |ops|
  {
    if ops == [] then c' == c
    else
      && ValidPool(c.pool.store.pool) && WellFormed(c, ops[0]) && Apply(c, cfg, ops[0]).1
      && RunsTo(Apply(c, cfg, ops[0]).0, cfg, ops[1..], c')
  }

  function RunLists(all: map<nat, seq<Lists>>, ops: seq<CacheOp>): map<nat, seq<Lists>>
    decreases |ops|
  {
    if ops == [] then all else RunLists(ApplyLists(all, ops[0]), ops[1..])
  }

  /** Main result on the paged cache: after every run, the pool is what the append lists say. */
  lemma {:induction false} PagedCacheIsAppendList(c: PagedCache, cfg: PoolConfig, all: map<nat, seq<Lists>>, ops: seq<CacheOp>, c': PagedCache)
    requires CacheOk(c, cfg, all) && RunsTo(c, cfg, ops, c')
    ensures CacheOk(c', cfg, RunLists(all, ops))
    decreases |ops|
  {
    hide CacheOk, Apply, ApplyLists, WellFormed, ValidPool;
    if ops != [] {
      match ops[0] {
        case StepOn(sid, inputs) => StepKeepsCache(c, cfg, all, sid, inputs);
        case ForkOff(parent, child) => ForkKeepsCache(c, cfg, all, parent, child);
      }
      PagedCacheIsAppendList(Apply(c, cfg, ops[0]).0, cfg, ApplyLists(all, ops[0]), ops[1..], c');
    }
  }

  /** And so a gather on any branch returns, layer by layer, everything appended to that branch. */
  lemma GathersEverythingAppended(c: PagedCache, cfg: PoolConfig, all: map<nat, seq<Lists>>, ops: seq<CacheOp>, c': PagedCache, sid: nat, layer: nat)
    requires CacheOk(c, cfg, all) && RunsTo(c, cfg, ops, c') && sid in c'.lengths
    requires layer < ShapeOf(c'.pool).FrameLayers()
    ensures cfg.tpb > 0 && sid in RunLists(all, ops) && layer < |RunLists(all, ops)[sid]|
    ensures var lists := RunLists(all, ops)[sid][layer];
            var (s', frames) := GatherFrames(c'.pool, cfg, sid, c'.lengths[sid]);
            && |lists.keys| == c'.lengths[sid] && GatherOk(s', frames, layer, c'.lengths[sid])
            && Gathered(s', frames, layer, Key, c'.lengths[sid]) == lists.keys
            && Gathered(s', frames, layer, Value, c'.lengths[sid]) == lists.values
            && |BlockTableOf(c'.pool.store, sid)| == CeilDiv(c'.lengths[sid], cfg.tpb)
  {
    hide *;
    PagedCacheIsAppendList(c, cfg, all, ops, c');
    CacheShows(c', cfg, RunLists(all, ops));
    BranchShows(c', cfg, RunLists(all, ops), sid);
    AllHoldAt(c'.pool, sid, RunLists(all, ops)[sid], layer);
    GatherReturnsLists(c'.pool, cfg, sid, layer, RunLists(all, ops)[sid][layer]);
  }

  // ---- Construction ---------------------------------------------------------------------------------------------------

  function NoLists(layers: nat): seq<Lists> { seq(layers, _ => Lists([], [])) }

  /** The root sequence over an unused pool, and the spacer in scatter mode. */
  function FreshPoolState(p: Pool, root: nat, spacer: Option<nat>): PoolState {
    var st := CreateSequence(EmptyStore(p), root, root).0;
    PoolState(if spacer.Some? then CreateSequence(st, spacer.value, spacer.value).0 else st, map[], map[], map[], map[], map[], None)
  }

  lemma FreshCacheOk(p: Pool, cfg: PoolConfig, root: nat)
    requires ValidPool(p) && p.swap == None && forall f :: 0 <= f < |p.infos| ==> p.infos[f].refs == 0
    requires cfg.tpb > 0 && TokensPerBlock(p) == cfg.tpb && TableCount(p) == 1 && cfg.spacer != Some(root)
    requires p.shape.numKvHeads > 0 && p.width >= ElementCount(p.shape)
    ensures CacheOk(PagedCache(FreshPoolState(p, root, cfg.spacer), map[root := 0]), cfg, map[root := NoLists(p.shape.FrameLayers())])
  {
    hide *;
    var s, c := FreshPoolState(p, root, cfg.spacer), PagedCache(FreshPoolState(p, root, cfg.spacer), map[root := 0]);
    var lists := NoLists(p.shape.FrameLayers());
    FreshStoreIs(p, root, cfg.spacer);
    FreshPoolInv(s, cfg, p, root);
    FreshHolds(s, cfg, root);
    CeilDivOfNothing(cfg.tpb);
    BranchFrom(c, cfg, root, lists);
    CacheFrom(c, cfg, map[root := lists]);
  }

  lemma CeilDivOfNothing(tpb: nat)
    requires tpb > 0
    ensures CeilDiv(0, tpb) == 0
  {}

  lemma FreshStoreIs(p: Pool, root: nat, spacer: Option<nat>)
    requires ValidPool(p) && p.swap == None && (forall f :: 0 <= f < |p.infos| ==> p.infos[f].refs == 0) && spacer != Some(root)
    ensures var s := FreshPoolState(p, root, spacer);
            && CacheRuns.Inv(s.store) && s.store.pool == p && root in s.store.seqs
            && s == PoolState(s.store, map[], map[], map[], map[], map[], None)
            && s.store.seqs[root].tables == seq(TableCount(p), _ => [])
            && (spacer.Some? ==> spacer.value in s.store.seqs)
            && (forall k :: k in s.store.seqs ==> k == root || Some(k) == spacer)
  {
    hide CacheRuns.Inv, ValidPool;
    var st0 := EmptyStore(p);
    CacheTheorems.FreshStoreInv(p);
    CacheRuns.CreateInv(st0, root, root);
    var st1 := CreateSequence(st0, root, root).0;
    if spacer.Some? {
      CacheRuns.CreateInv(st1, spacer.value, spacer.value);
    }
  }

  lemma FreshPoolInv(s: PoolState, cfg: PoolConfig, p: Pool, root: nat)
    requires CacheRuns.Inv(s.store) && s.store.pool == p && p.swap == None && ValidPool(p)
    requires s == PoolState(s.store, map[], map[], map[], map[], map[], None)
    requires cfg.tpb > 0 && TokensPerBlock(p) == cfg.tpb && TableCount(p) == 1 && p.shape.numKvHeads > 0 && p.width >= ElementCount(p.shape)
    requires cfg.spacer.Some? ==> cfg.spacer.value in s.store.seqs
    ensures PoolInv(s, cfg) && MemosAgree(s, cfg) && Geometry(s, cfg) && ShapeOf(s) == p.shape
  {
    hide CacheRuns.Inv, ValidPool, ElementCount, BlockTableOf;
  }

  lemma FreshHolds(s: PoolState, cfg: PoolConfig, root: nat)
    requires Geometry(s, cfg) && root in s.store.seqs && TableCount(s.store.pool) == 1
    requires s.store.seqs[root].tables == seq(TableCount(s.store.pool), _ => [])
    ensures AllHold(s, root, NoLists(ShapeOf(s).FrameLayers())) && BlockTableOf(s.store, root) == []
    ensures forall l :: 0 <= l < |NoLists(ShapeOf(s).FrameLayers())| ==> |NoLists(ShapeOf(s).FrameLayers())[l].keys| == 0
  {
    hide ElementCount;
    assert BlockTableOf(s.store, root) == [] && Reading(s.store, root) == [];
  }
}
