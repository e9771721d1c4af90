/**
  The physical frame pool: reference counts, generations, a LIFO free list, the bytes of
  every frame, and an optional swap space.  Functions describe one allocator call each; the
  lemmas account for every call against the multiset of references that clients hold.
 */
module FramePool {
  import opened Wrappers
  import opened SwapStore

  datatype BlockShape = BlockShape(
    tokensPerBlock: nat, numLayers: nat, numKvHeads: nat, headDim: nat,
    bytesPerElement: nat, layersPerFrame: nat)
  {
    function FrameLayers(): nat { if layersPerFrame == 0 then numLayers else layersPerFrame }

    predicate PerLayerFrames() { FrameLayers() == 1 && numLayers > 1 }
  }

  /** `Swapped` is declared by the program and never assigned to a frame. */
  datatype BlockState = Free | Active | Shared | Swapped

  datatype Info = Info(state: BlockState, refs: nat, generation: nat)

  datatype Pool = Pool(
    shape: BlockShape, width: nat, infos: seq<Info>, free: seq<nat>, bytes: seq<Frame>,
    swap: Option<SwapSpace>)

  function StateFor(refs: nat): BlockState {
    if refs == 0 then Free else if refs == 1 then Active else Shared
  }

  /** The free list holds each frame without references exactly once. */
  predicate FreeListOk(infos: seq<Info>, free: seq<nat>) {
    && (forall i :: 0 <= i < |free| ==> free[i] < |infos|)
    && (forall i, j :: 0 <= i < j < |free| ==> free[i] != free[j])
    && (forall f :: 0 <= f < |infos| ==> (infos[f].refs == 0 <==> f in free))
  }

  predicate ValidPool(p: Pool) {
    && |p.bytes| == |p.infos|
    && FreeListOk(p.infos, p.free)
    && (forall f :: 0 <= f < |p.infos| ==> p.infos[f].state == StateFor(p.infos[f].refs))
    && (forall f :: 0 <= f < |p.bytes| ==> |p.bytes[f]| == p.width)
    && (p.swap.Some? ==>
          && ValidSpace(p.swap.value)
          && forall k :: k in p.swap.value.slots ==> |p.swap.value.slots[k]| == p.width)
  }

  // ---- One allocator call ----------------------------------------------------------

  function CanAllocate(p: Pool, count: nat): bool { |p.free| >= count }

  function Allocate(p: Pool): (r: (Pool, Option<nat>))
    requires ValidPool(p)
    ensures ValidPool(r.0)
    ensures r.1.None? <==> p.free == []
    ensures r.1.Some? ==> r.1.value < |p.infos| && r.1.value in p.free
  {
    if p.free == [] then (p, None)
    else
      var id := p.free[|p.free| - 1];
      (p.(free := p.free[..|p.free| - 1],
          infos := p.infos[id := p.infos[id].(state := Active, refs := 1)]), Some(id))
  }

  /** The frame's last reference goes: it joins the free list one generation on. */
  function Vacate(p: Pool, id: nat): (r: Pool)
    requires ValidPool(p) && id < |p.infos| && p.infos[id].refs > 0
    ensures ValidPool(r)
  {
    p.(infos := p.infos[id := Info(Free, 0, p.infos[id].generation + 1)], free := p.free + [id])
  }

  function Release(p: Pool, id: nat): (r: Pool)
    requires ValidPool(p)
    ensures ValidPool(r)
  {
    if id >= |p.infos| || p.infos[id].refs == 0 then p
    else if p.infos[id].refs == 1 then Vacate(p, id)
    else
      var refs := p.infos[id].refs - 1;
      p.(infos := p.infos[id := p.infos[id].(refs := refs, state := StateFor(refs))])
  }

  function Retain(p: Pool, id: nat): (r: Pool)
    requires ValidPool(p)
    ensures ValidPool(r)
  {
    if id >= |p.infos| || p.infos[id].refs == 0 then p
    else p.(infos := p.infos[id := p.infos[id].(refs := p.infos[id].refs + 1, state := Shared)])
  }

  function CopyBlock(p: Pool, source: nat, destination: nat): (r: Pool)
    requires ValidPool(p)
    ensures ValidPool(r)
  {
    if source >= |p.bytes| || destination >= |p.bytes| then p
    else p.(bytes := p.bytes[destination := p.bytes[source]])
  }

  /** A client storing into a frame it was handed. */
  function WriteFrame(p: Pool, id: nat, content: Frame): (r: Pool)
    requires ValidPool(p) && id < |p.bytes| && |content| == p.width
    ensures ValidPool(r)
  {
    p.(bytes := p.bytes[id := content])
  }

  function SwapOut(p: Pool, id: nat): (r: (Pool, Option<nat>))
    requires ValidPool(p)
    ensures ValidPool(r.0)
  {
    if p.swap.None? || id >= |p.infos| || p.infos[id].refs != 1 then (p, None)
    else
      StoreThenLoad(p.swap.value, p.bytes[id], p.bytes[id], 0);
      var (space, slot) := Store(p.swap.value, p.bytes[id]);
      if slot.None? then (p, None) else (Vacate(p.(swap := Some(space)), id), slot)
  }

  function SwapIn(p: Pool, slot: nat): (r: (Pool, Option<nat>))
    requires ValidPool(p)
    ensures ValidPool(r.0)
  {
    if p.swap.None? then (p, None)
    else
      var (q, id) := Allocate(p);
      if id.None? then (p, None)
      else
        match Load(q.swap.value, slot, q.bytes[id.value])
        case None => (Release(q, id.value), None)
        case Some(content) =>
          DiscardKeepsSpaceValid(q.swap.value, slot);
          (q.(bytes := q.bytes[id.value := content], swap := Some(Discard(q.swap.value, slot))), id)
  }

  function DiscardSwapped(p: Pool, slot: nat): (r: Pool)
    requires ValidPool(p)
    ensures ValidPool(r)
  {
    if p.swap.None? then p
    else
      DiscardKeepsSpaceValid(p.swap.value, slot);
      p.(swap := Some(Discard(p.swap.value, slot)))
  }

  // ---- Accounting --------------------------------------------------------------------

  /** What a page-table entry or a prefix pin refers to: a frame or a swap slot. */
  datatype Res = OnFrame(frame: nat) | InSlot(slot: nat)

  /** How many references the pool believes exist. */
  function Count(p: Pool, r: Res): nat {
    match r
    case OnFrame(f) => if f < |p.infos| then p.infos[f].refs else 0
    case InSlot(k) => if p.swap.Some? && k in p.swap.value.slots then 1 else 0
  }

  function Content(p: Pool, r: Res): Frame {
    match r
    case OnFrame(f) => if f < |p.bytes| then p.bytes[f] else []
    case InSlot(k) => if p.swap.Some? && k in p.swap.value.slots then p.swap.value.slots[k] else []
  }

  /** Every reference count, and the set of live slots, is what the clients hold. */
  ghost predicate Balanced(p: Pool, held: multiset<Res>) {
    forall r :: held[r] == Count(p, r)
  }

  ghost predicate Accounted(p: Pool, held: multiset<Res>) {
    ValidPool(p) && Balanced(p, held)
  }

  /** Everything still in `kept` reads as before. */
  ghost predicate SameContent(p: Pool, q: Pool, kept: multiset<Res>) {
    forall r :: r in kept ==> Content(q, r) == Content(p, r)
  }

  ghost predicate SameLayout(p: Pool, q: Pool) {
    && q.shape == p.shape && q.width == p.width && |q.infos| == |p.infos|
    && (q.swap.Some? <==> p.swap.Some?)
  }

  lemma LayoutItself(p: Pool)
    ensures SameLayout(p, p)
  {}

  lemma AllocateAccounted(p: Pool, held: multiset<Res>)
    requires Accounted(p, held) && p.free != []
    ensures var (q, id) := Allocate(p);
            && Accounted(q, held + multiset{OnFrame(id.value)})
            && OnFrame(id.value) !in held
            && SameContent(p, q, held) && SameLayout(p, q)
            && |q.free| == |p.free| - 1
            && q.bytes == p.bytes
  {
    var (q, id) := Allocate(p);
    assert Count(p, OnFrame(id.value)) == 0;
  }

  lemma RetainAccounted(p: Pool, held: multiset<Res>, id: nat)
    requires Accounted(p, held) && OnFrame(id) in held
    ensures var q := Retain(p, id);
            && Accounted(q, held + multiset{OnFrame(id)})
            && SameLayout(p, q) && q.bytes == p.bytes && q.free == p.free && q.swap == p.swap
  {
    assert Count(p, OnFrame(id)) > 0;
  }

  lemma ReleaseAccounted(p: Pool, held: multiset<Res>, id: nat)
    requires Accounted(p, held) && OnFrame(id) in held
    ensures var q := Release(p, id);
            && Accounted(q, held - multiset{OnFrame(id)})
            && SameLayout(p, q) && q.bytes == p.bytes && q.swap == p.swap
            && |q.free| == |p.free| + if held[OnFrame(id)] == 1 then 1 else 0
  {
    assert Count(p, OnFrame(id)) > 0;
  }

  lemma SwapOutAccounted(p: Pool, held: multiset<Res>, id: nat)
    requires Accounted(p, held) && OnFrame(id) in held
    ensures var (q, slot) := SwapOut(p, id);
            && SameLayout(p, q)
            && (slot.None? ==> q == p)
            && (slot.Some? ==>
                  && Accounted(q, held - multiset{OnFrame(id)} + multiset{InSlot(slot.value)})
                  && held[OnFrame(id)] == 1
                  && InSlot(slot.value) !in held
                  && Content(q, InSlot(slot.value)) == Content(p, OnFrame(id))
                  && SameContent(p, q, held)
                  && |q.free| == |p.free| + 1)
  {
    var (q, slot) := SwapOut(p, id);
    if slot.Some? {
      StoreThenLoad(p.swap.value, p.bytes[id], p.bytes[id], 0);
      var k := slot.value;
      assert Count(p, InSlot(k)) == 0;
      forall r
        ensures (held - multiset{OnFrame(id)} + multiset{InSlot(k)})[r] == Count(q, r)
      {
        assert held[r] == Count(p, r);
      }
      forall r | r in held
        ensures Content(q, r) == Content(p, r)
      {
        assert Count(p, r) > 0;
      }
    }
  }

  lemma SwapInAccounted(p: Pool, held: multiset<Res>, slot: nat)
    requires Accounted(p, held) && InSlot(slot) in held && p.free != []
    ensures var (q, id) := SwapIn(p, slot);
            && id.Some?
            && Accounted(q, held - multiset{InSlot(slot)} + multiset{OnFrame(id.value)})
            && OnFrame(id.value) !in held
            && Content(q, OnFrame(id.value)) == Content(p, InSlot(slot))
            && SameContent(p, q, held - multiset{InSlot(slot)})
            && SameLayout(p, q)
            && |q.free| == |p.free| - 1
  {
    assert Count(p, InSlot(slot)) == 1;
    AllocateAccounted(p, held);
    var (a, id) := Allocate(p);
    assert p.swap.value.slots[slot] + a.bytes[id.value][p.width..] == p.swap.value.slots[slot];
    var (q, _) := SwapIn(p, slot);
    forall r
      ensures (held - multiset{InSlot(slot)} + multiset{OnFrame(id.value)})[r] == Count(q, r)
    {
      assert held[r] == Count(p, r);
      assert (held + multiset{OnFrame(id.value)})[r] == Count(a, r);
    }
    forall r | r in held - multiset{InSlot(slot)}
      ensures Content(q, r) == Content(p, r)
    {
      assert held[InSlot(slot)] == Count(p, InSlot(slot));
    }
  }

  lemma DiscardAccounted(p: Pool, held: multiset<Res>, slot: nat)
    requires Accounted(p, held) && InSlot(slot) in held
    ensures var q := DiscardSwapped(p, slot);
            && Accounted(q, held - multiset{InSlot(slot)})
            && SameContent(p, q, held - multiset{InSlot(slot)})
            && SameLayout(p, q) && q.bytes == p.bytes && q.free == p.free && q.infos == p.infos
  {
    var q := DiscardSwapped(p, slot);
    assert Count(p, InSlot(slot)) == 1;
    forall r
      ensures (held - multiset{InSlot(slot)})[r] == Count(q, r)
    {
      assert held[r] == Count(p, r);
    }
  }

  /** A copy into a frame nobody else holds disturbs nobody. */
  lemma CopyAccounted(p: Pool, held: multiset<Res>, source: nat, destination: nat)
    requires Accounted(p, held) && OnFrame(source) in held && OnFrame(destination) in held
    ensures var q := CopyBlock(p, source, destination);
            && Accounted(q, held)
            && Content(q, OnFrame(destination)) == Content(p, OnFrame(source))
            && (forall r :: r != OnFrame(destination) ==> Content(q, r) == Content(p, r))
            && SameLayout(p, q) && q.free == p.free
  {
    var q := CopyBlock(p, source, destination);
    assert Count(p, OnFrame(source)) > 0 && Count(p, OnFrame(destination)) > 0;
    assert forall r :: Count(q, r) == Count(p, r);
  }

  lemma WriteAccounted(p: Pool, held: multiset<Res>, id: nat, content: Frame)
    requires Accounted(p, held) && id < |p.bytes| && |content| == p.width
    ensures var q := WriteFrame(p, id, content);
            && Accounted(q, held) && SameLayout(p, q)
            && Content(q, OnFrame(id)) == content
            && forall r :: r != OnFrame(id) ==> Content(q, r) == Content(p, r)
  {
    assert forall r :: Count(WriteFrame(p, id, content), r) == Count(p, r);
  }

  // ---- Generations and statistics ------------------------------------------------------

  /** A frame's generation moves, by one, exactly when its last reference goes. */
  ghost predicate GenerationsTrack(p: Pool, q: Pool) {
    && |q.infos| == |p.infos|
    && forall f :: 0 <= f < |p.infos| ==>
         q.infos[f].generation == p.infos[f].generation + if p.infos[f].refs > 0 && q.infos[f].refs == 0 then 1 else 0
  }

  lemma AllocateGeneration(p: Pool, id: nat)
    requires ValidPool(p)
    ensures GenerationsTrack(p, Allocate(p).0) && GenerationsTrack(p, Retain(p, id))
  {}

  lemma ReleaseGeneration(p: Pool, id: nat)
    requires ValidPool(p)
    ensures GenerationsTrack(p, Release(p, id))
  {}

  lemma ContentGeneration(p: Pool, id: nat, other: nat)
    requires ValidPool(p)
    ensures GenerationsTrack(p, CopyBlock(p, id, other)) && GenerationsTrack(p, DiscardSwapped(p, id))
  {}

  lemma SwapOutGeneration(p: Pool, id: nat)
    requires ValidPool(p)
    ensures GenerationsTrack(p, SwapOut(p, id).0)
  {
    hide FreeListOk, ValidSpace;
  }

  lemma GenerationAdvancesWhenFreed(p: Pool, id: nat, other: nat)
    requires ValidPool(p)
    ensures GenerationsTrack(p, Allocate(p).0)
    ensures GenerationsTrack(p, Retain(p, id))
    ensures GenerationsTrack(p, Release(p, id))
    ensures GenerationsTrack(p, CopyBlock(p, id, other))
    ensures GenerationsTrack(p, SwapOut(p, id).0)
    ensures GenerationsTrack(p, DiscardSwapped(p, id))
  {
    hide *;
    AllocateGeneration(p, id);
    ReleaseGeneration(p, id);
    ContentGeneration(p, id, other);
    SwapOutGeneration(p, id);
  }

  /**
    A swap-in of an unknown slot returns its trial frame to the free list, which counts as
    freeing it; every other outcome of a swap-in keeps to the rule.
   */
  lemma SwapInGeneration(p: Pool, slot: nat)
    requires ValidPool(p)
    ensures GenerationsTrack(p, SwapIn(p, slot).0) <==> p.swap.None? || p.free == [] || slot in p.swap.value.slots
  {
    if p.swap.Some? && p.free != [] && SwapIn(p, slot).1.None? {
      var f := p.free[|p.free| - 1];
      assert SwapIn(p, slot).0.infos[f].generation == p.infos[f].generation + 1;
      assert p.infos[f].refs == 0;
    }
  }

  function StateCount(infos: seq<Info>, state: BlockState): nat {
    if infos == [] then 0
    else StateCount(infos[..|infos| - 1], state) + if infos[|infos| - 1].state == state then 1 else 0
  }

  lemma {:induction false} StateCountIsCardinality(infos: seq<Info>, state: BlockState)
    ensures StateCount(infos, state) == |set f | 0 <= f < |infos| && infos[f].state == state|
  {
    if infos == [] {
    } else {
      var n := |infos| - 1;
      var init := infos[..n];
      StateCountIsCardinality(init, state);
      var s := set f | 0 <= f < n && init[f].state == state;
      var s' := set f | 0 <= f < |infos| && infos[f].state == state;
      forall f
        ensures f in s' <==> f in s || (f == n && infos[n].state == state)
      {
        assert 0 <= f < n ==> init[f] == infos[f];
      }
      assert s' == if infos[n].state == state then s + {n} else s;
    }
  }

  ghost function Elements(s: seq<nat>): set<nat> { set x | x in s }

  lemma {:induction false} DistinctSeqCardinality(s: seq<nat>)
    requires forall i, j :: 0 <= i < j < |s| ==> s[i] != s[j]
    ensures |Elements(s)| == |s|
  {
    if s != [] {
      var init := s[..|s| - 1];
      DistinctSeqCardinality(init);
      var last := s[|s| - 1];
      assert s == init + [last];
      assert last !in init;
      assert Elements(s) == Elements(init) + {last};
      assert last !in Elements(init);
    } else {
      assert Elements(s) == {};
    }
  }

  /** The counters a scheduler reads: free frames are the free list, and the states partition the pool. */
  lemma StatisticsAgree(p: Pool)
    requires ValidPool(p)
    ensures StateCount(p.infos, Free) == |p.free|
    ensures StateCount(p.infos, Free) + StateCount(p.infos, Active) + StateCount(p.infos, Shared) == |p.infos|
    ensures StateCount(p.infos, Swapped) == 0
  {
    StateCountIsCardinality(p.infos, Free);
    DistinctSeqCardinality(p.free);
    assert Elements(p.free) == set f | 0 <= f < |p.infos| && p.infos[f].state == Free;
    StatesPartition(p.infos);
  }

  lemma {:induction false} StatesPartition(infos: seq<Info>)
    requires forall f :: 0 <= f < |infos| ==> infos[f].state == StateFor(infos[f].refs)
    ensures StateCount(infos, Free) + StateCount(infos, Active) + StateCount(infos, Shared) == |infos|
    ensures StateCount(infos, Swapped) == 0
  {
    if infos != [] {
      StatesPartition(infos[..|infos| - 1]);
    }
  }

  // ---- Runs of calls over a list of references ---------------------------------------

  function RetainAll(p: Pool, rs: seq<Res>): (q: Pool)
    requires ValidPool(p)
    ensures ValidPool(q)
    decreases |rs|
  {
    if rs == [] then p
    else RetainAll(if rs[0].OnFrame? then Retain(p, rs[0].frame) else p, rs[1..])
  }

  function FreeOne(p: Pool, r: Res): (q: Pool)
    requires ValidPool(p)
    ensures ValidPool(q)
  {
    if r.OnFrame? then Release(p, r.frame) else DiscardSwapped(p, r.slot)
  }

  function FreeAll(p: Pool, rs: seq<Res>): (q: Pool)
    requires ValidPool(p)
    ensures ValidPool(q)
    decreases |rs|
  {
    if rs == [] then p else FreeAll(FreeOne(p, rs[0]), rs[1..])
  }

  lemma {:induction false} RetainAllAccounted(p: Pool, held: multiset<Res>, rs: seq<Res>)
    requires Accounted(p, held)
    requires forall r :: r in rs ==> r.OnFrame? && r in held
    ensures var q := RetainAll(p, rs);
            && Accounted(q, held + multiset(rs))
            && SameLayout(p, q) && q.bytes == p.bytes && q.free == p.free && q.swap == p.swap
    decreases |rs|
  {
    if rs == [] {
      assert held + multiset(rs) == held;
    } else {
      RetainAccounted(p, held, rs[0].frame);
      RetainAllAccounted(Retain(p, rs[0].frame), held + multiset{rs[0]}, rs[1..]);
      assert rs == [rs[0]] + rs[1..];
      assert held + multiset{rs[0]} + multiset(rs[1..]) == held + multiset(rs);
    }
  }

  lemma AccountedPool(p: Pool, held: multiset<Res>)
    requires Accounted(p, held)
    ensures ValidPool(p)
  {}

  lemma FreeAllUnfolds(p: Pool, rs: seq<Res>)
    requires ValidPool(p)
    ensures FreeAll(p, rs) == if rs == [] then p else FreeAll(FreeOne(p, rs[0]), rs[1..])
  {
    hide ValidPool, FreeOne;
  }

  lemma SameAsItself(p: Pool, kept: multiset<Res>)
    ensures SameContent(p, p, kept) && SameLayout(p, p)
  {}

  lemma SameContentOf(p: Pool, q: Pool, r: Pool, kept: multiset<Res>, more: multiset<Res>)
    requires SameContent(p, q, more) && SameContent(q, r, kept) && kept <= more && SameLayout(p, q) && SameLayout(q, r)
    ensures SameContent(p, r, kept) && SameLayout(p, r)
  {
    hide Content;
  }

  /** One reference or slot fewer: everything still held reads as before. */
  lemma FreeOneAccounted(p: Pool, held: multiset<Res>, r: Res)
    requires Accounted(p, held) && r in held
    ensures var q := FreeOne(p, r);
            Accounted(q, held - multiset{r}) && SameContent(p, q, held - multiset{r}) && SameLayout(p, q)
  {
    hide Accounted, Release, DiscardSwapped;
    AccountedPool(p, held);
    if r.OnFrame? {
      ReleaseAccounted(p, held, r.frame);
    } else {
      DiscardAccounted(p, held, r.slot);
    }
  }

  lemma {:induction false} FreeAllAccounted(p: Pool, kept: multiset<Res>, rs: seq<Res>)
    requires Accounted(p, kept + multiset(rs))
    ensures var q := FreeAll(p, rs);
            && Accounted(q, kept)
            && SameContent(p, q, kept) && SameLayout(p, q)
    decreases |rs|
  {
    hide *;
    AccountedPool(p, kept + multiset(rs));
    FreeAllUnfolds(p, rs);
    if rs == [] {
      assert kept + multiset(rs) == kept;
      SameAsItself(p, kept);
    } else {
      assert rs == [rs[0]] + rs[1..];
      assert (kept + multiset(rs)) - multiset{rs[0]} == kept + multiset(rs[1..]);
      FreeOneAccounted(p, kept + multiset(rs), rs[0]);
      FreeAllAccounted(FreeOne(p, rs[0]), kept, rs[1..]);
      SameContentOf(p, FreeOne(p, rs[0]), FreeAll(p, rs), kept, kept + multiset(rs[1..]));
    }
  }
}
