/** The allocator object: the fields of the C++ class, each method proved against the pool model. */
module Allocator {
  import opened Wrappers
  import opened SwapStore
  import opened FramePool

  datatype AllocatorStats = AllocatorStats(
    totalBlocks: nat, freeBlocks: nat, activeBlocks: nat, sharedBlocks: nat, swappedBlocks: nat)

  /** The pool right after its frames are bound: all free, handed out from the highest id down. */
  ghost function FreshPool(shape: BlockShape, width: nat, slab: seq<Frame>): Pool {
    Pool(shape, width, seq(|slab|, _ => Info(Free, 0, 0)), seq(|slab|, i => i), slab, None)
  }

  /** A release by the count it finds. */
  lemma ReleaseByCount(p: Pool, id: nat)
    requires ValidPool(p)
    ensures id >= |p.infos| || p.infos[id].refs == 0 ==> Release(p, id) == p
    ensures id < |p.infos| && p.infos[id].refs == 1 ==>
              Release(p, id) == p.(infos := p.infos[id := Info(Free, 0, p.infos[id].generation + 1)], free := p.free + [id])
    ensures id < |p.infos| && p.infos[id].refs == 2 ==> Release(p, id) == p.(infos := p.infos[id := p.infos[id].(refs := 1, state := Active)])
    ensures id < |p.infos| && p.infos[id].refs > 2 ==> Release(p, id) == p.(infos := p.infos[id := p.infos[id].(refs := p.infos[id].refs - 1)])
  {}

  class MemoryAllocator {
    const shape: BlockShape
    const width: nat
    var infos: seq<Info>
    var freeList: seq<nat>
    var blocks: seq<Frame>
    var backend: HostSwapBackend?

    ghost function Repr(): set<object>
      reads this
    {
      if backend == null then {this} else {this, backend}
    }

    ghost function Model(): Pool
      reads this, backend
    {
      Pool(shape, width, infos, freeList, blocks,
           if backend == null then None else Some(backend.Model()))
    }

    ghost predicate Valid()
      reads this, backend
    {
      ValidPool(Model())
    }

    /** Adopts a slab the caller owns; its initial bytes are whatever they are. */
    constructor (shape: BlockShape, width: nat, slab: seq<Frame>)
      requires forall f :: 0 <= f < |slab| ==> |slab[f]| == width
      ensures Valid() && backend == null
      ensures Model() == FreshPool(shape, width, slab)
    {
      this.shape := shape;
      this.width := width;
      blocks := [];
      infos := [];
      freeList := [];
      backend := null;
      new;
      var i := 0;
      while i < |slab|
        invariant i <= |slab| && |infos| == |freeList| == |blocks| == i
        invariant blocks == slab[..i] && backend == null
        invariant this.shape == shape && this.width == width
        invariant forall k :: 0 <= k < i ==> infos[k] == Info(Free, 0, 0) && freeList[k] == k
      {
        blocks := blocks + [slab[i]];
        infos := infos + [Info(Free, 0, 0)];
        freeList := freeList + [i];
        i := i + 1;
      }
      assert blocks == slab;
      assert infos == seq(|slab|, _ => Info(Free, 0, 0));
      assert freeList == seq(|slab|, i => i);
    }

    /** Adopts any backend, used or not, whose slots hold whole frames. */
    method SetSwapBackend(backend: HostSwapBackend?)
      requires Valid()
      requires backend != null ==> backend.Valid() && forall k :: k in backend.slots ==> |backend.slots[k]| == width
      modifies this`backend
      ensures Valid() && this.backend == backend
      ensures Model() == old(Model()).(swap := if backend == null then None else Some(backend.Model()))
    {
      this.backend := backend;
    }

    method AllocateFrame() returns (id: Option<nat>)
      requires Valid()
      modifies this
      ensures Valid() && backend == old(backend)
      ensures (Model(), id) == Allocate(old(Model()))
    {
      if freeList == [] {
        return None;
      }
      var back := freeList[|freeList| - 1];
      freeList := freeList[..|freeList| - 1];
      infos := infos[back := infos[back].(state := Active, refs := 1)];
      id := Some(back);
    }

    method ReleaseFrame(id: nat)
      requires Valid()
      modifies this
      ensures Valid() && backend == old(backend)
      ensures Model() == Release(old(Model()), id)
    {
      hide ValidPool, Release;
      ReleaseByCount(Model(), id);
      if id >= |infos| {
        return;
      }
      if infos[id].refs == 0 {
        return;
      }
      var before := infos[id];
      infos := infos[id := infos[id].(refs := infos[id].refs - 1)];
      if infos[id].refs == 0 {
        infos := infos[id := Info(Free, 0, before.generation + 1)];
        freeList := freeList + [id];
        assert infos == old(infos)[id := Info(Free, 0, before.generation + 1)];
      } else if infos[id].refs == 1 {
        infos := infos[id := infos[id].(state := Active)];
        assert infos == old(infos)[id := before.(refs := 1, state := Active)];
      }
    }

    method RetainFrame(id: nat)
      requires Valid()
      modifies this
      ensures Valid() && backend == old(backend)
      ensures Model() == Retain(old(Model()), id)
    {
      if id >= |infos| {
        return;
      }
      if infos[id].refs == 0 {
        return;
      }
      infos := infos[id := infos[id].(refs := infos[id].refs + 1, state := Shared)];
    }

    method CopyFrame(source: nat, destination: nat)
      requires Valid()
      modifies this
      ensures Valid() && backend == old(backend)
      ensures Model() == CopyBlock(old(Model()), source, destination)
    {
      if source >= |blocks| || destination >= |blocks| {
        return;
      }
      blocks := blocks[destination := blocks[source]];
    }

    method SwapOutFrame(id: nat) returns (slot: Option<nat>)
      requires Valid()
      modifies Repr()
      ensures Valid() && backend == old(backend)
      ensures (Model(), slot) == SwapOut(old(Model()), id)
    {
      slot := None;
      if backend == null || id >= |infos| {
        return;
      }
      if infos[id].refs != 1 {
        return;
      }
      slot := backend.StoreBlock(blocks[id]);
      if slot.None? {
        return;
      }
      infos := infos[id := Info(Free, 0, infos[id].generation + 1)];
      freeList := freeList + [id];
    }

    method SwapInSlot(slot: nat) returns (id: Option<nat>)
      requires Valid()
      modifies Repr()
      ensures Valid() && backend == old(backend)
      ensures (Model(), id) == SwapIn(old(Model()), slot)
    {
      if backend == null {
        return None;
      }
      id := AllocateFrame();
      if id.None? {
        return None;
      }
      var ok, loaded := backend.LoadBlock(slot, blocks[id.value]);
      if !ok {
        ReleaseFrame(id.value);
        return None;
      }
      blocks := blocks[id.value := loaded];
      backend.DiscardSlot(slot);
    }

    method DiscardSlot(slot: nat)
      requires Valid()
      modifies Repr()
      ensures Valid() && backend == old(backend)
      ensures Model() == DiscardSwapped(old(Model()), slot)
    {
      if backend != null {
        backend.DiscardSlot(slot);
      }
    }

    /** A client of the pool storing into a frame it was handed. */
    method StoreIntoFrame(id: nat, content: Frame)
      requires Valid() && id < |blocks| && |content| == width
      modifies this
      ensures Valid() && backend == old(backend)
      ensures Model() == WriteFrame(old(Model()), id, content)
    {
      blocks := blocks[id := content];
    }

    method Stats() returns (stats: AllocatorStats)
      requires Valid()
      ensures stats.totalBlocks == |infos| && stats.freeBlocks == |freeList|
      ensures stats.freeBlocks + stats.activeBlocks + stats.sharedBlocks == stats.totalBlocks
      ensures stats.sharedBlocks == StateCount(infos, Shared)
      ensures stats.swappedBlocks == if backend == null then 0 else |backend.slots|
    {
      var free, active, shared := 0, 0, 0;
      var i := 0;
      while i < |infos|
        invariant i <= |infos|
        invariant free == StateCount(infos[..i], Free)
        invariant active == StateCount(infos[..i], Active)
        invariant shared == StateCount(infos[..i], Shared)
      {
        assert infos[..i + 1][..i] == infos[..i];
        match infos[i].state {
          case Free => free := free + 1;
          case Active => active := active + 1;
          case Shared => shared := shared + 1;
          case Swapped =>
        }
        i := i + 1;
      }
      assert infos[..i] == infos;
      StatisticsAgree(Model());
      stats := AllocatorStats(|infos|, free, active, shared, if backend == null then 0 else |backend.slots|);
    }
  }
}
