/**
  The order in which frames are handed out: what was given back last goes out first, and a pool
  nothing was taken from starts at its highest id.
 */
module FrameReuse {
  import opened SwapStore
  import opened FramePool
  import Allocator

  /** Up to n allocations in a row, and the frames they hand out. */
  function TakeFrames(p: Pool, n: nat): (Pool, seq<nat>)
    requires ValidPool(p)
    decreases n
  {
    var (q, id) := Allocate(p);
    if n == 0 || id.None? then (p, [])
    else
      var (r, ids) := TakeFrames(q, n - 1);
      (r, [id.value] + ids)
  }

  function GiveBack(p: Pool, ids: seq<nat>): (r: Pool)
    requires ValidPool(p)
    ensures ValidPool(r)
    decreases |ids|
  {
    if ids == [] then p else GiveBack(Release(p, ids[0]), ids[1..])
  }

  /** Frames leave the free list from its back. */
  lemma {:induction false} TakenFromTheBack(p: Pool, n: nat)
    requires ValidPool(p) && n <= |p.free|
    ensures |TakeFrames(p, n).1| == n && TakeFrames(p, n).0.free == p.free[..|p.free| - n]
    ensures forall i :: 0 <= i < n ==> TakeFrames(p, n).1[i] == p.free[|p.free| - 1 - i]
    decreases n
  {
    hide ValidPool;
    if n > 0 {
      TakenFromTheBack(Allocate(p).0, n - 1);
    }
  }

  /** Frames with one holder each join the free list at its back. */
  lemma {:induction false} GivenToTheBack(p: Pool, ids: seq<nat>)
    requires ValidPool(p) && forall i, j :: 0 <= i < j < |ids| ==> ids[i] != ids[j]
    requires forall i :: 0 <= i < |ids| ==> ids[i] < |p.infos| && p.infos[ids[i]].refs == 1
    ensures GiveBack(p, ids).free == p.free + ids
    decreases |ids|
  {
    hide ValidPool;
    if ids != [] {
      GivenToTheBack(Release(p, ids[0]), ids[1..]);
    }
  }

  /** Last released, first allocated: as many allocations hand the frames back out in reverse, and no other frame moves. */
  lemma LastReleasedFirstAllocated(p: Pool, ids: seq<nat>)
    requires ValidPool(p) && forall i, j :: 0 <= i < j < |ids| ==> ids[i] != ids[j]
    requires forall i :: 0 <= i < |ids| ==> ids[i] < |p.infos| && p.infos[ids[i]].refs == 1
    ensures var (q, again) := TakeFrames(GiveBack(p, ids), |ids|);
            |again| == |ids| && q.free == p.free && forall i :: 0 <= i < |ids| ==> again[i] == ids[|ids| - 1 - i]
  {
    hide *;
    GivenToTheBack(p, ids);
    TakenFromTheBack(GiveBack(p, ids), |ids|);
    assert (p.free + ids)[..|p.free|] == p.free;
  }

  lemma NewPoolIsValid(shape: BlockShape, width: nat, slab: seq<Frame>)
    requires forall f :: 0 <= f < |slab| ==> |slab[f]| == width
    ensures ValidPool(Allocator.FreshPool(shape, width, slab))
  {
    var p := Allocator.FreshPool(shape, width, slab);
    assert forall f :: 0 <= f < |p.infos| ==> p.free[f] == f && p.infos[f] == Info(Free, 0, 0);
  }

  /** A new pool hands out its frames from the highest id down, and then no more. */
  lemma NewPoolCountsDown(shape: BlockShape, width: nat, slab: seq<Frame>, n: nat)
    requires forall f :: 0 <= f < |slab| ==> |slab[f]| == width
    ensures ValidPool(Allocator.FreshPool(shape, width, slab))
    ensures var ids := TakeFrames(Allocator.FreshPool(shape, width, slab), n).1;
            |ids| == (if n <= |slab| then n else |slab|) && forall i :: 0 <= i < |ids| ==> ids[i] == |slab| - 1 - i
  {
    var p := Allocator.FreshPool(shape, width, slab);
    NewPoolIsValid(shape, width, slab);
    if n <= |slab| {
      TakenFromTheBack(p, n);
    } else {
      TakenFromTheBack(p, |slab|);
      NoMoreFrames(p, n);
    }
  }

  /** Asking for more frames than there are hands out those there are. */
  lemma {:induction false} NoMoreFrames(p: Pool, n: nat)
    requires ValidPool(p) && n >= |p.free|
    ensures TakeFrames(p, n) == TakeFrames(p, |p.free|)
    decreases n
  {
    hide ValidPool;
    if p.free != [] {
      NoMoreFrames(Allocate(p).0, n - 1);
    }
  }
}
