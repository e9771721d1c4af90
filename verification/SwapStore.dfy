/**
  The eviction store: opaque slots holding the bytes of frames that were reclaimed.
  Frames are sequences of elements at the pool's element type.
 */
module SwapStore {
  import opened Wrappers

  type Frame = seq<real>

  datatype SwapSpace = SwapSpace(capacity: nat, next: nat, slots: map<nat, Frame>)

  /** Slot ids are never reused: every live slot is older than the next id. */
  predicate ValidSpace(s: SwapSpace) {
    && (forall k :: k in s.slots ==> k < s.next)
    && |s.slots| <= s.capacity
  }

  function Store(s: SwapSpace, content: Frame): (SwapSpace, Option<nat>) {
    if |s.slots| >= s.capacity then (s, None)
    else (s.(next := s.next + 1, slots := s.slots[s.next := content]), Some(s.next))
  }

  /** Loading overwrites the head of a frame that is wide enough and refuses a narrower one. */
  function Load(s: SwapSpace, slot: nat, frame: Frame): Option<Frame> {
    if slot !in s.slots || |frame| < |s.slots[slot]| then None
    else Some(s.slots[slot] + frame[|s.slots[slot]|..])
  }

  function Discard(s: SwapSpace, slot: nat): SwapSpace {
    s.(slots := s.slots - {slot})
  }

  /** What a slot restores is what was stored, however much was stored or dropped in between. */
  lemma StoreThenLoad(s: SwapSpace, content: Frame, frame: Frame, other: nat)
    requires ValidSpace(s) && |frame| == |content|
    ensures var (s', slot) := Store(s, content);
            && ValidSpace(s')
            && (slot.Some? <==> |s.slots| < s.capacity)
            && (slot.Some? ==>
                  && slot.value !in s.slots
                  && Load(s', slot.value, frame) == Some(content)
                  && Discard(s', slot.value).slots == s.slots
                  && (other != slot.value ==> Load(Discard(s', other), slot.value, frame) == Some(content)))
  {
    var (s', slot) := Store(s, content);
    if slot.Some? {
      assert content + frame[|content|..] == content;
      assert s'.slots.Keys == s.slots.Keys + {slot.value};
      assert |s'.slots.Keys| == |s.slots.Keys| + 1;
      assert Discard(s', slot.value).slots == s.slots;
    }
  }

  lemma DiscardKeepsSpaceValid(s: SwapSpace, slot: nat)
    requires ValidSpace(s)
    ensures ValidSpace(Discard(s, slot))
    ensures |Discard(s, slot).slots| == |s.slots| - if slot in s.slots then 1 else 0
  {
    assert (s.slots - {slot}).Keys == s.slots.Keys - {slot};
    assert |(s.slots - {slot}).Keys| == |s.slots.Keys| - if slot in s.slots then 1 else 0;
  }

  class HostSwapBackend {
    const maxSlots: nat
    var nextSlot: nat
    var slots: map<nat, Frame>

    function Model(): SwapSpace
      reads this
    {
      SwapSpace(maxSlots, nextSlot, slots)
    }

    ghost predicate Valid()
      reads this
    {
      ValidSpace(Model())
    }

    constructor (capacity: nat)
      ensures Valid() && Model() == SwapSpace(capacity, 1, map[])
    {
      maxSlots := capacity;
      nextSlot := 1;
      slots := map[];
    }

    method StoreBlock(content: Frame) returns (slot: Option<nat>)
      requires Valid()
      modifies this
      ensures Valid()
      ensures (Model(), slot) == Store(old(Model()), content)
    {
      StoreThenLoad(Model(), content, content, 0);
      if |slots| >= maxSlots {
        return None;
      }
      slot := Some(nextSlot);
      slots := slots[nextSlot := content];
      nextSlot := nextSlot + 1;
    }

    /** `frame` is the target's bytes; the out-parameter is what they become. */
    method LoadBlock(slot: nat, frame: Frame) returns (ok: bool, loaded: Frame)
      ensures ok == Load(Model(), slot, frame).Some?
      ensures loaded == if ok then Load(Model(), slot, frame).value else frame
    {
      if slot !in slots {
        return false, frame;
      }
      if |frame| < |slots[slot]| {
        return false, frame;
      }
      return true, slots[slot] + frame[|slots[slot]|..];
    }

    method DiscardSlot(slot: nat)
      requires Valid()
      modifies this
      ensures Valid()
      ensures Model() == Discard(old(Model()), slot)
    {
      DiscardKeepsSpaceValid(Model(), slot);
      slots := slots - {slot};
    }
  }
}
