/**
  The page table of one sequence and one stream: a vector of entries kept sorted by
  logical index.  The functions on `Table` are the finite-map reading of that vector;
  the class is the vector itself, searched with a binary lower bound.
 */
module PageTable {
  import opened Wrappers

  datatype LogicalBlock = LogicalBlock(sequence: nat, index: nat, start: nat, count: nat)

  datatype Entry = Entry(logical: LogicalBlock, physical: nat, writable: bool, slot: Option<nat>)

  type Table = seq<Entry>

  predicate Sorted(t: Table) {
    forall i, j :: 0 <= i < j < |t| ==> t[i].logical.index < t[j].logical.index
  }

  /** The number of leading entries whose logical index is below `index`. */
  function LowerBound(t: Table, index: nat): (r: nat)
    ensures r <= |t|
    ensures forall i :: 0 <= i < r ==> t[i].logical.index < index
    ensures r < |t| ==> index <= t[r].logical.index
  {
    if t == [] || index <= t[0].logical.index then 0 else 1 + LowerBound(t[1..], index)
  }

  /** Any position that splits a sorted table the way a lower bound does is the lower bound. */
  lemma {:induction false} LowerBoundIsUnique(t: Table, index: nat, r: nat)
    requires r <= |t|
    requires forall i :: 0 <= i < r ==> t[i].logical.index < index
    requires forall i :: r <= i < |t| ==> index <= t[i].logical.index
    ensures r == LowerBound(t, index)
  {
    if t != [] && t[0].logical.index < index {
      LowerBoundIsUnique(t[1..], index, r - 1);
    }
  }

  function Find(t: Table, index: nat): (r: Option<nat>)
    ensures r.Some? ==> r.value < |t| && t[r.value].logical.index == index
  {
    var i := LowerBound(t, index);
    if i < |t| && t[i].logical.index == index then Some(i) else None
  }

  function MapEntry(t: Table, logical: LogicalBlock, physical: nat, writable: bool): Table {
    var e := Entry(logical, physical, writable, None);
    var i := LowerBound(t, logical.index);
    if i < |t| && t[i].logical.index == logical.index then t[i := e] else t[..i] + [e] + t[i..]
  }

  function Unmap(t: Table, index: nat): (Table, Option<nat>) {
    match Find(t, index)
    case None => (t, None)
    case Some(i) => (t[..i] + t[i + 1..], Some(t[i].physical))
  }

  function Lookup(t: Table, index: nat): Option<nat> {
    match Find(t, index)
    case None => None
    case Some(i) => if t[i].slot.Some? then None else Some(t[i].physical)
  }

  function ForkEntry(e: Entry, child: nat): Entry {
    e.(writable := false, logical := e.logical.(sequence := child))
  }

  function Fork(t: Table, child: nat): Table {
    seq(|t|, i requires 0 <= i < |t| => ForkEntry(t[i], child))
  }

  /** The finite map a sorted table stands for. */
  ghost function AsMap(t: Table): map<nat, Entry> {
    map k | k in Indices(t) :: EntryAt(t, k)
  }

  ghost function Indices(t: Table): set<nat> {
    set e | e in t :: e.logical.index
  }

  ghost function EntryAt(t: Table, k: nat): (e: Entry)
    requires k in Indices(t)
    ensures e in t && e.logical.index == k
  {
    var e :| e in t && e.logical.index == k;
    e
  }

  ghost predicate DistinctIndices(t: Table) {
    forall e, e' :: e in t && e' in t && e.logical.index == e'.logical.index ==> e == e'
  }

  lemma SortedIsDistinct(t: Table)
    requires Sorted(t)
    ensures DistinctIndices(t)
  {}

  lemma FindAgreesWithMap(t: Table, index: nat)
    requires Sorted(t)
    ensures index in AsMap(t) <==> Find(t, index).Some?
    ensures index in AsMap(t) ==> AsMap(t)[index] == t[Find(t, index).value]
  {
    SortedIsDistinct(t);
    if index in AsMap(t) {
      var i :| 0 <= i < |t| && t[i] == EntryAt(t, index);
      LowerBoundIsUnique(t, index, i);
    }
  }

  lemma LookupAgreesWithMap(t: Table, index: nat)
    requires Sorted(t)
    ensures Lookup(t, index) ==
            if index in AsMap(t) && AsMap(t)[index].slot.None? then Some(AsMap(t)[index].physical) else None
  {
    FindAgreesWithMap(t, index);
  }

  /** A map is the table's map when it holds every entry and nothing else. */
  lemma AsMapIs(t: Table, m: map<nat, Entry>)
    requires DistinctIndices(t)
    requires forall e :: e in t ==> e.logical.index in m && m[e.logical.index] == e
    requires forall k :: k in m ==> m[k] in t && m[k].logical.index == k
    ensures AsMap(t) == m
  {
    forall k | k in m
      ensures k in AsMap(t) && AsMap(t)[k] == m[k]
    {
      assert m[k] in t;
    }
  }

  /** Adding entry e to the entries of t, less those at e's index, overwrites e's index. */
  lemma UpdateIsOverwrite(t: Table, t': Table, e: Entry)
    requires DistinctIndices(t)
    requires forall x :: x in t' <==> x == e || (x in t && x.logical.index != e.logical.index)
    ensures AsMap(t') == AsMap(t)[e.logical.index := e]
  {
    AsMapIs(t', AsMap(t)[e.logical.index := e]);
  }

  lemma RemovalIsDeletion(t: Table, t': Table, k: nat)
    requires DistinctIndices(t)
    requires forall x :: x in t' <==> x in t && x.logical.index != k
    ensures AsMap(t') == AsMap(t) - {k}
  {
    AsMapIs(t', AsMap(t) - {k});
  }

  lemma ReplaceUpdatesMap(t: Table, i: nat, e: Entry)
    requires Sorted(t) && i < |t| && e.logical.index == t[i].logical.index
    ensures Sorted(t[i := e]) && AsMap(t[i := e]) == AsMap(t)[e.logical.index := e]
  {
    var t' := t[i := e];
    SortedIsDistinct(t);
    forall x
      ensures x in t' <==> x == e || (x in t && x.logical.index != e.logical.index)
    {
      if x == e {
        assert t'[i] == e;
      } else if x in t && x.logical.index != e.logical.index {
        var a :| 0 <= a < |t| && t[a] == x;
        assert t'[a] == x;
      }
    }
    UpdateIsOverwrite(t, t', e);
  }

  lemma InsertKeepsSorted(t: Table, i: nat, e: Entry)
    requires Sorted(t) && i <= |t|
    requires forall k :: 0 <= k < i ==> t[k].logical.index < e.logical.index
    requires forall k :: i <= k < |t| ==> e.logical.index < t[k].logical.index
    ensures Sorted(t[..i] + [e] + t[i..])
  {
    var t' := t[..i] + [e] + t[i..];
    forall a, b | 0 <= a < b < |t'|
      ensures t'[a].logical.index < t'[b].logical.index
    {
      assert t'[a] == if a < i then t[a] else if a == i then e else t[a - 1];
      assert t'[b] == if b < i then t[b] else if b == i then e else t[b - 1];
    }
  }

  lemma InsertUpdatesMap(t: Table, i: nat, e: Entry)
    requires Sorted(t) && i <= |t|
    requires forall k :: 0 <= k < i ==> t[k].logical.index < e.logical.index
    requires forall k :: i <= k < |t| ==> e.logical.index < t[k].logical.index
    ensures AsMap(t[..i] + [e] + t[i..]) == AsMap(t)[e.logical.index := e]
  {
    SortedIsDistinct(t);
    assert t == t[..i] + t[i..];
    assert forall x :: x in t ==> x.logical.index != e.logical.index;
    UpdateIsOverwrite(t, t[..i] + [e] + t[i..], e);
  }

  lemma RemovedEntries(t: Table, i: nat)
    requires Sorted(t) && i < |t|
    ensures Sorted(t[..i] + t[i + 1..])
    ensures forall x :: x in t[..i] + t[i + 1..] <==> x in t && x.logical.index != t[i].logical.index
  {
    var t' := t[..i] + t[i + 1..];
    assert forall k :: 0 <= k < |t'| ==> t'[k] == t[if k < i then k else k + 1];
    assert t == t[..i] + [t[i]] + t[i + 1..];
  }

  lemma RemoveUpdatesMap(t: Table, i: nat)
    requires Sorted(t) && i < |t|
    ensures Sorted(t[..i] + t[i + 1..])
    ensures AsMap(t[..i] + t[i + 1..]) == AsMap(t) - {t[i].logical.index}
  {
    hide AsMap;
    var t' := t[..i] + t[i + 1..];
    SortedIsDistinct(t);
    RemovedEntries(t, i);
    RemovalIsDeletion(t, t', t[i].logical.index);
  }

  lemma MapEntryUpdatesMap(t: Table, logical: LogicalBlock, physical: nat, writable: bool)
    requires Sorted(t)
    ensures Sorted(MapEntry(t, logical, physical, writable))
    ensures AsMap(MapEntry(t, logical, physical, writable))
         == AsMap(t)[logical.index := Entry(logical, physical, writable, None)]
  {
    var e := Entry(logical, physical, writable, None);
    var i := LowerBound(t, logical.index);
    if i < |t| && t[i].logical.index == logical.index {
      ReplaceUpdatesMap(t, i, e);
    } else {
      assert i < |t| ==> forall k :: i <= k < |t| ==> logical.index < t[k].logical.index;
      InsertKeepsSorted(t, i, e);
      InsertUpdatesMap(t, i, e);
    }
  }

  lemma UnmapUpdatesMap(t: Table, index: nat)
    requires Sorted(t)
    ensures Sorted(Unmap(t, index).0)
    ensures AsMap(Unmap(t, index).0) == AsMap(t) - {index}
    ensures Unmap(t, index).1 == if index in AsMap(t) then Some(AsMap(t)[index].physical) else None
  {
    FindAgreesWithMap(t, index);
    if Find(t, index).None? {
      assert AsMap(t) - {index} == AsMap(t);
    } else {
      var i := Find(t, index).value;
      var t' := t[..i] + t[i + 1..];
      assert Unmap(t, index) == (t', Some(t[i].physical));
      assert Sorted(t') && AsMap(t') == AsMap(t) - {index} by {
        RemoveUpdatesMap(t, i);
      }
    }
  }

  /** A sorted table holds nothing beyond its map: equal maps mean equal vectors. */
  lemma {:induction false} SortedTableIsCanonical(t: Table, u: Table)
    requires Sorted(t) && Sorted(u) && AsMap(t) == AsMap(u)
    ensures t == u
    decreases |t|
  {
    if t == [] {
      assert u != [] ==> u[0].logical.index in AsMap(u);
    } else {
      FirstOfMap(t, u);
      TailMap(t);
      TailMap(u);
      SortedTableIsCanonical(t[1..], u[1..]);
    }
  }

  lemma TailMap(t: Table)
    requires t != [] && Sorted(t)
    ensures Sorted(t[1..]) && AsMap(t[1..]) == AsMap(t) - {t[0].logical.index}
    ensures t == [t[0]] + t[1..]
  {
    SortedIsDistinct(t);
    forall x
      ensures x in t[1..] <==> x in t && x.logical.index != t[0].logical.index
    {
      assert x in t <==> x == t[0] || x in t[1..];
    }
    RemovalIsDeletion(t, t[1..], t[0].logical.index);
  }

  lemma FirstOfMap(t: Table, u: Table)
    requires Sorted(t) && Sorted(u) && AsMap(t) == AsMap(u) && t != []
    ensures u != [] && u[0] == t[0]
  {
    FirstIsPresent(t, u);
    FirstIsPresent(u, t);
    SortedIsDistinct(t);
  }

  lemma FirstIsPresent(t: Table, u: Table)
    requires Sorted(t) && Sorted(u) && AsMap(t) == AsMap(u) && t != []
    ensures u != [] && t[0] in u && u[0].logical.index <= t[0].logical.index
  {
    SortedIsDistinct(t);
    assert t[0].logical.index in AsMap(t);
    assert AsMap(t)[t[0].logical.index] == t[0];
    assert EntryAt(u, t[0].logical.index) in u;
  }

  lemma ForkIsSorted(t: Table, child: nat)
    requires Sorted(t)
    ensures Sorted(Fork(t, child)) && |Fork(t, child)| == |t|
  {}

  lemma ForkFinds(t: Table, child: nat, k: nat)
    requires Sorted(t)
    ensures Find(Fork(t, child), k) == Find(t, k)
  {
    LowerBoundIsUnique(Fork(t, child), k, LowerBound(t, k));
  }

  lemma ForkAt(t: Table, child: nat, k: nat)
    requires Find(Fork(t, child), k) == Find(t, k)
    ensures Find(t, k).Some? ==> Find(t, k).value < |t| == |Fork(t, child)| && Fork(t, child)[Find(t, k).value] == ForkEntry(t[Find(t, k).value], child)
    ensures Lookup(Fork(t, child), k) == Lookup(t, k)
  {
    hide LowerBound;
  }

  /**
    `fork` clears `writable` in the child only: the parent's vector is untouched, so the
    flag of a shared block stays set in the parent exactly when it was set before.
   */
  lemma ForkSharesEveryMapping(t: Table, child: nat)
    requires Sorted(t)
    ensures Sorted(Fork(t, child)) && AsMap(Fork(t, child)).Keys == AsMap(t).Keys
    ensures forall k :: k in AsMap(t) ==>
              var e := AsMap(t)[k];
              AsMap(Fork(t, child))[k] == e.(writable := false, logical := e.logical.(sequence := child))
    ensures forall k :: Lookup(Fork(t, child), k) == Lookup(t, k)
  {
    hide Sorted, LowerBound, AsMap, Lookup, Fork;
    ForkIsSorted(t, child);
    forall k
      ensures k in AsMap(Fork(t, child)) <==> k in AsMap(t)
      ensures k in AsMap(t) ==> AsMap(Fork(t, child))[k] == ForkEntry(AsMap(t)[k], child)
      ensures Lookup(Fork(t, child), k) == Lookup(t, k)
    {
      ForkFinds(t, child, k);
      FindAgreesWithMap(t, k);
      FindAgreesWithMap(Fork(t, child), k);
      ForkAt(t, child, k);
    }
  }

  /** Tables grown by the cache manager have no gaps: entry i maps logical block i. */
  predicate Dense(t: Table) {
    forall i :: 0 <= i < |t| ==> t[i].logical.index == i
  }

  lemma DenseLowerBound(t: Table, index: nat)
    requires Dense(t)
    ensures LowerBound(t, index) == if index < |t| then index else |t|
    ensures Find(t, index) == if index < |t| then Some(index) else None
  {
    LowerBoundIsUnique(t, index, if index < |t| then index else |t|);
  }

  lemma DenseMapAppends(t: Table, logical: LogicalBlock, physical: nat, writable: bool)
    requires Dense(t) && logical.index == |t|
    ensures MapEntry(t, logical, physical, writable) == t + [Entry(logical, physical, writable, None)]
  {
    DenseLowerBound(t, |t|);
  }

  class BlockTable {
    var sequenceId: nat
    var entries: Table

    ghost predicate Valid()
      reads this
    {
      Sorted(entries)
    }

    constructor (sequence: nat)
      ensures Valid() && entries == [] && sequenceId == sequence
    {
      sequenceId := sequence;
      entries := [];
    }

    /** `std::lower_bound`: halves the remaining range until it is empty. */
    method FindLowerBound(index: nat) returns (first: nat)
      requires Valid()
      ensures first == LowerBound(entries, index)
    {
      first := 0;
      var count := |entries|;
      while count > 0
        invariant 0 <= count && first + count <= |entries|
        invariant forall i :: 0 <= i < first ==> entries[i].logical.index < index
        invariant forall i :: first + count <= i < |entries| ==> index <= entries[i].logical.index
      {
        var step := count / 2;
        if entries[first + step].logical.index < index {
          first := first + step + 1;
          count := count - (step + 1);
        } else {
          count := step;
        }
      }
      LowerBoundIsUnique(entries, index, first);
    }

    method Map(logical: LogicalBlock, physical: nat, writable: bool)
      requires Valid()
      modifies this`entries
      ensures Valid()
      ensures entries == MapEntry(old(entries), logical, physical, writable)
      ensures AsMap(entries) == AsMap(old(entries))[logical.index := Entry(logical, physical, writable, None)]
    {
      hide Sorted, LowerBound, AsMap;
      MapEntryUpdatesMap(entries, logical, physical, writable);
      var it := FindLowerBound(logical.index);
      if it != |entries| && entries[it].logical.index == logical.index {
        entries := entries[it := Entry(logical, physical, writable, None)];
        return;
      }
      var entry := Entry(logical, physical, writable, None);
      entries := entries[..it] + [entry] + entries[it..];
    }

    method UnmapBlock(index: nat) returns (physical: Option<nat>)
      requires Valid()
      modifies this`entries
      ensures Valid()
      ensures AsMap(entries) == AsMap(old(entries)) - {index}
      ensures physical == if index in AsMap(old(entries)) then Some(AsMap(old(entries))[index].physical) else None
    {
      hide Sorted, LowerBound, AsMap;
      UnmapUpdatesMap(entries, index);
      var it := FindLowerBound(index);
      if it == |entries| || entries[it].logical.index != index {
        return None;
      }
      physical := Some(entries[it].physical);
      entries := entries[..it] + entries[it + 1..];
    }

    method LookupBlock(index: nat) returns (physical: Option<nat>)
      requires Valid()
      ensures physical == Lookup(entries, index)
      ensures physical.Some? <==> index in AsMap(entries) && AsMap(entries)[index].slot.None?
      ensures physical.Some? ==> physical.value == AsMap(entries)[index].physical
    {
      hide Sorted, LowerBound, AsMap;
      LookupAgreesWithMap(entries, index);
      var it := FindLowerBound(index);
      if it == |entries| || entries[it].logical.index != index {
        return None;
      }
      if entries[it].slot.Some? {
        return None;
      }
      return Some(entries[it].physical);
    }

    method SetWritable(index: nat, writable: bool)
      requires Valid()
      modifies this`entries
      ensures Valid() && |entries| == |old(entries)|
      ensures forall i :: 0 <= i < |entries| ==>
                entries[i] == (if old(entries)[i].logical.index == index
                               then old(entries)[i].(writable := writable) else old(entries)[i])
    {
      FindAgreesWithMap(entries, index);
      var it := FindLowerBound(index);
      if it != |entries| && entries[it].logical.index == index {
        entries := entries[it := entries[it].(writable := writable)];
      } else {
        forall i | 0 <= i < |entries|
          ensures entries[i].logical.index != index
        {
          SortedIsDistinct(entries);
        }
      }
    }

    method ForkTable(child: nat) returns (t: BlockTable)
      requires Valid()
      ensures fresh(t) && t.Valid() && t.sequenceId == child
      ensures t.entries == Fork(entries, child)
      ensures entries == old(entries)
    {
      t := new BlockTable(child);
      t.entries := entries;
      var i := 0;
      while i < |t.entries|
        invariant i <= |t.entries| == |entries|
        invariant fresh(t) && t.sequenceId == child && entries == old(entries)
        invariant forall k :: 0 <= k < i ==> t.entries[k] == ForkEntry(entries[k], child)
        invariant forall k :: i <= k < |entries| ==> t.entries[k] == entries[k]
      {
        t.entries := t.entries[i := ForkEntry(t.entries[i], child)];
        i := i + 1;
      }
      assert t.entries == Fork(entries, child);
    }
  }
}
