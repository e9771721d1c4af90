/**
  The store a client may imagine: every sequence owns a private copy of its bytes, and a
  published prefix is a saved copy.  There are no frames, slots or reference counts.
 */
module PrivateStore {
  import opened Wrappers
  import opened SwapStore
  import opened CacheStore

  datatype PrivateSeq = PrivateSeq(request: nat, blocks: seq<seq<Frame>>, key: string, hash: nat)

  datatype SavedPrefix = SavedPrefix(hash: nat, tokens: nat, users: nat, blocks: seq<Frame>)

  datatype Private = Private(
    tables: nat, tpb: nat, seqs: map<nat, PrivateSeq>, prefixes: map<string, seq<SavedPrefix>>)

  ghost function PCreate(a: Private, sid: nat, request: nat): Private {
    a.(seqs := a.seqs[sid := PrivateSeq(request, seq(a.tables, _ => []), "", 0)])
  }

  ghost function PFork(a: Private, parent: nat, child: nat, request: nat): Private
    requires parent in a.seqs
  {
    a.(seqs := a.seqs[child := PrivateSeq(request, a.seqs[parent].blocks, "", 0)])
  }

  /** The sequence gains `count` blocks of unspecified bytes in every table. */
  ghost predicate PGrows(a: Private, sid: nat, count: nat, a': Private) {
    && sid in a.seqs && sid in a'.seqs
    && a' == a.(seqs := a.seqs[sid := a.seqs[sid].(blocks := a'.seqs[sid].blocks)])
    && |a'.seqs[sid].blocks| == |a.seqs[sid].blocks|
    && forall l :: 0 <= l < |a.seqs[sid].blocks| ==>
         && |a'.seqs[sid].blocks[l]| == |a.seqs[sid].blocks[l]| + count
         && a.seqs[sid].blocks[l] <= a'.seqs[sid].blocks[l]
  }

  ghost predicate PHasBlock(a: Private, sid: nat, layer: nat, block: nat) {
    sid in a.seqs && layer < |a.seqs[sid].blocks| && block < |a.seqs[sid].blocks[layer]|
  }

  ghost function PWrite(a: Private, sid: nat, layer: nat, block: nat, content: Frame): Private
    requires PHasBlock(a, sid, layer, block)
  {
    var s := a.seqs[sid];
    a.(seqs := a.seqs[sid := s.(blocks := s.blocks[layer := s.blocks[layer][block := content]])])
  }

  ghost function PFind(records: seq<SavedPrefix>, hash: nat): (r: Option<nat>)
    ensures r.Some? ==> r.value < |records| && records[r.value].hash == hash
  {
    if records == [] then None
    else if records[0].hash == hash then Some(0)
    else
      var r := PFind(records[1..], hash);
      if r.Some? then Some(r.value + 1) else None
  }

  ghost function PDrop(a: Private, sid: nat): Private
    requires sid in a.seqs
  {
    var s := a.seqs[sid];
    if s.key == "" then a
    else
      var a1 := a.(seqs := a.seqs[sid := s.(key := "", hash := 0)]);
      if s.key !in a.prefixes then a1
      else
        var records := a.prefixes[s.key];
        match PFind(records, s.hash)
        case None => a1
        case Some(i) =>
          if records[i].users > 1 then
            a1.(prefixes := a.prefixes[s.key := records[i := records[i].(users := records[i].users - 1)]])
          else
            var left := records[..i] + records[i + 1..];
            a1.(prefixes := if left == [] then a.prefixes - {s.key} else a.prefixes[s.key := left])
  }

  ghost function PRelease(a: Private, sid: nat): Private {
    if sid !in a.seqs then a
    else
      var a1 := PDrop(a, sid);
      a1.(seqs := a1.seqs - {sid})
  }

  ghost function PReleaseEach(a: Private, ids: seq<nat>): Private
    decreases |ids|
  {
    if ids == [] then a else PReleaseEach(PRelease(a, ids[0]), ids[1..])
  }

  ghost function Concat(blocks: seq<seq<Frame>>): seq<Frame> {
    if blocks == [] then [] else blocks[0] + Concat(blocks[1..])
  }

  /** Publishing saves a copy of the sequence's bytes, or joins the copy with the same hash. */
  ghost function PPublish(a: Private, sid: nat, key: string, hash: ContentHash): Private
    requires sid in a.seqs && a.seqs[sid].blocks != []
  {
    var s := a.seqs[sid];
    if s.key == key then a
    else
      var h := hash(s.blocks);
      var records := if key in a.prefixes then a.prefixes[key] else [];
      var a1 := a.(seqs := a.seqs[sid := s.(key := key, hash := h)]);
      match PFind(records, h)
      case Some(i) => a1.(prefixes := a.prefixes[key := records[i := records[i].(users := records[i].users + 1)]])
      case None =>
        a1.(prefixes := a.prefixes[key := records + [SavedPrefix(h, |s.blocks[0]| * a.tpb, 1, Concat(s.blocks))]])
  }

  /** Attaching copies the only saved content of a key into an empty sequence. */
  ghost predicate PAttaches(a: Private, sid: nat, key: string, tokens: nat, a': Private) {
    && sid in a.seqs && key in a.prefixes && |a.prefixes[key]| == 1 && sid in a'.seqs
    && var record := a.prefixes[key][0];
       && tokens == record.tokens
       && Concat(a'.seqs[sid].blocks) == record.blocks
       && |a'.seqs[sid].blocks| == a.tables
       && (forall l :: 0 <= l < a.tables ==> |a'.seqs[sid].blocks[l]| * a.tpb == tokens)
       && a' == a.(
            seqs := a.seqs[sid := a.seqs[sid].(blocks := a'.seqs[sid].blocks, key := key, hash := record.hash)],
            prefixes := a.prefixes[key := [record.(users := record.users + 1)]])
  }
}
