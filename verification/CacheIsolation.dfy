/** Consequences of the private-copy reading: isolation between sequences, and frozen prefixes. */
module CacheIsolation {
  import opened Wrappers
  import opened Arithmetic
  import opened SwapStore
  import opened FramePool
  import opened PageTable
  import opened CacheStore
  import opened CacheAccounting
  import opened PrivateStore
  import opened CacheRefinement
  import opened CacheLifecycle
  import opened CachePrefixes
  import opened CacheRuns
  import opened CacheTheorems

  // ---- Isolation ----------------------------------------------------------------------------------

  /** The sequences whose own contents a call may change. */
  ghost predicate Targets(a: Private, op: Op, sid: nat) {
    match op
    case Reserve(s, _) => sid == s
    case Write(s, _, _, _) => sid == s
    case Attach(s, _) => sid == s
    case ReleaseOne(s) => sid == s
    case ReleaseWhole(request) => sid in a.seqs && a.seqs[sid].request == request
    case _ => false
  }

  lemma ReleaseLeavesOthers(a: Private, sid: nat, other: nat)
    requires other in a.seqs && other != sid
    ensures other in PRelease(a, sid).seqs && PRelease(a, sid).seqs[other] == a.seqs[other]
  {}

  lemma {:induction false} ReleaseEachLeavesOthers(a: Private, ids: seq<nat>, other: nat)
    requires other in a.seqs && other !in ids
    ensures other in PReleaseEach(a, ids).seqs && PReleaseEach(a, ids).seqs[other] == a.seqs[other]
    decreases |ids|
  {
    if ids != [] {
      ReleaseLeavesOthers(a, ids[0], other);
      ReleaseEachLeavesOthers(PRelease(a, ids[0]), ids[1..], other);
    }
  }

  /** No call, successful or refused, changes what a sequence it does not target reads. */
  lemma OthersUntouched(st: Store, op: Op, hash: ContentHash, other: nat)
    requires Inv(st) && ValidPool(st.pool) && Disciplined(st, op)
    requires other in st.seqs && !Targets(Abs(st), op, other)
    ensures var st' := Step(st, op, hash).0;
            other in st'.seqs && Blocks(st'.pool, st'.seqs[other].tables) == Blocks(st.pool, st.seqs[other].tables)
  {
    hide Inv, Step, AbsSeqs, AbsPrefixes;
    StepRefinesPrivateCopies(st, op, hash);
    var (st', result) := Step(st, op, hash);
    AbsShows(st, other, "");
    AbsShows(st', other, "");
    PrivateStepLeavesOthers(Abs(st), op, result, Abs(st'), hash, other);
  }

  lemma PrivateStepLeavesOthers(a: Private, op: Op, result: nat, a': Private, hash: ContentHash, other: nat)
    requires PrivateStep(a, op, result, a', hash) && other in a.seqs && !Targets(a, op, other)
    ensures other in a'.seqs && a'.seqs[other].blocks == a.seqs[other].blocks
  {
    if op.ReleaseWhole? {
      var ids :| Enumerates(a, op.request, ids) && a' == PReleaseEach(a, ids);
      ReleaseEachLeavesOthers(a, ids, other);
    }
  }

  // ---- Frozen prefixes -------------------------------------------------------------------------------

  ghost function Saved(a: Private, key: string, h: nat): Option<SavedPrefix> {
    if key !in a.prefixes then None
    else match PFind(a.prefixes[key], h) case None => None case Some(i) => Some(a.prefixes[key][i])
  }

  /** The saved bytes and their extent, whoever uses them. */
  ghost predicate SameBytes(r: SavedPrefix, r': SavedPrefix) {
    r'.blocks == r.blocks && r'.tokens == r.tokens
  }

  ghost predicate PDistinct(rs: seq<SavedPrefix>) {
    forall i, j :: 0 <= i < j < |rs| ==> rs[i].hash != rs[j].hash
  }

  ghost predicate AllDistinct(a: Private) {
    forall key :: key in a.prefixes ==> PDistinct(a.prefixes[key])
  }

  lemma InvGivesDistinct(st: Store)
    requires Inv(st)
    ensures AllDistinct(Abs(st))
  {
    forall key | key in Abs(st).prefixes
      ensures PDistinct(Abs(st).prefixes[key])
    {
      assert RecordsOk(st.pool, st.seqs, key, st.prefixes[key]);
    }
  }

  lemma {:induction false} PFindIs(rs: seq<SavedPrefix>, h: nat, i: nat)
    requires PDistinct(rs) && i < |rs| && rs[i].hash == h
    ensures PFind(rs, h) == Some(i)
  {
    if i > 0 {
      assert PDistinct(rs[1..]);
      PFindIs(rs[1..], h, i - 1);
    }
  }

  lemma RecountSaves(rs: seq<SavedPrefix>, i: nat, users: nat, h: nat)
    requires PDistinct(rs) && i < |rs|
    ensures var rs' := rs[i := rs[i].(users := users)];
            && PDistinct(rs') && PFind(rs', h) == PFind(rs, h)
            && (PFind(rs, h).Some? ==> SameBytes(rs[PFind(rs, h).value], rs'[PFind(rs, h).value]))
  {
    var rs' := rs[i := rs[i].(users := users)];
    if PFind(rs, h).Some? {
      PFindIs(rs', h, PFind(rs, h).value);
    } else if PFind(rs', h).Some? {
      PFindIs(rs, h, PFind(rs', h).value);
    }
  }

  lemma RemoveSaves(rs: seq<SavedPrefix>, i: nat, h: nat)
    requires PDistinct(rs) && i < |rs|
    ensures var left := rs[..i] + rs[i + 1..];
            && PDistinct(left)
            && (PFind(left, h).Some? ==> PFind(rs, h).Some? && rs[PFind(rs, h).value] == left[PFind(left, h).value])
  {
    var left := rs[..i] + rs[i + 1..];
    assert forall j :: 0 <= j < |left| ==> left[j] == rs[if j < i then j else j + 1];
    if PFind(left, h).Some? {
      var j := PFind(left, h).value;
      PFindIs(rs, h, if j < i then j else j + 1);
    }
  }

  /** Dropping a user keeps, or removes, records; it never alters or adds saved bytes. */
  lemma DropSaves(a: Private, sid: nat, key: string, h: nat)
    requires AllDistinct(a) && sid in a.seqs
    ensures var a' := PDrop(a, sid);
            && AllDistinct(a')
            && (Saved(a', key, h).Some? ==> Saved(a, key, h).Some? && SameBytes(Saved(a, key, h).value, Saved(a', key, h).value))
  {
    var s := a.seqs[sid];
    if s.key != "" && s.key in a.prefixes {
      var rs := a.prefixes[s.key];
      var i := PFind(rs, s.hash);
      if i.Some? {
        RecountSaves(rs, i.value, if rs[i.value].users > 1 then rs[i.value].users - 1 else 0, h);
        RemoveSaves(rs, i.value, h);
      }
    }
  }

  lemma ReleaseSaves(a: Private, sid: nat, key: string, h: nat)
    requires AllDistinct(a)
    ensures var a' := PRelease(a, sid);
            && AllDistinct(a')
            && (Saved(a', key, h).Some? ==> Saved(a, key, h).Some? && SameBytes(Saved(a, key, h).value, Saved(a', key, h).value))
  {
    if sid in a.seqs {
      DropSaves(a, sid, key, h);
      hide PDrop, PFind;
    }
  }

  lemma {:induction false} ReleaseEachSaves(a: Private, ids: seq<nat>, key: string, h: nat)
    requires AllDistinct(a)
    ensures var a' := PReleaseEach(a, ids);
            Saved(a', key, h).Some? ==> Saved(a, key, h).Some? && SameBytes(Saved(a, key, h).value, Saved(a', key, h).value)
    decreases |ids|
  {
    if ids != [] {
      ReleaseSaves(a, ids[0], key, h);
      hide PRelease, Saved, AllDistinct;
      ReleaseEachSaves(PRelease(a, ids[0]), ids[1..], key, h);
    }
  }

  lemma PublishSaves(a: Private, sid: nat, pkey: string, hash: ContentHash, key: string, h: nat)
    requires AllDistinct(a) && sid in a.seqs && a.seqs[sid].blocks != [] && Saved(a, key, h).Some?
    ensures var a' := PPublish(a, sid, pkey, hash);
            Saved(a', key, h).Some? && SameBytes(Saved(a, key, h).value, Saved(a', key, h).value)
  {
    var s := a.seqs[sid];
    if s.key != pkey && pkey == key {
      var rs := a.prefixes[key];
      var ph := hash(s.blocks);
      match PFind(rs, ph)
      case Some(i) => RecountSaves(rs, i, rs[i].users + 1, h);
      case None =>
        var rs' := rs + [SavedPrefix(ph, |s.blocks[0]| * a.tpb, 1, Concat(s.blocks))];
        FindInExtension(rs, rs', h);
    }
  }

  lemma {:induction false} FindInExtension(rs: seq<SavedPrefix>, rs': seq<SavedPrefix>, h: nat)
    requires rs <= rs' && PFind(rs, h).Some?
    ensures PFind(rs', h) == PFind(rs, h)
  {
    if rs[0].hash != h {
      assert rs[1..] <= rs'[1..];
      FindInExtension(rs[1..], rs'[1..], h);
    }
  }

  lemma PrivateStepSaves(a: Private, op: Op, result: nat, a': Private, hash: ContentHash, key: string, h: nat)
    requires PrivateStep(a, op, result, a', hash) && AllDistinct(a)
    requires Saved(a, key, h).Some? && Saved(a', key, h).Some?
    ensures SameBytes(Saved(a, key, h).value, Saved(a', key, h).value)
  {
    match op
    case Publish(sid, pkey) => if result > 0 { PublishSaves(a, sid, pkey, hash, key, h); }
    case Attach(sid, pkey) =>
      if result > 0 && pkey == key {
        var rs := a.prefixes[key];
        RecountSaves(rs, 0, rs[0].users + 1, h);
        assert rs[0 := rs[0].(users := rs[0].users + 1)] == [rs[0].(users := rs[0].users + 1)];
      }
    case ReleaseOne(sid) => ReleaseSaves(a, sid, key, h);
    case ReleaseWhole(request) =>
      var ids :| Enumerates(a, request, ids) && a' == PReleaseEach(a, ids);
      ReleaseEachSaves(a, ids, key, h);
    case _ =>
  }

  /** The record stays in the index at every state of a run. */
  ghost predicate LiveThroughout(st: Store, ops: seq<Op>, hash: ContentHash, key: string, h: nat)
    requires ValidPool(st.pool)
    decreases |ops|
  {
    && Saved(Abs(st), key, h).Some?
    && (ops != [] ==> LiveThroughout(Step(st, ops[0], hash).0, ops[1..], hash, key, h))
  }

  /** While a record lives, over any run, its bytes and extent never change. */
  lemma {:induction false} PublishedPrefixesAreFrozen(st: Store, ops: seq<Op>, hash: ContentHash, key: string, h: nat)
    requires Inv(st) && ValidPool(st.pool) && DisciplinedRun(st, ops, hash) && LiveThroughout(st, ops, hash, key, h)
    ensures Saved(Abs(Run(st, ops, hash)), key, h).Some?
    ensures SameBytes(Saved(Abs(st), key, h).value, Saved(Abs(Run(st, ops, hash)), key, h).value)
    decreases |ops|
  {
    if ops != [] {
      StepRefinesPrivateCopies(st, ops[0], hash);
      InvGivesDistinct(st);
      var (st1, result) := Step(st, ops[0], hash);
      assert LiveThroughout(st1, ops[1..], hash, key, h);
      hide Inv, Abs, Step, PrivateStep, Disciplined, Saved;
      PrivateStepSaves(Abs(st), ops[0], result, Abs(st1), hash, key, h);
      PublishedPrefixesAreFrozen(st1, ops[1..], hash, key, h);
    }
  }

  lemma {:induction false} ConcatIsInjective(a: seq<seq<Frame>>, b: seq<seq<Frame>>, n: nat)
    requires |a| == |b| && Concat(a) == Concat(b)
    requires forall l :: 0 <= l < |a| ==> |a[l]| == n && |b[l]| == n
    ensures a == b
  {
    if a != [] {
      assert a[0] == Concat(a)[..n] && b[0] == Concat(b)[..n];
      assert Concat(a[1..]) == Concat(a)[n..] && Concat(b[1..]) == Concat(b)[n..];
      ConcatIsInjective(a[1..], b[1..], n);
      assert a == [a[0]] + a[1..] && b == [b[0]] + b[1..];
    }
  }

  /** The first publish of a content under a key saves the publisher's bytes as they are then. */
  lemma FirstPublishSaves(a: Private, sid: nat, key: string, hash: ContentHash)
    requires sid in a.seqs && a.seqs[sid].blocks != [] && a.seqs[sid].key != key
    requires Saved(a, key, hash(a.seqs[sid].blocks)).None?
    ensures Saved(PPublish(a, sid, key, hash), key, hash(a.seqs[sid].blocks)) ==
            Some(SavedPrefix(hash(a.seqs[sid].blocks), |a.seqs[sid].blocks[0]| * a.tpb, 1, Concat(a.seqs[sid].blocks)))
  {
    var h := hash(a.seqs[sid].blocks);
    var rs := if key in a.prefixes then a.prefixes[key] else [];
    FindLast(rs, SavedPrefix(h, |a.seqs[sid].blocks[0]| * a.tpb, 1, Concat(a.seqs[sid].blocks)));
  }

  lemma {:induction false} FindLast(rs: seq<SavedPrefix>, r: SavedPrefix)
    requires PFind(rs, r.hash).None?
    ensures PFind(rs + [r], r.hash) == Some(|rs|)
  {
    if rs != [] {
      assert (rs + [r])[1..] == rs[1..] + [r];
      FindLast(rs[1..], r);
    }
  }

  /**
    Attaching after any run in which the record lived gives an empty sequence exactly the first
    publisher's bytes at publish time, in every layer, whatever was written meanwhile.
   */
  lemma AttachReadsPublishedBytes(st: Store, sid: nat, key: string, hash: ContentHash, ops: seq<Op>, sid2: nat)
    requires Inv(st) && ValidPool(st.pool) && Disciplined(st, Publish(sid, key))
    requires Step(st, Publish(sid, key), hash).1 > 0 && sid in st.seqs && st.seqs[sid].key != key
    requires Saved(Abs(st), key, hash(Blocks(st.pool, st.seqs[sid].tables))).None?
    requires var st1 := Step(st, Publish(sid, key), hash).0;
             && DisciplinedRun(st1, ops, hash)
             && LiveThroughout(st1, ops, hash, key, hash(Blocks(st.pool, st.seqs[sid].tables)))
             && Step(Run(st1, ops, hash), Attach(sid2, key), hash).1 > 0
    ensures var st3 := Step(Run(Step(st, Publish(sid, key), hash).0, ops, hash), Attach(sid2, key), hash).0;
            && sid2 in st3.seqs
            && Blocks(st3.pool, st3.seqs[sid2].tables) == Blocks(st.pool, st.seqs[sid].tables)
  {
    hide *;
    var h := hash(Blocks(st.pool, st.seqs[sid].tables));
    var st1 := Step(st, Publish(sid, key), hash).0;
    PublisherSaves(st, sid, key, hash);
    SavedFirstShows(Abs(st1), key, h, Abs(st).tpb, Blocks(st.pool, st.seqs[sid].tables));
    StepRefinesPrivateCopies(st, Publish(sid, key), hash);
    RunKeepsLayout(st, Publish(sid, key), hash);
    var st2 := Run(st1, ops, hash);
    PublishedPrefixesAreFrozen(st1, ops, hash, key, h);
    SharingIsInvisible(st1, ops, hash);
    RunKeepsLayoutAll(st1, ops, hash);
    AttachStep(st2, sid2, key, hash);
    var (st3, tokens) := Step(st2, Attach(sid2, key), hash);
    AbsShows(st3, sid2, key);
    BytesMatch(Saved(Abs(st1), key, h).value, Saved(Abs(st2), key, h).value);
    BlocksOf(st3.pool, st3.seqs[sid2]);
    AttachEqualsSaved(Abs(st), Abs(st2), Abs(st3), sid2, key, h, tokens,
                      Blocks(st.pool, st.seqs[sid].tables), Blocks(st3.pool, st3.seqs[sid2].tables));
  }

  lemma BytesMatch(r: SavedPrefix, r': SavedPrefix)
    requires SameBytes(r, r')
    ensures r'.blocks == r.blocks && r'.tokens == r.tokens
  {}

  lemma BlocksOf(p: Pool, s: Sequence)
    ensures AbsSeq(p, s).blocks == Blocks(p, s.tables)
  {}

  lemma AttachStep(st: Store, sid: nat, key: string, hash: ContentHash)
    requires Inv(st) && ValidPool(st.pool) && Step(st, Attach(sid, key), hash).1 > 0
    ensures var (st', tokens) := Step(st, Attach(sid, key), hash);
            sid in st'.seqs && PAttaches(Abs(st), sid, key, tokens, Abs(st'))
  {
    hide Inv, Abs, PAttaches;
    StepRefinesPrivateCopies(st, Attach(sid, key), hash);
    AbsShows(Step(st, Attach(sid, key), hash).0, sid, key);
  }

  /** The record under this hash is a new one over these blocks. */
  ghost predicate SavedFirst(a: Private, key: string, h: nat, tpb: nat, blocks: seq<seq<Frame>>) {
    blocks != [] && Saved(a, key, h) == Some(SavedPrefix(h, |blocks[0]| * tpb, 1, Concat(blocks)))
  }

  lemma SavedFirstShows(a: Private, key: string, h: nat, tpb: nat, blocks: seq<seq<Frame>>)
    requires SavedFirst(a, key, h, tpb, blocks)
    ensures blocks != [] && Saved(a, key, h) == Some(SavedPrefix(h, |blocks[0]| * tpb, 1, Concat(blocks)))
  {}

  lemma PublisherSaves(st: Store, sid: nat, key: string, hash: ContentHash)
    requires Inv(st) && ValidPool(st.pool) && Disciplined(st, Publish(sid, key))
    requires Step(st, Publish(sid, key), hash).1 > 0 && sid in st.seqs && st.seqs[sid].key != key
    requires Saved(Abs(st), key, hash(Blocks(st.pool, st.seqs[sid].tables))).None?
    ensures var blocks := Blocks(st.pool, st.seqs[sid].tables);
            && |blocks| == Abs(st).tables && blocks != [] && Abs(st).tpb > 0
            && forall l :: 0 <= l < |blocks| ==> |blocks[l]| == |blocks[0]|
    ensures var blocks := Blocks(st.pool, st.seqs[sid].tables);
            SavedFirst(Abs(Step(st, Publish(sid, key), hash).0), key, hash(blocks), Abs(st).tpb, blocks)
  {
    hide Inv, AbsSeqs, AbsPrefixes, Step, Blocks;
    StepRefinesPrivateCopies(st, Publish(sid, key), hash);
    AbsShows(st, sid, key);
    PublisherShape(st, sid, key, hash);
    var (st1, result) := Step(st, Publish(sid, key), hash);
    assert Abs(st).tpb == TokensPerBlock(st.pool) && Abs(st).tables == TableCount(st.pool);
    PublishStepIs(Abs(st), sid, key, result, Abs(st1), hash);
    FirstPublishSaves(Abs(st), sid, key, hash);
  }

  lemma BlocksShape(p: Pool, tables: seq<Table>)
    requires TablesOk(p, tables)
    ensures var blocks := Blocks(p, tables);
            && |blocks| == TableCount(p) && forall l :: 0 <= l < |blocks| ==> |blocks[l]| == |blocks[0]|
  {
    hide TableCount, Content, TableOk, NoRepeats;
    assert forall l :: 0 <= l < |tables| ==> |tables[l]| == |tables[0]|;
  }

  lemma PublisherShape(st: Store, sid: nat, key: string, hash: ContentHash)
    requires Inv(st) && ValidPool(st.pool) && sid in st.seqs && Step(st, Publish(sid, key), hash).1 > 0
    ensures var blocks := Blocks(st.pool, st.seqs[sid].tables);
            && |blocks| == TableCount(st.pool) && blocks != [] && TokensPerBlock(st.pool) > 0
            && forall l :: 0 <= l < |blocks| ==> |blocks[l]| == |blocks[0]|
  {
    hide *;
    InvParts(st);
    StepIs(st, Publish(sid, key), hash);
    FlagIs(PublishPrefix(st, sid, key, hash));
    PublishIs(st, sid, key, hash);
    TablesOkOf(st, sid);
    FirstTable(st, sid);
    BlocksShape(st.pool, st.seqs[sid].tables);
    SizePositive(st.pool);
  }

  lemma SizePositive(p: Pool)
    ensures TableCount(p) > 0
  {}

  lemma AttachEqualsSaved(
    a0: Private, a2: Private, a3: Private, sid2: nat, key: string, h: nat, tokens: nat,
    a: seq<seq<Frame>>, b: seq<seq<Frame>>)
    requires PAttaches(a2, sid2, key, tokens, a3) && b == a3.seqs[sid2].blocks
    requires a != [] && |a| == a0.tables && a2.tables == a0.tables && a2.tpb == a0.tpb && a0.tpb > 0
    requires forall l :: 0 <= l < |a| ==> |a[l]| == |a[0]|
    requires Saved(a2, key, h).Some? && Saved(a2, key, h).value.blocks == Concat(a)
    requires Saved(a2, key, h).value.tokens == |a[0]| * a0.tpb
    ensures b == a
  {
    var n := |a[0]|;
    forall l | 0 <= l < |b|
      ensures |b[l]| == n
    {
      assert |b[l]| * a0.tpb == n * a0.tpb;
      DivOfMultiple(n, a0.tpb);
      DivOfMultiple(|b[l]|, a0.tpb);
    }
    ConcatIsInjective(a, b, n);
  }

  lemma RunKeepsLayout(st: Store, op: Op, hash: ContentHash)
    requires Inv(st) && ValidPool(st.pool) && Disciplined(st, op)
    ensures var st' := Step(st, op, hash).0;
            Abs(st').tables == Abs(st).tables && Abs(st').tpb == Abs(st).tpb
  {
    hide Inv, Step, Abs;
    StepRefinesPrivateCopies(st, op, hash);
    var (st', result) := Step(st, op, hash);
    PrivateStepKeepsLayout(Abs(st), op, result, Abs(st'), hash);
  }

  lemma PrivateStepKeepsLayout(a: Private, op: Op, result: nat, a': Private, hash: ContentHash)
    requires PrivateStep(a, op, result, a', hash)
    ensures a'.tables == a.tables && a'.tpb == a.tpb
  {
    if op.ReleaseWhole? {
      var ids :| Enumerates(a, op.request, ids) && a' == PReleaseEach(a, ids);
      ReleaseEachKeepsLayout(a, ids);
    }
  }

  lemma {:induction false} ReleaseEachKeepsLayout(a: Private, ids: seq<nat>)
    ensures PReleaseEach(a, ids).tables == a.tables && PReleaseEach(a, ids).tpb == a.tpb
    decreases |ids|
  {
    if ids != [] {
      ReleaseEachKeepsLayout(PRelease(a, ids[0]), ids[1..]);
    }
  }

  lemma {:induction false} RunKeepsLayoutAll(st: Store, ops: seq<Op>, hash: ContentHash)
    requires Inv(st) && ValidPool(st.pool) && DisciplinedRun(st, ops, hash)
    ensures Abs(Run(st, ops, hash)).tables == Abs(st).tables && Abs(Run(st, ops, hash)).tpb == Abs(st).tpb
    decreases |ops|
  {
    if ops != [] {
      RunKeepsLayout(st, ops[0], hash);
      StepRefinesPrivateCopies(st, ops[0], hash);
      var st1 := Step(st, ops[0], hash).0;
      hide Inv, Abs, Step, PrivateStep, Disciplined;
      RunKeepsLayoutAll(st1, ops[1..], hash);
    }
  }
}
