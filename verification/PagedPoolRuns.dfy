/**
  Runs of the pool's own calls in any order: forks, growth, frames resolved for a write and launch
  inputs.  The memo tables agree with the page table throughout, and a table holds exactly the
  blocks that the most tokens ever asked for need.
 */
module PagedPoolRuns {
  import opened Wrappers
  import opened Arithmetic
  import opened FramePool
  import opened CacheStore
  import opened CacheWrites
  import opened PagedPoolModel
  import opened PagedPoolMemos

  datatype PoolOp =
    | Branch(parent: nat, child: nat)
    | Ensure(sid: nat, total: nat)
    | Resolve(sid: nat, token: nat)
    | Inputs(sid: nat, length: nat)

  /** Growth and launches are asked for live branches; the spacer is the pool's own. */
  predicate Live(s: PoolState, cfg: PoolConfig, op: PoolOp) {
    op.Ensure? || op.Inputs? ==> op.sid in s.store.seqs && Some(op.sid) != cfg.spacer
  }

  /** One call: the state it leaves, and whether its assertions held. */
  function Call(s: PoolState, cfg: PoolConfig, op: PoolOp): (r: (PoolState, bool))
    requires ValidPool(s.store.pool) && cfg.tpb > 0
    ensures ValidPool(r.0.store.pool)
  {
    match op
    case Branch(parent, child) => ForkPool(s, parent, child)
    case Ensure(sid, total) => EnsureCapacity(s, cfg, sid, total)
    case Resolve(sid, token) =>
      var (s', frame) := WritableFrame(s, cfg, sid, token);
      (s', frame.Some?)
    case Inputs(sid, length) => (DecodeInputs(s, cfg, sid, length).0, true)
  }

  /** The frames for this growth are there. */
  predicate Fits(s: PoolState, cfg: PoolConfig, sid: nat, total: nat)
    requires cfg.tpb > 0
  {
    var have, need := |BlockTableOf(s.store, sid)|, CeilDiv(total, cfg.tpb);
    (Max(have, need) - have) * PerRound(cfg) <= |s.store.pool.free|
  }

  /** The one call that can leave a memo stale: a growth that takes some blocks, but not all it needs. */
  predicate KeepsMemos(s: PoolState, cfg: PoolConfig, op: PoolOp)
    requires cfg.tpb > 0
  {
    op.Ensure? ==> Fits(s, cfg, op.sid, op.total) || op.sid !in s.tableLen || s.store.pool.free == []
  }

  /** Every call keeps the pool's invariant, and the memos agree afterwards exactly under that guard. */
  lemma CallKeepsMemosIff(s: PoolState, cfg: PoolConfig, op: PoolOp)
    requires cfg.tpb > 0 && PoolInv(s, cfg) && MemosAgree(s, cfg) && Live(s, cfg, op)
    ensures ValidPool(s.store.pool)
    ensures var (s', ok) := Call(s, cfg, op);
            && PoolInv(s', cfg)
            && (MemosAgree(s', cfg) <==> KeepsMemos(s, cfg, op))
            && (ok ==> KeepsMemos(s, cfg, op))
  {
    hide *;
    PoolShows(s, cfg);
    CallIs(s, cfg, op);
    GuardIs(s, cfg, op);
    match op {
      case Branch(parent, child) => ForkIs(s, cfg, parent, child);
      case Ensure(sid, total) => EnsureCapacityIs(s, cfg, sid, total);
      case Resolve(sid, token) => WritableFrameIs(s, cfg, sid, token);
      case Inputs(sid, length) =>
        DecodeInputsAreCurrent(s, cfg, sid, length);
        PoolIgnoresMemos(s, DecodeInputs(s, cfg, sid, length).0, cfg);
    }
  }

  lemma CallIs(s: PoolState, cfg: PoolConfig, op: PoolOp)
    requires ValidPool(s.store.pool) && cfg.tpb > 0
    ensures op.Branch? ==> Call(s, cfg, op) == ForkPool(s, op.parent, op.child)
    ensures op.Ensure? ==> Call(s, cfg, op) == EnsureCapacity(s, cfg, op.sid, op.total)
    ensures op.Resolve? ==>
              var (s', frame) := WritableFrame(s, cfg, op.sid, op.token);
              Call(s, cfg, op) == (s', frame.Some?)
    ensures op.Inputs? ==> Call(s, cfg, op) == (DecodeInputs(s, cfg, op.sid, op.length).0, true)
  {
    hide ForkPool, EnsureCapacity, WritableFrame, DecodeInputs, ValidPool;
  }

  lemma GuardIs(s: PoolState, cfg: PoolConfig, op: PoolOp)
    requires cfg.tpb > 0
    ensures Live(s, cfg, op) <==> (op.Ensure? || op.Inputs? ==> op.sid in s.store.seqs && Some(op.sid) != cfg.spacer)
    ensures !op.Ensure? ==> KeepsMemos(s, cfg, op)
    ensures op.Ensure? ==>
              var have, need := |BlockTableOf(s.store, op.sid)|, CeilDiv(op.total, cfg.tpb);
              KeepsMemos(s, cfg, op) <==>
              (Max(have, need) - have) * PerRound(cfg) <= |s.store.pool.free| || op.sid !in s.tableLen || s.store.pool.free == []
  {
    hide BlockTableOf, CeilDiv, PerRound;
  }

  // ---- Runs -------------------------------------------------------------------------------------------

  function Run(s: PoolState, cfg: PoolConfig, ops: seq<PoolOp>): (r: PoolState)
    requires ValidPool(s.store.pool) && cfg.tpb > 0
    ensures ValidPool(r.store.pool)
    decreases |ops|
  {
    if ops == [] then s else Run(Call(s, cfg, ops[0]).0, cfg, ops[1..])
  }

  /** Calls may fail, so long as no failing growth leaves part of its blocks behind a remembered length. */
  ghost predicate Steady(s: PoolState, cfg: PoolConfig, ops: seq<PoolOp>)
    requires ValidPool(s.store.pool) && cfg.tpb > 0
    decreases |ops|
  {
    ops != [] ==> Live(s, cfg, ops[0]) && KeepsMemos(s, cfg, ops[0]) && Steady(Call(s, cfg, ops[0]).0, cfg, ops[1..])
  }

  /** Every assertion in the run held. */
  ghost predicate Successful(s: PoolState, cfg: PoolConfig, ops: seq<PoolOp>)
    requires ValidPool(s.store.pool) && cfg.tpb > 0
    decreases |ops|
  {
    ops != [] ==> Live(s, cfg, ops[0]) && Call(s, cfg, ops[0]).1 && Successful(Call(s, cfg, ops[0]).0, cfg, ops[1..])
  }

  lemma {:induction false} SuccessfulIsSteady(s: PoolState, cfg: PoolConfig, ops: seq<PoolOp>)
    requires cfg.tpb > 0 && PoolInv(s, cfg) && MemosAgree(s, cfg)
    requires ValidPool(s.store.pool) && Successful(s, cfg, ops)
    ensures Steady(s, cfg, ops)
    decreases |ops|
  {
    hide PoolInv, MemosAgree, ValidPool, Call, Live, KeepsMemos;
    if ops != [] {
      CallKeepsMemosIff(s, cfg, ops[0]);
      SuccessfulIsSteady(Call(s, cfg, ops[0]).0, cfg, ops[1..]);
    }
  }

  /** Main result on memos: after every steady run they agree with the page table. */
  lemma {:induction false} MemosAgreeOverRuns(s: PoolState, cfg: PoolConfig, ops: seq<PoolOp>)
    requires cfg.tpb > 0 && PoolInv(s, cfg) && MemosAgree(s, cfg)
    requires ValidPool(s.store.pool) && Steady(s, cfg, ops)
    ensures PoolInv(Run(s, cfg, ops), cfg) && MemosAgree(Run(s, cfg, ops), cfg)
    decreases |ops|
  {
    hide PoolInv, MemosAgree, ValidPool, Call, Live, KeepsMemos;
    if ops != [] {
      CallKeepsMemosIff(s, cfg, ops[0]);
      MemosAgreeOverRuns(Call(s, cfg, ops[0]).0, cfg, ops[1..]);
    }
  }

  /**
    What that means to a caller after any steady run: a launch gets the current block table as far
    as its length reaches, and growth starts from the table's true length.
   */
  lemma MemosAnswerForTheTable(s: PoolState, cfg: PoolConfig, ops: seq<PoolOp>, sid: nat, length: nat)
    requires cfg.tpb > 0 && PoolInv(s, cfg) && MemosAgree(s, cfg)
    requires ValidPool(s.store.pool) && Steady(s, cfg, ops)
    requires sid in Run(s, cfg, ops).store.seqs && Some(sid) != cfg.spacer
    ensures var s' := Run(s, cfg, ops);
            var (_, table, context) := DecodeInputs(s', cfg, sid, length);
            var current := BlockTableOf(s'.store, sid);
            && table == current[..Min(CeilDiv(length, cfg.tpb), |current|)] && context == length
            && Have(s', sid) == |current|
  {
    hide *;
    MemosAgreeOverRuns(s, cfg, ops);
    var s' := Run(s, cfg, ops);
    DecodeInputsAreCurrent(s', cfg, sid, length);
    AllButOne(s', cfg, sid);
    HaveIs(s', sid);
  }

  // ---- How many blocks a table holds ----------------------------------------------------------------------

  /** The most tokens a run asked room for, for one branch. */
  function MostTokens(ops: seq<PoolOp>, sid: nat): nat {
    if ops == [] then 0
    else Max(if ops[0].Ensure? && ops[0].sid == sid then ops[0].total else 0, MostTokens(ops[1..], sid))
  }

  lemma CeilDivOfMax(a: nat, b: nat, k: nat)
    requires k > 0
    ensures CeilDiv(Max(a, b), k) == Max(CeilDiv(a, k), CeilDiv(b, k))
    ensures CeilDiv(0, k) == 0
  {
    CeilDivMonotone(a, Max(a, b), k);
    CeilDivMonotone(b, Max(a, b), k);
    CeilDivIsLeastCover(0, k, 0);
  }

  /** One successful call changes a table's length only by growing it to what was asked for. */
  lemma CallGrows(s: PoolState, cfg: PoolConfig, op: PoolOp, sid: nat)
    requires cfg.tpb > 0 && PoolInv(s, cfg) && MemosAgree(s, cfg) && Live(s, cfg, op)
    requires ValidPool(s.store.pool) && Call(s, cfg, op).1 && sid in s.store.seqs && Some(sid) != cfg.spacer
    ensures var s' := Call(s, cfg, op).0;
            && sid in s'.store.seqs
            && |BlockTableOf(s'.store, sid)|
            == Max(|BlockTableOf(s.store, sid)|, if op.Ensure? && op.sid == sid then CeilDiv(op.total, cfg.tpb) else 0)
  {
    hide *;
    CallIs(s, cfg, op);
    GuardIs(s, cfg, op);
    var s' := Call(s, cfg, op).0;
    MaxIs(|BlockTableOf(s.store, sid)|, 0);
    match op {
      case Branch(parent, child) =>
        ForkIs(s, cfg, parent, child);
        SameSequenceSameTable(s.store, s'.store, sid);
      case Ensure(k, total) =>
        EnsureCapacityIs(s, cfg, k, total);
        MaxIs(|BlockTableOf(s.store, k)|, CeilDiv(total, cfg.tpb));
        var grown := Max(|BlockTableOf(s.store, k)|, CeilDiv(total, cfg.tpb)) - |BlockTableOf(s.store, k)|;
        GrewLayout(s.store, s'.store, k, grown, cfg.spacer);
        if k != sid {
          GrewOthers(s.store, s'.store, k, grown, cfg.spacer, sid);
        }
      case Resolve(k, token) =>
        WritableFrameIs(s, cfg, k, token);
        if !Remembers(s, k, token) {
          ResolvedMeans(s, s', cfg, k, token, WritableFrame(s, cfg, k, token).1);
          RemappedShows(s.store, s'.store, k, token / cfg.tpb, WritableFrame(s, cfg, k, token).1.value);
        }
      case Inputs(k, length) => SameSequenceSameTable(s.store, s'.store, sid);
    }
  }

  lemma SameSequenceSameTable(st: Store, st': Store, sid: nat)
    ensures sid in st.seqs && sid in st'.seqs && st'.seqs[sid] == st.seqs[sid] ==> BlockTableOf(st', sid) == BlockTableOf(st, sid)
  {}

  lemma GrewOthers(st: Store, st': Store, sid: nat, n: nat, spacer: Option<nat>, k: nat)
    requires Grew(st, st', sid, n, spacer)
    requires k in st.seqs && k != sid && Some(k) != spacer
    ensures k in st'.seqs && BlockTableOf(st', k) == BlockTableOf(st, k)
  {
    hide Reading, SameLayout;
  }

  /**
    Main result on growth: over every successful run a table, however it started, ends with the
    blocks for the most tokens asked for, and never loses any.
   */
  lemma {:induction false} TableHoldsMostTokens(s: PoolState, cfg: PoolConfig, ops: seq<PoolOp>, sid: nat)
    requires cfg.tpb > 0 && PoolInv(s, cfg) && MemosAgree(s, cfg)
    requires ValidPool(s.store.pool) && Successful(s, cfg, ops) && sid in s.store.seqs && Some(sid) != cfg.spacer
    ensures sid in Run(s, cfg, ops).store.seqs
    ensures |BlockTableOf(Run(s, cfg, ops).store, sid)| == Max(|BlockTableOf(s.store, sid)|, CeilDiv(MostTokens(ops, sid), cfg.tpb))
    decreases |ops|
  {
    hide PoolInv, MemosAgree, ValidPool, Call, Live, KeepsMemos, BlockTableOf, CeilDiv;
    CeilDivOfMax(0, 0, cfg.tpb);
    if ops != [] {
      CallKeepsMemosIff(s, cfg, ops[0]);
      CallGrows(s, cfg, ops[0], sid);
      TableHoldsMostTokens(Call(s, cfg, ops[0]).0, cfg, ops[1..], sid);
      CeilDivOfMax(if ops[0].Ensure? && ops[0].sid == sid then ops[0].total else 0, MostTokens(ops[1..], sid), cfg.tpb);
    }
  }

  /** A table grown from empty holds exactly the blocks its tokens need. */
  lemma GrownFromEmpty(s: PoolState, cfg: PoolConfig, ops: seq<PoolOp>, sid: nat)
    requires cfg.tpb > 0 && PoolInv(s, cfg) && MemosAgree(s, cfg)
    requires ValidPool(s.store.pool) && Successful(s, cfg, ops) && sid in s.store.seqs && Some(sid) != cfg.spacer
    requires BlockTableOf(s.store, sid) == []
    ensures |BlockTableOf(Run(s, cfg, ops).store, sid)| == CeilDiv(MostTokens(ops, sid), cfg.tpb)
    ensures Have(Run(s, cfg, ops), sid) == CeilDiv(MostTokens(ops, sid), cfg.tpb)
  {
    hide *;
    TableHoldsMostTokens(s, cfg, ops, sid);
    SuccessfulIsSteady(s, cfg, ops);
    MemosAnswerForTheTable(s, cfg, ops, sid, 0);
    MaxIs(|BlockTableOf(s.store, sid)|, CeilDiv(MostTokens(ops, sid), cfg.tpb));
  }

  // ---- A memo that outlives a fork ---------------------------------------------------------------------------

  lemma RunOfOne(s: PoolState, cfg: PoolConfig, op: PoolOp)
    requires ValidPool(s.store.pool) && cfg.tpb > 0
    ensures Run(s, cfg, [op]) == Call(s, cfg, op).0
    ensures Live(s, cfg, op) && Call(s, cfg, op).1 ==> Successful(s, cfg, [op])
  {
    hide Call, ValidPool, Live;
    assert Run(Call(s, cfg, op).0, cfg, []) == Call(s, cfg, op).0;
  }

  lemma RunOfMore(s: PoolState, cfg: PoolConfig, op: PoolOp, ops: seq<PoolOp>)
    requires ValidPool(s.store.pool) && cfg.tpb > 0
    ensures Run(s, cfg, [op] + ops) == Run(Call(s, cfg, op).0, cfg, ops)
    ensures Live(s, cfg, op) && Call(s, cfg, op).1 && Successful(Call(s, cfg, op).0, cfg, ops) ==> Successful(s, cfg, [op] + ops)
  {
    hide Call, ValidPool, Live;
    assert ([op] + ops)[1..] == ops;
  }

  /**
    Ask for a token's frame, fork, ask for the same token: the answer is the frame the child now
    maps too.  By StoreIsRead a store there is read by the child.
   */
  lemma ForkThenSameToken(s: PoolState, cfg: PoolConfig, parent: nat, child: nat, token: nat)
    requires cfg.tpb > 0 && PoolInv(s, cfg) && MemosAgree(s, cfg)
    requires Writable(s.store, parent, token, 0) && !Remembers(s, parent, token) && child !in s.store.seqs
    ensures ValidPool(s.store.pool)
    ensures var ops := [Resolve(parent, token), Branch(parent, child)];
            var s' := Run(s, cfg, ops);
            Successful(s, cfg, ops) && s'.writable.Some? && AnswersStale(s', cfg, parent, token, s'.writable.value.2, child)
  {
    hide *;
    PoolShows(s, cfg);
    WritableFrameIs(s, cfg, parent, token);
    var (s1, frame) := WritableFrame(s, cfg, parent, token);
    ResolvedMeans(s, s1, cfg, parent, token, frame);
    RemappedShows(s.store, s1.store, parent, token / cfg.tpb, frame.value);
    ForkIs(s1, cfg, parent, child);
    var s2 := ForkPool(s1, parent, child).0;
    CallIs(s, cfg, Resolve(parent, token));
    GuardIs(s, cfg, Resolve(parent, token));
    CallIs(s1, cfg, Branch(parent, child));
    GuardIs(s1, cfg, Branch(parent, child));
    RunOfOne(s1, cfg, Branch(parent, child));
    RunOfMore(s, cfg, Resolve(parent, token), [Branch(parent, child)]);
    assert [Resolve(parent, token)] + [Branch(parent, child)] == [Resolve(parent, token), Branch(parent, child)];
    RemembersMeans(s2, parent, token);
    WritableFrameIs(s2, cfg, parent, token);
    SharedIsNotOwn(s2, cfg, parent, child, token / cfg.tpb, frame.value);
    StaleFrom(s2, cfg, parent, token, frame.value, child);
  }
}
