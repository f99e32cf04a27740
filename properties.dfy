/**
 * Properties of the handlers that relate several events: delivery order of
 * a transaction and a block does not matter, a repeated `finalized` event is
 * a no-op, finalizing a block no transaction was settled in is a no-op, the
 * re-finalization behaviour of the `finalizedIn` guard, growth of every
 * collection, and end-to-end scenarios.
 */
module SettlementProperties {
  import opened Wrappers
  import opened Collaborators
  import opened Settlement
  import opened SettlementInvariants

  /** Nothing is removed: records keep their place and hash, seen sets, the ledger and the trace only grow. */
  ghost predicate Grows(s: Snapshot, s': Snapshot) {
    && |s.txQueue| <= |s'.txQueue|
    && (forall i :: 0 <= i < |s.txQueue| ==>
          s'.txQueue[i].hash == s.txQueue[i].hash && s.txQueue[i].seenInBlocks <= s'.txQueue[i].seenInBlocks)
    && s.seenBlocks <= s'.seenBlocks
    && s.trace <= s'.trace
  }

  /** No handler removes anything from any collection. */
  lemma NextGrows(s: Snapshot, e: Event, api: ChainApi)
    ensures Grows(s, Next(s, e, api))
  {
    match e
    case NewTransaction(t) =>
      var q := Register(s.txQueue, t);
      assert forall i :: 0 <= i < |s.txQueue| ==> q[i] == s.txQueue[i];
    case NewBlock(b) =>
      var s0 := Snapshot(s.txQueue, s.seenBlocks + [b], s.trace);
      assert OnNewBlock(s, b, api) == SettleSweep(s0, |s.txQueue|, b, api);
    case Finalized(b) =>
      assert OnFinalized(s, b, api) == FinalizeSweep(s, |s.txQueue|, b, api);
  }

  lemma FoundInAppend(bs: seq<Hash>, b: Hash, t: Hash, api: ChainApi)
    ensures FoundIn(bs + [b], t, api) == FoundIn(bs, t, api) + if Found(api, b, t) then {b} else {}
  {
  }

  /** Registering after a new block finds the same positions, holding the settled records. */
  lemma RegisterAfterNewBlock(s: Snapshot, t: Hash, b: Hash, api: ChainApi)
    ensures var reg := Register(s.txQueue, t);
            var reg2 := Register(OnNewBlock(s, b, api).txQueue, t);
            && Hashes(reg2) == Hashes(reg)
            && |reg2| == |reg|
            && forall i :: 0 <= i < |reg| ==>
                 reg2[i] == if i < |s.txQueue| then SettleStep(reg[i], b, api).record else reg[i]
  {
    var q := s.txQueue;
    var a2 := OnNewBlock(s, b, api);
    if t !in Hashes(q) {
      assert Hashes(Register(a2.txQueue, t)) == Hashes(a2.txQueue) + [t];
      assert Hashes(Register(q, t)) == Hashes(q) + [t];
    }
  }

  /**
   * Settling a pair a second time, once the first attempt was answered, makes
   * no query, no report and no change, whatever the chain answers then.
   */
  lemma SettleTxTwice(s: Snapshot, t: Hash, b: Hash, api: ChainApi, api2: ChainApi)
    requires Found(api, b, t)
    ensures SettleTx(SettleTx(s, t, b, api), t, b, api2) == SettleTx(s, t, b, api)
  {
    var q := Register(s.txQueue, t);
    var k := IndexOf(Hashes(q), t).value;
    var s1 := SettleTx(s, t, b, api);
    assert t in Hashes(s1.txQueue);
    assert Register(s1.txQueue, t) == s1.txQueue;
    assert IndexOf(Hashes(s1.txQueue), t).value == k;
    assert b in s1.txQueue[k].seenInBlocks;
  }

  /** Delivering `newTransaction(t)` and `newBlock(b)` in either order ends in the same records and ledger. */
  lemma CrossOrderQueues(s: Snapshot, t: Hash, b: Hash, api: ChainApi)
    ensures var s1 := OnNewBlock(OnNewTx(s, t, api), b, api);
            var s2 := OnNewTx(OnNewBlock(s, b, api), t, api);
            s1.txQueue == s2.txQueue && s1.seenBlocks == s2.seenBlocks
  {
    var s1 := OnNewBlock(OnNewTx(s, t, api), b, api);
    var s2 := OnNewTx(OnNewBlock(s, b, api), t, api);
    var n := |Register(s.txQueue, t)|;
    CrossOrderShape(s, t, b, api);
    forall i | 0 <= i < n ensures s1.txQueue[i] == s2.txQueue[i] {
      CrossOrderAt(s, t, b, api, i);
    }
  }

  /** Either order ends with the same ledger and the same number of records. */
  lemma CrossOrderShape(s: Snapshot, t: Hash, b: Hash, api: ChainApi)
    ensures var s1 := OnNewBlock(OnNewTx(s, t, api), b, api);
            var s2 := OnNewTx(OnNewBlock(s, b, api), t, api);
            && |s1.txQueue| == |s2.txQueue| == |Register(s.txQueue, t)|
            && s1.seenBlocks == s2.seenBlocks
  {
    RegisterAfterNewBlock(s, t, b, api);
  }

  /** Settling a record in `b` commutes with settling it across a ledger. */
  lemma SettleCommutes(r: TxRecord, bs: seq<Hash>, b: Hash, api: ChainApi)
    ensures var after := SettleStep(r, b, api).record;
      SettleStep(r.(seenInBlocks := r.seenInBlocks + FoundIn(bs, r.hash, api)), b, api).record
        == after.(seenInBlocks := after.seenInBlocks + FoundIn(bs + [b], r.hash, api))
  {
    FoundInAppend(bs, b, r.hash, api);
  }

  /** A record other than the new transaction's has had the one settle step in `b` in either order. */
  lemma CrossOrderOther(s: Snapshot, t: Hash, b: Hash, api: ChainApi, i: nat)
    requires i < |Register(s.txQueue, t)| && i != IndexOf(Hashes(Register(s.txQueue, t)), t).value
    ensures var s1 := OnNewBlock(OnNewTx(s, t, api), b, api);
            var s2 := OnNewTx(OnNewBlock(s, b, api), t, api);
            i < |s1.txQueue| && i < |s2.txQueue| && s1.txQueue[i] == s2.txQueue[i]
  {
    var reg := Register(s.txQueue, t);
    var k := IndexOf(Hashes(reg), t).value;
    RegisterAfterNewBlock(s, t, b, api);
    assert i < |s.txQueue| by {
      if t !in Hashes(s.txQueue) {
        assert Hashes(reg) == Hashes(s.txQueue) + [t];
        assert k == |s.txQueue| by {
          assert Hashes(reg)[..|s.txQueue|] == Hashes(s.txQueue);
        }
      }
    }
  }

  /** The new transaction's record gains the same blocks in either order. */
  lemma CrossOrderNew(s: Snapshot, t: Hash, b: Hash, api: ChainApi)
    ensures var k := IndexOf(Hashes(Register(s.txQueue, t)), t).value;
            var s1 := OnNewBlock(OnNewTx(s, t, api), b, api);
            var s2 := OnNewTx(OnNewBlock(s, b, api), t, api);
            k < |s1.txQueue| && k < |s2.txQueue| && s1.txQueue[k] == s2.txQueue[k]
  {
    var reg := Register(s.txQueue, t);
    var k := IndexOf(Hashes(reg), t).value;
    RegisterAfterNewBlock(s, t, b, api);
    var r := reg[k];
    assert r.hash == t by { assert Hashes(reg)[k] == t; }
    var mid := r.(seenInBlocks := r.seenInBlocks + FoundIn(s.seenBlocks, t, api));
    var start := Register(OnNewBlock(s, b, api).txQueue, t)[k];
    CrossOrderNewSides(s, t, b, api);
    SettleCommutes(r, s.seenBlocks, b, api);
    if k >= |s.txQueue| {
      assert r == NewRecord(t) && start == r;
      FoundInAppend(s.seenBlocks, b, t, api);
    }
  }

  /** What each order does to the new transaction's record, one handler at a time. */
  lemma CrossOrderNewSides(s: Snapshot, t: Hash, b: Hash, api: ChainApi)
    ensures var reg := Register(s.txQueue, t);
            var k := IndexOf(Hashes(reg), t).value;
            var r := reg[k];
            var a2 := OnNewBlock(s, b, api);
            var start := Register(a2.txQueue, t)[k];
            var s1 := OnNewBlock(OnNewTx(s, t, api), b, api);
            var s2 := OnNewTx(a2, t, api);
            && k < |s1.txQueue| && k < |s2.txQueue|
            && s1.txQueue[k] == SettleStep(r.(seenInBlocks := r.seenInBlocks + FoundIn(s.seenBlocks, t, api)), b, api).record
            && s2.txQueue[k] == start.(seenInBlocks := start.seenInBlocks + FoundIn(s.seenBlocks + [b], t, api))
            && start == if k < |s.txQueue| then SettleStep(r, b, api).record else r
  {
    RegisterAfterNewBlock(s, t, b, api);
  }

  /** Each record ends the same in either order. */
  lemma CrossOrderAt(s: Snapshot, t: Hash, b: Hash, api: ChainApi, i: nat)
    requires i < |Register(s.txQueue, t)|
    ensures var s1 := OnNewBlock(OnNewTx(s, t, api), b, api);
            var s2 := OnNewTx(OnNewBlock(s, b, api), t, api);
            i < |s1.txQueue| && i < |s2.txQueue| && s1.txQueue[i] == s2.txQueue[i]
  {
    if i == IndexOf(Hashes(Register(s.txQueue, t)), t).value {
      CrossOrderNew(s, t, b, api);
    } else {
      CrossOrderOther(s, t, b, api, i);
    }
  }

  /**
   * Delivering `newTransaction(t)` then `newBlock(b)`, or the other way round,
   * with the API answering alike, ends in the same records and ledger, and
   * the same (transaction, block) pairs reported settled.
   */
  lemma CrossOrderPairs(s: Snapshot, t: Hash, b: Hash, api: ChainApi)
    requires Inv(s)
    ensures var s1 := OnNewBlock(OnNewTx(s, t, api), b, api);
            var s2 := OnNewTx(OnNewBlock(s, b, api), t, api);
            && s1.txQueue == s2.txQueue
            && s1.seenBlocks == s2.seenBlocks
            && forall t', b' :: SettledIn(s1.trace, t', b') <==> SettledIn(s2.trace, t', b')
  {
    var a1 := OnNewTx(s, t, api);
    var s1 := OnNewBlock(a1, b, api);
    var a2 := OnNewBlock(s, b, api);
    var s2 := OnNewTx(a2, t, api);
    CrossOrderQueues(s, t, b, api);
    OnNewTxKeepsInv(s, t, api);
    OnNewBlockKeepsInv(a1, b, api);
    OnNewBlockKeepsInv(s, b, api);
    OnNewTxKeepsInv(a2, t, api);
    forall t', b' ensures SettledIn(s1.trace, t', b') <==> SettledIn(s2.trace, t', b') {
      SettledIffRecorded(s1, t', b');
      SettledIffRecorded(s2, t', b');
    }
  }

  /** From position `n` on, every settled report carries the state the API gives for its pair. */
  ghost predicate ReportsSince(tr: seq<Interaction>, n: nat, api: ChainApi) {
    forall j :: n <= j < |tr| && tr[j].TxSettled? ==>
      Query(api, tr[j].state.blockHash, tr[j].txHash).state == Some(tr[j].state)
  }

  lemma {:induction false} AcrossReports(s: Snapshot, k: nat, bs: seq<Hash>, api: ChainApi)
    requires k < |s.txQueue|
    ensures ReportsSince(Across(s, k, bs, api).trace, |s.trace|, api)
    decreases |bs|
  {
    if bs != [] {
      var prev := Across(s, k, bs[..|bs| - 1], api);
      AcrossReports(s, k, bs[..|bs| - 1], api);
      var st := SettleStep(prev.txQueue[k], bs[|bs| - 1], api);
      assert Across(s, k, bs, api).trace == prev.trace + st.log;
    }
  }

  lemma {:induction false} SettleSweepReports(s: Snapshot, n: nat, b: Hash, api: ChainApi)
    requires n <= |s.txQueue|
    ensures ReportsSince(SettleSweep(s, n, b, api).trace, |s.trace|, api)
  {
    if n > 0 {
      var prev := SettleSweep(s, n - 1, b, api);
      SettleSweepReports(s, n - 1, b, api);
      var st := SettleStep(prev.txQueue[n - 1], b, api);
      assert SettleSweep(s, n, b, api).trace == prev.trace + st.log;
    }
  }

  /** A settled report found in `s1`'s new part is found in `s2`, when both are consistent extensions of one trace. */
  lemma SettlementCarriedOver(tr: seq<Interaction>, s1: Snapshot, s2: Snapshot, api: ChainApi, a: Interaction)
    requires Inv(s1) && Inv(s2) && tr <= s1.trace && tr <= s2.trace
    requires ReportsSince(s1.trace, |tr|, api) && ReportsSince(s2.trace, |tr|, api)
    requires forall t, b :: SettledIn(s1.trace, t, b) ==> SettledIn(s2.trace, t, b)
    requires a.TxSettled? && a in s1.trace
    ensures a in s2.trace
  {
    var j :| 0 <= j < |s1.trace| && s1.trace[j] == a;
    if j < |tr| {
      assert s2.trace[j] == tr[j] == a;
      return;
    }
    var t, b := a.txHash, a.state.blockHash;
    assert IsSettlement(s1.trace[j], t, b);
    var m :| 0 <= m < |s2.trace| && IsSettlement(s2.trace[m], t, b);
    if m < |tr| {
      // the pair was settled before both extensions, so `a` would settle it a second time in s1
      assert false;
    }
    assert s2.trace[m] == a;
  }

  /**
   * Delivering `newTransaction(t)` then `newBlock(b)`, or the other way round,
   * with the API answering alike, ends in the same records and ledger, and
   * the same settled reports, states included.
   */
  lemma CrossOrderReports(s: Snapshot, t: Hash, b: Hash, api: ChainApi)
    requires Inv(s)
    ensures var s1 := OnNewBlock(OnNewTx(s, t, api), b, api);
            var s2 := OnNewTx(OnNewBlock(s, b, api), t, api);
            && s1.txQueue == s2.txQueue
            && s1.seenBlocks == s2.seenBlocks
            && forall a: Interaction :: a.TxSettled? ==> (a in s1.trace <==> a in s2.trace)
  {
    var a1 := OnNewTx(s, t, api);
    var s1 := OnNewBlock(a1, b, api);
    var a2 := OnNewBlock(s, b, api);
    var s2 := OnNewTx(a2, t, api);
    CrossOrderPairs(s, t, b, api);
    OnNewTxKeepsInv(s, t, api);
    OnNewBlockKeepsInv(a1, b, api);
    OnNewBlockKeepsInv(s, b, api);
    OnNewTxKeepsInv(a2, t, api);
    NextGrows(s, NewTransaction(t), api);
    NextGrows(a1, NewBlock(b), api);
    NextGrows(s, NewBlock(b), api);
    NextGrows(a2, NewTransaction(t), api);
    ReportsOfNewTx(s, t, api);
    ReportsOfNewBlock(a1, b, api);
    ReportsOfNewBlock(s, b, api);
    ReportsOfNewTx(a2, t, api);
    assert ReportsSince(s1.trace, |s.trace|, api);
    assert ReportsSince(s2.trace, |s.trace|, api);
    forall a: Interaction | a.TxSettled? ensures a in s1.trace <==> a in s2.trace {
      if a in s1.trace {
        SettlementCarriedOver(s.trace, s1, s2, api, a);
      }
      if a in s2.trace {
        SettlementCarriedOver(s.trace, s2, s1, api, a);
      }
    }
  }

  lemma ReportsOfNewTx(s: Snapshot, t: Hash, api: ChainApi)
    ensures ReportsSince(OnNewTx(s, t, api).trace, |s.trace|, api)
  {
    var q := Register(s.txQueue, t);
    AcrossReports(Snapshot(q, s.seenBlocks, s.trace), IndexOf(Hashes(q), t).value, s.seenBlocks, api);
  }

  lemma ReportsOfNewBlock(s: Snapshot, b: Hash, api: ChainApi)
    ensures ReportsSince(OnNewBlock(s, b, api).trace, |s.trace|, api)
  {
    SettleSweepReports(Snapshot(s.txQueue, s.seenBlocks + [b], s.trace), |s.txQueue|, b, api);
  }

  /** A record the `finalized` event for `b` acts on: settled in `b`, and last finalized elsewhere or never. */
  predicate Due(r: TxRecord, b: Hash) {
    b in r.seenInBlocks && r.finalizedIn != Some(b)
  }

  /** The only done report a finalize step can make is the one for a due record whose query answers. */
  lemma FinalizeStepDone(r: TxRecord, b: Hash, api: ChainApi, j: nat)
    requires j < |FinalizeStep(r, b, api).log| && FinalizeStep(r, b, api).log[j].TxDone?
    ensures Due(r, b) && Found(api, b, r.hash)
    ensures FinalizeStep(r, b, api).log[j] == TxDone(r.hash, Query(api, b, r.hash).state.value)
    ensures Query(api, b, r.hash).state.value.blockHash == b
  {
    assert j == |Query(api, b, r.hash).calls|;
  }

  /** `a` is a done report for `b` with the API's state, of one of the first `n` records of `q`, which was due. */
  ghost predicate DoneOf(a: Interaction, q: seq<TxRecord>, n: nat, b: Hash, api: ChainApi)
    requires a.TxDone?
  {
    && a.state.blockHash == b
    && Query(api, b, a.txHash).state == Some(a.state)
    && exists i :: 0 <= i < n && i < |q| && q[i].hash == a.txHash && Due(q[i], b)
  }

  /** From position `from` on, every done report in `tr` is one of the first `n` records of `q` as `DoneOf` says. */
  ghost predicate DoneSince(tr: seq<Interaction>, from: nat, q: seq<TxRecord>, n: nat, b: Hash, api: ChainApi) {
    forall j :: from <= j < |tr| && tr[j].TxDone? ==> DoneOf(tr[j], q, n, b, api)
  }

  /** Every done report of the finalizing loop names `b`, carries the API's state, and belongs to a due record. */
  lemma {:induction false} FinalizeSweepDone(s: Snapshot, n: nat, b: Hash, api: ChainApi)
    requires n <= |s.txQueue|
    ensures DoneSince(FinalizeSweep(s, n, b, api).trace, |s.trace|, s.txQueue, n, b, api)
  {
    if n > 0 {
      FinalizeSweepDone(s, n - 1, b, api);
      FinalizeSweepRecords(s, n - 1, b, api);
      var prev := FinalizeSweep(s, n - 1, b, api);
      var r := s.txQueue[n - 1];
      assert prev.txQueue[n - 1] == r;
      var st := FinalizeStep(r, b, api);
      var tr := FinalizeSweep(s, n, b, api).trace;
      assert tr == prev.trace + st.log;
      forall j | |s.trace| <= j < |tr| && tr[j].TxDone? ensures DoneOf(tr[j], s.txQueue, n, b, api) {
        if j < |prev.trace| {
          assert tr[j] == prev.trace[j];
          assert DoneSince(prev.trace, |s.trace|, s.txQueue, n - 1, b, api);
          assert DoneOf(prev.trace[j], s.txQueue, n - 1, b, api);
          var i :| 0 <= i < n - 1 && i < |s.txQueue| && s.txQueue[i].hash == tr[j].txHash && Due(s.txQueue[i], b);
        } else {
          assert tr[j] == st.log[j - |prev.trace|];
          FinalizeStepDone(r, b, api, j - |prev.trace|);
        }
      }
    }
  }

  /** Every due record whose query answers is reported done in `b`, with the API's state. */
  lemma {:induction false} FinalizeSweepDoneComplete(s: Snapshot, n: nat, b: Hash, api: ChainApi)
    requires n <= |s.txQueue|
    ensures var tr := FinalizeSweep(s, n, b, api).trace;
      forall i :: 0 <= i < n && Due(s.txQueue[i], b) && Found(api, b, s.txQueue[i].hash) ==>
        TxDone(s.txQueue[i].hash, Query(api, b, s.txQueue[i].hash).state.value) in tr[|s.trace|..]
  {
    if n > 0 {
      FinalizeSweepDoneComplete(s, n - 1, b, api);
      FinalizeSweepRecords(s, n - 1, b, api);
      var prev := FinalizeSweep(s, n - 1, b, api);
      var r := s.txQueue[n - 1];
      assert prev.txQueue[n - 1] == r;
      var st := FinalizeStep(r, b, api);
      var tr := FinalizeSweep(s, n, b, api).trace;
      assert tr == prev.trace + st.log;
      assert tr[|s.trace|..] == prev.trace[|s.trace|..] + st.log;
      if Due(r, b) && Found(api, b, r.hash) {
        assert st.log[|st.log| - 1] == TxDone(r.hash, Query(api, b, r.hash).state.value);
      }
    }
  }

  /**
   * The done reports of `onFinalized(b)` are exactly those of the due records
   * whose query answers: each names `b` and carries the API's state, and
   * every such record gets one.
   */
  lemma OnFinalizedReports(s: Snapshot, b: Hash, api: ChainApi)
    ensures var tr := OnFinalized(s, b, api).trace;
      && s.trace <= tr
      && DoneSince(tr, |s.trace|, s.txQueue, |s.txQueue|, b, api)
      && (forall i :: 0 <= i < |s.txQueue| && Due(s.txQueue[i], b) && Found(api, b, s.txQueue[i].hash) ==>
            TxDone(s.txQueue[i].hash, Query(api, b, s.txQueue[i].hash).state.value) in tr[|s.trace|..])
  {
    FinalizeSweepDone(s, |s.txQueue|, b, api);
    FinalizeSweepDoneComplete(s, |s.txQueue|, b, api);
    assert OnFinalized(s, b, api) == FinalizeSweep(s, |s.txQueue|, b, api);
  }

  /** With unique hashes, a transaction that is not due for `b` is not reported done by `onFinalized(b)`. */
  lemma NotDueNotDone(s: Snapshot, b: Hash, api: ChainApi, k: nat)
    requires Unique(s.txQueue) && k < |s.txQueue| && !Due(s.txQueue[k], b)
    ensures var tr := OnFinalized(s, b, api).trace;
      forall j :: |s.trace| <= j < |tr| && tr[j].TxDone? ==> tr[j].txHash != s.txQueue[k].hash
  {
    OnFinalizedReports(s, b, api);
    var tr := OnFinalized(s, b, api).trace;
    forall j | |s.trace| <= j < |tr| && tr[j].TxDone? ensures tr[j].txHash != s.txQueue[k].hash {
      assert DoneOf(tr[j], s.txQueue, |s.txQueue|, b, api);
    }
  }

  lemma {:induction false} QuietFinalizeSweep(s: Snapshot, n: nat, b: Hash, api: ChainApi)
    requires n <= |s.txQueue|
    requires forall i :: 0 <= i < n ==> b !in s.txQueue[i].seenInBlocks || s.txQueue[i].finalizedIn == Some(b)
    ensures FinalizeSweep(s, n, b, api) == s
  {
    if n > 0 {
      QuietFinalizeSweep(s, n - 1, b, api);
      assert s.txQueue[n - 1 := s.txQueue[n - 1]] == s.txQueue;
    }
  }

  /**
   * A second `finalized` event for the same block emits nothing and changes
   * nothing, whatever the chain answers the second time.
   */
  lemma FinalizeTwice(s: Snapshot, b: Hash, api: ChainApi, api2: ChainApi)
    ensures OnFinalized(OnFinalized(s, b, api), b, api2) == OnFinalized(s, b, api)
  {
    var s1 := OnFinalized(s, b, api);
    QuietFinalizeSweep(s1, |s1.txQueue|, b, api2);
  }

  /** A `finalized` event for a block no transaction was settled in emits nothing and sets no `finalizedIn`. */
  lemma UnseenFinalizeNoop(s: Snapshot, b: Hash, api: ChainApi)
    requires forall i :: 0 <= i < |s.txQueue| ==> b !in s.txQueue[i].seenInBlocks
    ensures OnFinalized(s, b, api) == s
  {
    QuietFinalizeSweep(s, |s.txQueue|, b, api);
  }

  /** In particular, finalizing a block that never arrived is a no-op. */
  lemma UnknownBlockFinalizeNoop(s: Snapshot, b: Hash, api: ChainApi)
    requires Inv(s) && b !in s.seenBlocks
    ensures OnFinalized(s, b, api) == s
  {
    forall i | 0 <= i < |s.txQueue| ensures b !in s.txQueue[i].seenInBlocks {
      assert WellFormed(s.txQueue[i], s.seenBlocks, s.trace);
    }
    UnseenFinalizeNoop(s, b, api);
  }

  /**
   * The `finalizedIn` guard remembers only the last block: a transaction
   * settled in two blocks and finalized in b1, then b2, then b1 again is
   * reported done in b1 twice.
   */
  lemma RefinalizeRepeatsDone(r: TxRecord, b1: Hash, b2: Hash, api: ChainApi)
    requires b1 != b2 && b1 in r.seenInBlocks && b2 in r.seenInBlocks
    requires r.finalizedIn != Some(b1) && Found(api, b1, r.hash)
    ensures var done := TxDone(r.hash, Query(api, b1, r.hash).state.value);
            var st1 := FinalizeStep(r, b1, api);
            var st2 := FinalizeStep(st1.record, b2, api);
            var st3 := FinalizeStep(st2.record, b1, api);
            && st1.log[|st1.log| - 1] == done
            && st3.log[|st3.log| - 1] == done
            && st3.record.finalizedIn == Some(b1)
  {
    var st1 := FinalizeStep(r, b1, api);
    assert st1.record.finalizedIn == Some(b1);
    var st2 := FinalizeStep(st1.record, b2, api);
    assert st2.record.finalizedIn == Some(b2) && st2.record.seenInBlocks == r.seenInBlocks;
  }

  /** A chain-query API that answers `answer` to every validity question and `success` to every success question. */
  function Uniform(answer: Answer, success: Answer): ChainApi {
    ChainApi((b: Hash, t: Hash) => answer, (b: Hash, t: Hash) => success)
  }

  /**
   * A block, then a transaction valid and successful in it: one settled
   * report; finalizing the block: one done report; finalizing it again: nothing.
   */
  lemma ScenarioSettleThenDone()
    ensures var api := Uniform(Answered(true), Answered(true));
            var s1 := Next(Next(Initial(), NewBlock("B1"), api), NewTransaction("T1"), api);
            var s2 := Next(s1, Finalized("B1"), api);
            var s3 := Next(s2, Finalized("B1"), api);
            && s1.trace == [IsTxValid("B1", "T1"), IsTxSuccessful("B1", "T1"), TxSettled("T1", TxValid("B1", true))]
            && s2.trace == s1.trace + [IsTxValid("B1", "T1"), IsTxSuccessful("B1", "T1"), TxDone("T1", TxValid("B1", true))]
            && s2.txQueue == [TxRecord("T1", {"B1"}, Some("B1"))]
            && s3 == s2
  {
    var api := Uniform(Answered(true), Answered(true));
    ScenarioSettled();
    var r := TxRecord("T1", {"B1"}, None);
    var s1 := Snapshot([r], ["B1"], [IsTxValid("B1", "T1"), IsTxSuccessful("B1", "T1"), TxSettled("T1", TxValid("B1", true))]);
    assert Query(api, "B1", "T1") == Probe([IsTxValid("B1", "T1"), IsTxSuccessful("B1", "T1")], Some(TxValid("B1", true)));
    var st := FinalizeStep(r, "B1", api);
    assert st.log == [IsTxValid("B1", "T1"), IsTxSuccessful("B1", "T1"), TxDone("T1", TxValid("B1", true))];
    assert FinalizeSweep(s1, 0, "B1", api) == s1;
    assert OnFinalized(s1, "B1", api) == Commit(s1, 0, st);
    FinalizeTwice(s1, "B1", api, api);
  }

  /** The first half of the scenario above: the state after block B1 and then transaction T1. */
  lemma ScenarioSettled()
    ensures var api := Uniform(Answered(true), Answered(true));
            Next(Next(Initial(), NewBlock("B1"), api), NewTransaction("T1"), api)
              == Snapshot([TxRecord("T1", {"B1"}, None)], ["B1"],
                          [IsTxValid("B1", "T1"), IsTxSuccessful("B1", "T1"), TxSettled("T1", TxValid("B1", true))])
  {
    var api := Uniform(Answered(true), Answered(true));
    var s0 := Next(Initial(), NewBlock("B1"), api);
    assert s0 == Snapshot([], ["B1"], []);
    var reg := Register([], "T1");
    assert reg == [NewRecord("T1")];
    assert IndexOf(Hashes(reg), "T1") == Some(0);
    var s1 := Next(s0, NewTransaction("T1"), api);
    var start := Snapshot(reg, ["B1"], []);
    assert s1 == Across(start, 0, ["B1"], api);
    assert Across(start, 0, [], api) == start;
    assert s1.txQueue == reg[0 := SettleStep(reg[0], "B1", api).record];
    assert SettleStep(reg[0], "B1", api).record == TxRecord("T1", {"B1"}, None);
  }

  /** An invalid transaction is reported settled as invalid, and its success is never asked. */
  lemma ScenarioInvalid()
    ensures var api := Uniform(Answered(false), Answered(true));
            var s := Next(Next(Initial(), NewTransaction("T2"), api), NewBlock("B2"), api);
            && s.trace == [IsTxValid("B2", "T2"), TxSettled("T2", TxInvalid("B2"))]
            && s.txQueue == [TxRecord("T2", {"B2"}, None)]
  {
    var api := Uniform(Answered(false), Answered(true));
    var reg := Register([], "T2");
    assert reg == [NewRecord("T2")];
    assert IndexOf(Hashes(reg), "T2") == Some(0);
    var s0 := Next(Initial(), NewTransaction("T2"), api);
    assert s0 == Across(Snapshot(reg, [], []), 0, [], api);
    assert s0 == Snapshot(reg, [], []);
    var s := Next(s0, NewBlock("B2"), api);
    var s1 := Snapshot(reg, ["B2"], []);
    assert s0.seenBlocks + ["B2"] == ["B2"];
    assert s == SettleSweep(s1, 1, "B2", api);
    assert SettleSweep(s1, 0, "B2", api) == s1;
    assert s.txQueue == reg[0 := SettleStep(reg[0], "B2", api).record];
    assert SettleStep(reg[0], "B2", api).record == TxRecord("T2", {"B2"}, None);
  }

  /** A transaction absent from the block: the query is made, nothing is reported, nothing is marked. */
  lemma ScenarioNotFound()
    ensures var api := Uniform(NotFound, NotFound);
            var s := Next(Next(Initial(), NewBlock("B1"), api), NewTransaction("T1"), api);
            && s.trace == [IsTxValid("B1", "T1")]
            && s.txQueue == [NewRecord("T1")]
  {
    var api := Uniform(NotFound, NotFound);
    var s0 := Next(Initial(), NewBlock("B1"), api);
    assert s0 == Snapshot([], ["B1"], []);
    var reg := Register([], "T1");
    assert reg == [NewRecord("T1")];
    assert IndexOf(Hashes(reg), "T1") == Some(0);
    var start := Snapshot(reg, ["B1"], []);
    assert Next(s0, NewTransaction("T1"), api) == Across(start, 0, ["B1"], api);
    assert Across(start, 0, [], api) == start;
  }
}
