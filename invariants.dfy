/**
 * The invariant every handler keeps, and the theorem that it holds in every
 * state reachable from a freshly constructed tracker: each (transaction,
 * block) pair is reported settled at most once, "done" for a pair only after
 * "settled" for it, and `finalizedIn`, when present, is a settled block.
 */
module SettlementInvariants {
  import opened Wrappers
  import opened Collaborators
  import opened Settlement

  /** Entry `a` reports transaction `t` settled in block `b`. */
  predicate IsSettlement(a: Interaction, t: Hash, b: Hash) {
    a.TxSettled? && a.txHash == t && a.state.blockHash == b
  }

  /** Somewhere in `tr`, `t` is reported settled in `b`. */
  ghost predicate SettledIn(tr: seq<Interaction>, t: Hash, b: Hash) {
    exists k :: 0 <= k < |tr| && IsSettlement(tr[k], t, b)
  }

  /** The record for `t` has `b` in its `seenInBlocks`. */
  ghost predicate Recorded(q: seq<TxRecord>, t: Hash, b: Hash) {
    exists i :: 0 <= i < |q| && q[i].hash == t && b in q[i].seenInBlocks
  }

  /** No (transaction, block) pair is reported settled twice. */
  ghost predicate SettledOnce(tr: seq<Interaction>) {
    forall j, k :: 0 <= j < k < |tr| && tr[j].TxSettled? && tr[k].TxSettled? ==>
      tr[j].txHash != tr[k].txHash || tr[j].state.blockHash != tr[k].state.blockHash
  }

  /** Every "done" report is preceded by a "settled" report for the same pair. */
  ghost predicate DoneAfterSettled(tr: seq<Interaction>) {
    forall k :: 0 <= k < |tr| && tr[k].TxDone? ==> SettledIn(tr[..k], tr[k].txHash, tr[k].state.blockHash)
  }

  /** A record is consistent with the ledger and the trace. */
  ghost predicate WellFormed(r: TxRecord, ledger: seq<Hash>, tr: seq<Interaction>) {
    && (r.finalizedIn.Some? ==> r.finalizedIn.value in r.seenInBlocks)
    && (forall x :: x in r.seenInBlocks ==> x in ledger && SettledIn(tr, r.hash, x))
  }

  /** The tracker invariant. */
  ghost predicate Inv(s: Snapshot) {
    && Unique(s.txQueue)
    && (forall i :: 0 <= i < |s.txQueue| ==> WellFormed(s.txQueue[i], s.seenBlocks, s.trace))
    && (forall k :: 0 <= k < |s.trace| && s.trace[k].TxSettled? ==>
          Recorded(s.txQueue, s.trace[k].txHash, s.trace[k].state.blockHash))
    && SettledOnce(s.trace)
    && DoneAfterSettled(s.trace)
  }

  lemma SettledInAppend(tr: seq<Interaction>, extra: seq<Interaction>, t: Hash, b: Hash)
    requires SettledIn(tr, t, b)
    ensures SettledIn(tr + extra, t, b)
  {
    var k :| 0 <= k < |tr| && IsSettlement(tr[k], t, b);
    assert (tr + extra)[k] == tr[k];
  }

  /** Appending entries that are neither settled nor done reports keeps the trace properties. */
  lemma QuietAppend(tr: seq<Interaction>, calls: seq<Interaction>)
    requires SettledOnce(tr) && DoneAfterSettled(tr)
    requires forall j :: 0 <= j < |calls| ==> IsCall(calls[j])
    ensures SettledOnce(tr + calls) && DoneAfterSettled(tr + calls)
    ensures forall k :: |tr| <= k < |tr + calls| ==> IsCall((tr + calls)[k])
  {
    var tr' := tr + calls;
    assert forall k :: |tr| <= k < |tr'| ==> tr'[k] == calls[k - |tr|];
    forall j, k | 0 <= j < k < |tr'| && tr'[j].TxSettled? && tr'[k].TxSettled?
      ensures tr'[j].txHash != tr'[k].txHash || tr'[j].state.blockHash != tr'[k].state.blockHash
    {
      assert k < |tr|;
    }
    forall k | 0 <= k < |tr'| && tr'[k].TxDone?
      ensures SettledIn(tr'[..k], tr'[k].txHash, tr'[k].state.blockHash)
    {
      assert k < |tr|;
      assert tr'[..k] == tr[..k];
    }
  }

  /** The settle step on a record of a valid snapshot, against a block of its ledger, keeps the invariant. */
  lemma {:induction false} SettleStepKeepsInv(s: Snapshot, k: nat, b: Hash, api: ChainApi)
    requires Inv(s) && k < |s.txQueue| && b in s.seenBlocks
    ensures Inv(Commit(s, k, SettleStep(s.txQueue[k], b, api)))
  {
    var q, tr := s.txQueue, s.trace;
    var r := q[k];
    var st := SettleStep(r, b, api);
    var s' := Commit(s, k, st);
    if b in r.seenInBlocks {
      assert s'.txQueue == q && s'.trace == tr;
      return;
    }
    var probe := Query(api, b, r.hash);
    QuietAppend(tr, probe.calls);
    var mid := tr + probe.calls;
    forall i | 0 <= i < |q|
      ensures forall x :: x in q[i].seenInBlocks ==> SettledIn(mid, q[i].hash, x)
    {
      forall x | x in q[i].seenInBlocks ensures SettledIn(mid, q[i].hash, x) {
        SettledInAppend(tr, probe.calls, q[i].hash, x);
      }
    }
    if !Found(api, b, r.hash) {
      assert s'.txQueue == q && s'.trace == mid;
      forall j | 0 <= j < |mid| && mid[j].TxSettled?
        ensures Recorded(q, mid[j].txHash, mid[j].state.blockHash)
      {
        assert j < |tr|;
      }
      return;
    }
    var settled := TxSettled(r.hash, probe.state.value);
    var tr' := mid + [settled];
    assert s'.trace == tr';
    var q' := s'.txQueue;
    assert forall i :: 0 <= i < |q| ==> q'[i].hash == q[i].hash && q[i].seenInBlocks <= q'[i].seenInBlocks;
    // every earlier settled report names a pair already in some record
    forall j | 0 <= j < |tr'| && tr'[j].TxSettled?
      ensures Recorded(q', tr'[j].txHash, tr'[j].state.blockHash)
    {
      if j == |tr'| - 1 {
        assert q'[k].hash == settled.txHash && b in q'[k].seenInBlocks;
      } else {
        assert j < |tr|;
        assert tr'[j] == tr[j];
        var i :| 0 <= i < |q| && q[i].hash == tr[j].txHash && tr[j].state.blockHash in q[i].seenInBlocks;
        assert q'[i].hash == tr[j].txHash && tr[j].state.blockHash in q'[i].seenInBlocks;
      }
    }
    // the new report is the first for its pair
    forall j | 0 <= j < |mid| && mid[j].TxSettled?
      ensures mid[j].txHash != r.hash || mid[j].state.blockHash != b
    {
      assert j < |tr|;
      assert mid[j] == tr[j];
      var i :| 0 <= i < |q| && q[i].hash == tr[j].txHash && tr[j].state.blockHash in q[i].seenInBlocks;
      if tr[j].txHash == r.hash && tr[j].state.blockHash == b {
        assert false;
      }
    }
    assert SettledOnce(tr') by {
      forall j, j' | 0 <= j < j' < |tr'| && tr'[j].TxSettled? && tr'[j'].TxSettled?
        ensures tr'[j].txHash != tr'[j'].txHash || tr'[j].state.blockHash != tr'[j'].state.blockHash
      {
        if j' < |mid| {
          assert tr'[j] == mid[j] && tr'[j'] == mid[j'];
        } else {
          assert tr'[j] == mid[j];
        }
      }
    }
    assert DoneAfterSettled(tr') by {
      forall j | 0 <= j < |tr'| && tr'[j].TxDone?
        ensures SettledIn(tr'[..j], tr'[j].txHash, tr'[j].state.blockHash)
      {
        assert j < |mid|;
        assert tr'[..j] == mid[..j];
      }
    }
    forall i | 0 <= i < |q'| ensures WellFormed(q'[i], s.seenBlocks, tr') {
      forall x | x in q'[i].seenInBlocks ensures x in s.seenBlocks && SettledIn(tr', q'[i].hash, x) {
        if i == k && x == b {
          assert IsSettlement(tr'[|tr'| - 1], q'[i].hash, x);
        } else {
          assert x in q[i].seenInBlocks;
          SettledInAppend(mid, [settled], q[i].hash, x);
        }
      }
    }
  }

  /** The finalize step on a record of a valid snapshot keeps the invariant. */
  lemma {:induction false} FinalizeStepKeepsInv(s: Snapshot, k: nat, b: Hash, api: ChainApi)
    requires Inv(s) && k < |s.txQueue|
    ensures Inv(Commit(s, k, FinalizeStep(s.txQueue[k], b, api)))
  {
    var q, tr := s.txQueue, s.trace;
    var r := q[k];
    var st := FinalizeStep(r, b, api);
    var s' := Commit(s, k, st);
    if b !in r.seenInBlocks || r.finalizedIn == Some(b) {
      assert s'.txQueue == q && s'.trace == tr;
      return;
    }
    var probe := Query(api, b, r.hash);
    QuietAppend(tr, probe.calls);
    var mid := tr + probe.calls;
    var q' := s'.txQueue;
    assert forall i :: 0 <= i < |q| ==> q'[i].hash == q[i].hash && q'[i].seenInBlocks == q[i].seenInBlocks;
    var extra := if Found(api, b, r.hash) then [TxDone(r.hash, probe.state.value)] else [];
    var tr' := mid + extra;
    assert s'.trace == tr';
    forall j | 0 <= j < |tr'| && tr'[j].TxSettled?
      ensures Recorded(q', tr'[j].txHash, tr'[j].state.blockHash)
    {
      assert j < |tr|;
      assert tr'[j] == tr[j];
      var i :| 0 <= i < |q| && q[i].hash == tr[j].txHash && tr[j].state.blockHash in q[i].seenInBlocks;
      assert q'[i].hash == tr[j].txHash;
    }
    assert SettledOnce(tr') by {
      forall j, j' | 0 <= j < j' < |tr'| && tr'[j].TxSettled? && tr'[j'].TxSettled?
        ensures tr'[j].txHash != tr'[j'].txHash || tr'[j].state.blockHash != tr'[j'].state.blockHash
      {
        assert tr'[j] == mid[j] && tr'[j'] == mid[j'];
      }
    }
    assert DoneAfterSettled(tr') by {
      forall j | 0 <= j < |tr'| && tr'[j].TxDone?
        ensures SettledIn(tr'[..j], tr'[j].txHash, tr'[j].state.blockHash)
      {
        if j < |mid| {
          assert tr'[..j] == mid[..j];
        } else {
          // the settled report for (r.hash, b) lies in the old trace
          assert tr'[j] == TxDone(r.hash, probe.state.value) && probe.state.value.blockHash == b;
          var m :| 0 <= m < |tr| && IsSettlement(tr[m], r.hash, b);
          assert tr'[..j][m] == tr[m];
        }
      }
    }
    forall i | 0 <= i < |q'| ensures WellFormed(q'[i], s.seenBlocks, tr') {
      forall x | x in q'[i].seenInBlocks ensures x in s.seenBlocks && SettledIn(tr', q'[i].hash, x) {
        SettledInAppend(tr, probe.calls + extra, q[i].hash, x);
        assert tr + (probe.calls + extra) == tr';
      }
    }
  }

  lemma {:induction false} SettleSweepKeepsInv(s: Snapshot, n: nat, b: Hash, api: ChainApi)
    requires Inv(s) && n <= |s.txQueue| && b in s.seenBlocks
    ensures Inv(SettleSweep(s, n, b, api))
  {
    if n > 0 {
      SettleSweepKeepsInv(s, n - 1, b, api);
      var prev := SettleSweep(s, n - 1, b, api);
      assert SettleSweep(s, n, b, api) == Commit(prev, n - 1, SettleStep(prev.txQueue[n - 1], b, api));
      SettleStepKeepsInv(prev, n - 1, b, api);
    }
  }

  lemma {:induction false} FinalizeSweepKeepsInv(s: Snapshot, n: nat, b: Hash, api: ChainApi)
    requires Inv(s) && n <= |s.txQueue|
    ensures Inv(FinalizeSweep(s, n, b, api))
  {
    if n > 0 {
      FinalizeSweepKeepsInv(s, n - 1, b, api);
      var prev := FinalizeSweep(s, n - 1, b, api);
      assert FinalizeSweep(s, n, b, api) == Commit(prev, n - 1, FinalizeStep(prev.txQueue[n - 1], b, api));
      FinalizeStepKeepsInv(prev, n - 1, b, api);
    }
  }

  lemma {:induction false} AcrossKeepsInv(s: Snapshot, k: nat, bs: seq<Hash>, api: ChainApi)
    requires Inv(s) && k < |s.txQueue|
    requires forall j :: 0 <= j < |bs| ==> bs[j] in s.seenBlocks
    ensures Inv(Across(s, k, bs, api))
    decreases |bs|
  {
    if bs != [] {
      var prefix := bs[..|bs| - 1];
      AcrossKeepsInv(s, k, prefix, api);
      SettleStepKeepsInv(Across(s, k, prefix, api), k, bs[|bs| - 1], api);
    }
  }

  /** `onNewTx` keeps the invariant; a new record starts consistent. */
  lemma OnNewTxKeepsInv(s: Snapshot, t: Hash, api: ChainApi)
    requires Inv(s)
    ensures Inv(OnNewTx(s, t, api))
  {
    var q := Register(s.txQueue, t);
    var s0 := Snapshot(q, s.seenBlocks, s.trace);
    assert Inv(s0) by {
      assert forall i :: 0 <= i < |s.txQueue| ==> q[i] == s.txQueue[i];
      forall j | 0 <= j < |s.trace| && s.trace[j].TxSettled?
        ensures Recorded(q, s.trace[j].txHash, s.trace[j].state.blockHash)
      {
        var i :| 0 <= i < |s.txQueue| && s.txQueue[i].hash == s.trace[j].txHash
          && s.trace[j].state.blockHash in s.txQueue[i].seenInBlocks;
        assert q[i] == s.txQueue[i];
      }
    }
    AcrossKeepsInv(s0, IndexOf(Hashes(q), t).value, s.seenBlocks, api);
  }

  /** `onNewBlock` keeps the invariant; a longer ledger keeps every record consistent. */
  lemma OnNewBlockKeepsInv(s: Snapshot, b: Hash, api: ChainApi)
    requires Inv(s)
    ensures Inv(OnNewBlock(s, b, api))
  {
    var s0 := Snapshot(s.txQueue, s.seenBlocks + [b], s.trace);
    assert forall i :: 0 <= i < |s.txQueue| ==> WellFormed(s.txQueue[i], s0.seenBlocks, s.trace);
    SettleSweepKeepsInv(s0, |s.txQueue|, b, api);
  }

  lemma OnFinalizedKeepsInv(s: Snapshot, b: Hash, api: ChainApi)
    requires Inv(s)
    ensures Inv(OnFinalized(s, b, api))
  {
    FinalizeSweepKeepsInv(s, |s.txQueue|, b, api);
  }

  /** Every event keeps the invariant. */
  lemma NextKeepsInv(s: Snapshot, e: Event, api: ChainApi)
    requires Inv(s)
    ensures Inv(Next(s, e, api))
  {
    match e
    case NewTransaction(t) => OnNewTxKeepsInv(s, t, api);
    case NewBlock(b) => OnNewBlockKeepsInv(s, b, api);
    case Finalized(b) => OnFinalizedKeepsInv(s, b, api);
  }

  lemma {:induction false} RunKeepsInv(s: Snapshot, ds: seq<Delivery>)
    requires Inv(s)
    ensures Inv(Run(s, ds))
    decreases |ds|
  {
    if ds != [] {
      RunKeepsInv(s, ds[..|ds| - 1]);
      NextKeepsInv(Run(s, ds[..|ds| - 1]), ds[|ds| - 1].event, ds[|ds| - 1].api);
    }
  }

  /**
   * Whatever events arrive, and however the chain-query API answers each
   * time: every pair is reported settled at most once, "done" only after
   * "settled" for the same pair, `finalizedIn` is always a settled block,
   * every settled block is in the ledger, and hashes in `txQueue` are unique.
   */
  lemma Reachable(ds: seq<Delivery>)
    ensures var s := Run(Initial(), ds);
      && Unique(s.txQueue)
      && SettledOnce(s.trace)
      && DoneAfterSettled(s.trace)
      && (forall i :: 0 <= i < |s.txQueue| && s.txQueue[i].finalizedIn.Some? ==>
            s.txQueue[i].finalizedIn.value in s.txQueue[i].seenInBlocks)
      && (forall i, x :: 0 <= i < |s.txQueue| && x in s.txQueue[i].seenInBlocks ==>
            x in s.seenBlocks && SettledIn(s.trace, s.txQueue[i].hash, x))
  {
    RunKeepsInv(Initial(), ds);
    var s := Run(Initial(), ds);
    assert forall i :: 0 <= i < |s.txQueue| ==> WellFormed(s.txQueue[i], s.seenBlocks, s.trace);
  }

  /** In a consistent state the settled reports are exactly the pairs the records hold. */
  lemma SettledIffRecorded(s: Snapshot, t: Hash, b: Hash)
    requires Inv(s)
    ensures SettledIn(s.trace, t, b) <==> Recorded(s.txQueue, t, b)
  {
    if SettledIn(s.trace, t, b) {
      var k :| 0 <= k < |s.trace| && IsSettlement(s.trace[k], t, b);
      assert s.trace[k].TxSettled?;
    }
    if Recorded(s.txQueue, t, b) {
      var i :| 0 <= i < |s.txQueue| && s.txQueue[i].hash == t && b in s.txQueue[i].seenInBlocks;
      assert WellFormed(s.txQueue[i], s.seenBlocks, s.trace);
    }
  }
}
