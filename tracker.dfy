/**
 * The tracker object returned by the factory: it owns `txQueue` and
 * `seenBlocks`, updates them in place, and records every call to the
 * chain-query API and to the output sink in a ghost trace.  Each handler is
 * proved to produce exactly the snapshot the functions of module Settlement
 * describe, and to keep the invariant of module SettlementInvariants.
 */
module SettlementTracker {
  import opened Wrappers
  import opened Collaborators
  import opened Settlement
  import opened SettlementInvariants

  class Tracker {
    var txQueue: seq<TxRecord>
    var seenBlocks: seq<Hash>
    ghost var trace: seq<Interaction>

    ghost function State(): Snapshot
      reads this
    {
      Snapshot(txQueue, seenBlocks, trace)
    }

    ghost predicate Valid()
      reads this
    {
      Inv(State())
    }

    constructor ()
      ensures Valid() && State() == Initial()
    {
      txQueue := [];
      seenBlocks := [];
      trace := [];
    }

    /** `txQueue.find(t => t.hash === hash)`, as a position. */
    method Find(hash: Hash) returns (r: Option<nat>)
      ensures r == IndexOf(Hashes(txQueue), hash)
    {
      var i := 0;
      while i < |txQueue|
        invariant 0 <= i <= |txQueue|
        invariant hash !in Hashes(txQueue)[..i]
      {
        if txQueue[i].hash == hash {
          assert Hashes(txQueue)[i] == hash;
          return Some(i);
        }
        assert Hashes(txQueue)[..i + 1] == Hashes(txQueue)[..i] + [txQueue[i].hash];
        i := i + 1;
      }
      assert Hashes(txQueue)[..i] == Hashes(txQueue);
      return None;
    }

    /** `getTx`: the position of the record for `hash`, appending an empty one if there is none. */
    method GetTx(hash: Hash) returns (k: nat)
      modifies this
      ensures txQueue == Register(old(txQueue), hash)
      ensures seenBlocks == old(seenBlocks) && trace == old(trace)
      ensures IndexOf(Hashes(txQueue), hash) == Some(k)
    {
      var found := Find(hash);
      if found.Some? {
        k := found.value;
      } else {
        ghost var q := txQueue;
        txQueue := txQueue + [NewRecord(hash)];
        k := |txQueue| - 1;
        assert Hashes(txQueue)[k] == hash && Hashes(txQueue)[..k] == Hashes(q);
      }
    }

    /** `settleTxInBlock`. */
    method SettleTxInBlock(txHash: Hash, blockHash: Hash, api: ChainApi)
      modifies this
      ensures State() == SettleTx(old(State()), txHash, blockHash, api)
    {
      var k := GetTx(txHash);
      if blockHash in txQueue[k].seenInBlocks {
        assert txQueue[k := txQueue[k]] == txQueue && trace + [] == trace;
        return;
      }
      var probe := Query(api, blockHash, txHash);
      trace := trace + probe.calls;
      if probe.state.Some? {
        var tx := txQueue[k];
        txQueue := txQueue[k := tx.(seenInBlocks := tx.seenInBlocks + {blockHash})];
        trace := trace + [TxSettled(txHash, probe.state.value)];
      } else {
        assert txQueue[k := txQueue[k]] == txQueue;
      }
    }

    /** `onNewTx`: register the transaction, then settle it against each block of the ledger in order. */
    method OnNewTx(value: Hash, api: ChainApi)
      requires Valid()
      modifies this
      ensures Valid()
      ensures State() == Settlement.OnNewTx(old(State()), value, api)
    {
      ghost var s := State();
      var k := GetTx(value);
      var tx := txQueue[k];
      ghost var s0 := State();
      var j := 0;
      while j < |seenBlocks|
        invariant 0 <= j <= |seenBlocks| && seenBlocks == s.seenBlocks
        invariant State() == Across(s0, k, seenBlocks[..j], api)
      {
        ghost var cur := State();
        assert value in Hashes(cur.txQueue);
        SettleTxInBlock(tx.hash, seenBlocks[j], api);
        assert seenBlocks[..j + 1][..j] == seenBlocks[..j];
        j := j + 1;
      }
      assert seenBlocks[..j] == s.seenBlocks;
      OnNewTxKeepsInv(s, value, api);
    }

    /** `onNewBlock`: append the block, then settle every known transaction against it. */
    method OnNewBlock(blockHash: Hash, api: ChainApi)
      requires Valid()
      modifies this
      ensures Valid()
      ensures State() == Settlement.OnNewBlock(old(State()), blockHash, api)
    {
      ghost var s := State();
      seenBlocks := seenBlocks + [blockHash];
      ghost var s0 := State();
      var i := 0;
      while i < |txQueue|
        invariant 0 <= i <= |txQueue| == |s.txQueue|
        invariant State() == SettleSweep(s0, i, blockHash, api)
      {
        UniqueByHashes(s.txQueue, txQueue);
        IndexOfUnique(txQueue, i);
        SettleTxInBlock(txQueue[i].hash, blockHash, api);
        i := i + 1;
      }
      OnNewBlockKeepsInv(s, blockHash, api);
    }

    /**
     * `onFinalized`: each transaction settled in the block, and whose last
     * `finalizedIn` is another block or none, takes the block as `finalizedIn`
     * before it is queried again; a reply is reported as done.
     */
    method OnFinalized(blockHash: Hash, api: ChainApi)
      requires Valid()
      modifies this
      ensures Valid()
      ensures State() == Settlement.OnFinalized(old(State()), blockHash, api)
    {
      ghost var s := State();
      var i := 0;
      while i < |txQueue|
        invariant 0 <= i <= |txQueue| == |s.txQueue|
        invariant State() == FinalizeSweep(s, i, blockHash, api)
      {
        var tx := txQueue[i];
        if blockHash in tx.seenInBlocks && tx.finalizedIn != Some(blockHash) {
          txQueue := txQueue[i := tx.(finalizedIn := Some(blockHash))];
          var probe := Query(api, blockHash, tx.hash);
          trace := trace + probe.calls;
          if probe.state.Some? {
            trace := trace + [TxDone(tx.hash, probe.state.value)];
          }
        } else {
          assert txQueue[i := tx] == txQueue && trace + [] == trace;
        }
        i := i + 1;
      }
      OnFinalizedKeepsInv(s, blockHash, api);
    }

    /** The function the factory returns: dispatch on the event's type. */
    method Handle(event: Event, api: ChainApi)
      requires Valid()
      modifies this
      ensures Valid()
      ensures State() == Next(old(State()), event, api)
    {
      match event
      case NewTransaction(value) => OnNewTx(value, api);
      case NewBlock(blockHash) => OnNewBlock(blockHash, api);
      case Finalized(blockHash) => OnFinalized(blockHash, api);
    }
  }
}
