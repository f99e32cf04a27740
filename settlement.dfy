/**
 * The settlement tracker as values: its two collections and its interaction
 * trace form a `Snapshot`, and each event handler is a function from one
 * snapshot to the next.  The class in tracker.dfy is proved to follow these
 * functions step by step.
 */
module Settlement {
  import opened Wrappers
  import opened Collaborators

  /** One entry of `txQueue`. */
  datatype TxRecord = TxRecord(hash: Hash, seenInBlocks: set<Hash>, finalizedIn: Option<Hash>)

  /** The tracker's state: `txQueue`, `seenBlocks` and every interaction so far. */
  datatype Snapshot = Snapshot(txQueue: seq<TxRecord>, seenBlocks: seq<Hash>, trace: seq<Interaction>)

  /** The three incoming event kinds. */
  datatype Event =
    | NewTransaction(value: Hash)
    | NewBlock(blockHash: Hash)
    | Finalized(blockHash: Hash)

  /** An event together with the chain-query API as it answers while that event is handled. */
  datatype Delivery = Delivery(event: Event, api: ChainApi)

  /** What handling one record does: the record afterwards and the interactions it produced. */
  datatype Step = Step(record: TxRecord, log: seq<Interaction>)

  /** A freshly constructed tracker: it knows no transaction and no block, and has reported nothing. */
  function Initial(): (r: Snapshot)
    ensures forall t :: IndexOf(Hashes(r.txQueue), t) == None
    ensures r.seenBlocks == [] && r.trace == []
  {
    Snapshot([], [], [])
  }

  /** The record `getTx` creates for a hash it has not seen. */
  function NewRecord(hash: Hash): TxRecord {
    TxRecord(hash, {}, None)
  }

  function Hashes(q: seq<TxRecord>): seq<Hash> {
    seq(|q|, i requires 0 <= i < |q| => q[i].hash)
  }

  ghost predicate Unique(q: seq<TxRecord>) {
    forall i, j :: 0 <= i < j < |q| ==> q[i].hash != q[j].hash
  }

  /** The position of the first record with hash `t`, as `txQueue.find` locates it. */
  function IndexOf(hs: seq<Hash>, t: Hash): (r: Option<nat>)
    ensures r.None? <==> t !in hs
    ensures r.Some? ==> r.value < |hs| && hs[r.value] == t && t !in hs[..r.value]
  {
    if hs == [] then None
    else if hs[0] == t then Some(0)
    else match IndexOf(hs[1..], t)
      case None => None
      case Some(j) => Some(j + 1)
  }

  /** In a queue of unique hashes, the first record with a record's hash is that record. */
  lemma IndexOfUnique(q: seq<TxRecord>, i: nat)
    requires Unique(q) && i < |q|
    ensures IndexOf(Hashes(q), q[i].hash) == Some(i)
  {
    assert Hashes(q)[i] == q[i].hash;
  }

  /** Uniqueness depends only on the hashes. */
  lemma UniqueByHashes(q: seq<TxRecord>, q': seq<TxRecord>)
    requires Unique(q) && Hashes(q) == Hashes(q')
    ensures Unique(q')
  {
    forall i, j | 0 <= i < j < |q'| ensures q'[i].hash != q'[j].hash {
      assert Hashes(q')[i] == q'[i].hash && Hashes(q')[j] == q'[j].hash;
      assert Hashes(q)[i] == q[i].hash && Hashes(q)[j] == q[j].hash;
    }
  }

  /** The queue after `getTx(t)`: unchanged if `t` is known, else one empty record appended. */
  function Register(q: seq<TxRecord>, t: Hash): (r: seq<TxRecord>)
    ensures t in Hashes(r)
    ensures t in Hashes(q) ==> r == q
    ensures t !in Hashes(q) ==> r == q + [NewRecord(t)]
    ensures Unique(q) ==> Unique(r)
  {
    if IndexOf(Hashes(q), t).Some? then q
    else
      var r := q + [NewRecord(t)];
      assert Hashes(r)[|q|] == t;
      assert forall i :: 0 <= i < |q| ==> Hashes(q)[i] == r[i].hash;
      r
  }

  /**
   * `settleTxInBlock` on one record: skip a block already seen; otherwise
   * query, and only if no call threw, mark the block seen and report it.
   */
  function SettleStep(r: TxRecord, b: Hash, api: ChainApi): (st: Step)
    ensures st.record == r.(seenInBlocks := r.seenInBlocks + if Found(api, b, r.hash) then {b} else {})
    ensures b in r.seenInBlocks ==> st.log == []
    ensures b !in r.seenInBlocks && !Found(api, b, r.hash) ==> st.log == Query(api, b, r.hash).calls
    ensures b !in r.seenInBlocks && Found(api, b, r.hash) ==>
      st.log == Query(api, b, r.hash).calls + [TxSettled(r.hash, Query(api, b, r.hash).state.value)]
  {
    if b in r.seenInBlocks then Step(r, [])
    else
      var probe := Query(api, b, r.hash);
      match probe.state
      case None => Step(r, probe.calls)
      case Some(state) => Step(r.(seenInBlocks := r.seenInBlocks + {b}), probe.calls + [TxSettled(r.hash, state)])
  }

  /**
   * The body of `onFinalized`'s loop for one record: a block the record was
   * settled in, and that is not its last `finalizedIn`, becomes `finalizedIn`
   * before the query; a reply is reported as done.
   */
  function FinalizeStep(r: TxRecord, b: Hash, api: ChainApi): (st: Step)
    ensures st.record == r.(finalizedIn := if b in r.seenInBlocks then Some(b) else r.finalizedIn)
    ensures b !in r.seenInBlocks || r.finalizedIn == Some(b) ==> st.log == []
    ensures b in r.seenInBlocks && r.finalizedIn != Some(b) && !Found(api, b, r.hash) ==>
      st.log == Query(api, b, r.hash).calls
    ensures b in r.seenInBlocks && r.finalizedIn != Some(b) && Found(api, b, r.hash) ==>
      st.log == Query(api, b, r.hash).calls + [TxDone(r.hash, Query(api, b, r.hash).state.value)]
  {
    if b in r.seenInBlocks && r.finalizedIn != Some(b) then
      var probe := Query(api, b, r.hash);
      var done := if probe.state.Some? then [TxDone(r.hash, probe.state.value)] else [];
      Step(r.(finalizedIn := Some(b)), probe.calls + done)
    else Step(r, [])
  }

  /** Store the record of `st` at position `k` and append its interactions. */
  function Commit(s: Snapshot, k: nat, st: Step): Snapshot
    requires k < |s.txQueue|
  {
    Snapshot(s.txQueue[k := st.record], s.seenBlocks, s.trace + st.log)
  }

  /** `settleTxInBlock(t, b)`: `getTx(t)`, then the settle step on that record. */
  function SettleTx(s: Snapshot, t: Hash, b: Hash, api: ChainApi): (r: Snapshot)
    ensures Hashes(r.txQueue) == Hashes(Register(s.txQueue, t))
    ensures r.seenBlocks == s.seenBlocks
    ensures var q := Register(s.txQueue, t);
            var k := IndexOf(Hashes(q), t).value;
            && |r.txQueue| == |q|
            && (forall i :: 0 <= i < |q| && i != k ==> r.txQueue[i] == q[i])
            && r.txQueue[k] == q[k].(seenInBlocks := q[k].seenInBlocks + if Found(api, b, t) then {b} else {})
            && (b in q[k].seenInBlocks ==> r == Snapshot(q, s.seenBlocks, s.trace))
            && (b !in q[k].seenInBlocks && !Found(api, b, t) ==> r.trace == s.trace + Query(api, b, t).calls)
            && (b !in q[k].seenInBlocks && Found(api, b, t) ==>
                  r.trace == s.trace + Query(api, b, t).calls + [TxSettled(t, Query(api, b, t).state.value)])
  {
    var q := Register(s.txQueue, t);
    var k := IndexOf(Hashes(q), t).value;
    Commit(Snapshot(q, s.seenBlocks, s.trace), k, SettleStep(q[k], b, api))
  }

  /** The blocks of `bs` in which the query for `t` returns a state. */
  ghost function FoundIn(bs: seq<Hash>, t: Hash, api: ChainApi): set<Hash> {
    set x | x in bs && Found(api, x, t)
  }

  /** `onNewTx`'s loop: settle record `k` against each block of `bs`, in order. */
  function Across(s: Snapshot, k: nat, bs: seq<Hash>, api: ChainApi): (r: Snapshot)
    requires k < |s.txQueue|
    ensures Hashes(r.txQueue) == Hashes(s.txQueue)
    ensures r.seenBlocks == s.seenBlocks
    ensures forall i :: 0 <= i < |s.txQueue| && i != k ==> r.txQueue[i] == s.txQueue[i]
    ensures s.trace <= r.trace
    ensures r.txQueue[k] == s.txQueue[k].(seenInBlocks := s.txQueue[k].seenInBlocks + FoundIn(bs, s.txQueue[k].hash, api))
    decreases |bs|
  {
    if bs == [] then
      assert FoundIn(bs, s.txQueue[k].hash, api) == {};
      s
    else
      var prefix := bs[..|bs| - 1];
      var prev := Across(s, k, prefix, api);
      var t := s.txQueue[k].hash;
      assert FoundIn(bs, t, api) == FoundIn(prefix, t, api) + if Found(api, bs[|bs| - 1], t) then {bs[|bs| - 1]} else {} by {
        assert bs == prefix + [bs[|bs| - 1]];
      }
      Commit(prev, k, SettleStep(prev.txQueue[k], bs[|bs| - 1], api))
  }

  /** `onNewBlock`'s loop over the first `n` records, each settled against `b`. */
  function SettleSweep(s: Snapshot, n: nat, b: Hash, api: ChainApi): (r: Snapshot)
    requires n <= |s.txQueue|
    ensures Hashes(r.txQueue) == Hashes(s.txQueue)
    ensures r.seenBlocks == s.seenBlocks
    ensures |r.txQueue| == |s.txQueue|
    ensures s.trace <= r.trace
  {
    if n == 0 then s
    else
      var prev := SettleSweep(s, n - 1, b, api);
      Commit(prev, n - 1, SettleStep(prev.txQueue[n - 1], b, api))
  }

  /** `onFinalized`'s loop over the first `n` records. */
  function FinalizeSweep(s: Snapshot, n: nat, b: Hash, api: ChainApi): (r: Snapshot)
    requires n <= |s.txQueue|
    ensures Hashes(r.txQueue) == Hashes(s.txQueue)
    ensures r.seenBlocks == s.seenBlocks
    ensures |r.txQueue| == |s.txQueue|
    ensures s.trace <= r.trace
  {
    if n == 0 then s
    else
      var prev := FinalizeSweep(s, n - 1, b, api);
      Commit(prev, n - 1, FinalizeStep(prev.txQueue[n - 1], b, api))
  }

  /** After `SettleSweep`, each of the first `n` records has had the settle step, the others none. */
  lemma {:induction false} SettleSweepRecords(s: Snapshot, n: nat, b: Hash, api: ChainApi)
    requires n <= |s.txQueue|
    ensures forall i :: 0 <= i < |s.txQueue| ==>
      SettleSweep(s, n, b, api).txQueue[i] == if i < n then SettleStep(s.txQueue[i], b, api).record else s.txQueue[i]
  {
    if n > 0 {
      SettleSweepRecords(s, n - 1, b, api);
    }
  }

  /** After `FinalizeSweep`, each of the first `n` records has had the finalize step, the others none. */
  lemma {:induction false} FinalizeSweepRecords(s: Snapshot, n: nat, b: Hash, api: ChainApi)
    requires n <= |s.txQueue|
    ensures forall i :: 0 <= i < |s.txQueue| ==>
      FinalizeSweep(s, n, b, api).txQueue[i] == if i < n then FinalizeStep(s.txQueue[i], b, api).record else s.txQueue[i]
  {
    if n > 0 {
      FinalizeSweepRecords(s, n - 1, b, api);
    }
  }

  /** `onNewTx`: register the transaction, then settle it against every block of the ledger. */
  function OnNewTx(s: Snapshot, t: Hash, api: ChainApi): (r: Snapshot)
    ensures r.seenBlocks == s.seenBlocks
    ensures Hashes(r.txQueue) == Hashes(Register(s.txQueue, t))
    ensures var q := Register(s.txQueue, t);
            var k := IndexOf(Hashes(q), t).value;
            && |r.txQueue| == |q|
            && r.txQueue[k] == q[k].(seenInBlocks := q[k].seenInBlocks + FoundIn(s.seenBlocks, t, api))
            && forall i :: 0 <= i < |q| && i != k ==> r.txQueue[i] == q[i]
  {
    var q := Register(s.txQueue, t);
    Across(Snapshot(q, s.seenBlocks, s.trace), IndexOf(Hashes(q), t).value, s.seenBlocks, api)
  }

  /** `onNewBlock`: append the block, then settle every known record against it. */
  function OnNewBlock(s: Snapshot, b: Hash, api: ChainApi): (r: Snapshot)
    ensures r.seenBlocks == s.seenBlocks + [b]
    ensures Hashes(r.txQueue) == Hashes(s.txQueue)
    ensures forall i :: 0 <= i < |s.txQueue| ==> r.txQueue[i] == SettleStep(s.txQueue[i], b, api).record
  {
    var s0 := Snapshot(s.txQueue, s.seenBlocks + [b], s.trace);
    SettleSweepRecords(s0, |s.txQueue|, b, api);
    SettleSweep(s0, |s.txQueue|, b, api)
  }

  /** `onFinalized`: the finalize step on every known record. */
  function OnFinalized(s: Snapshot, b: Hash, api: ChainApi): (r: Snapshot)
    ensures r.seenBlocks == s.seenBlocks
    ensures |r.txQueue| == |s.txQueue|
    ensures forall i :: 0 <= i < |s.txQueue| ==> r.txQueue[i] == FinalizeStep(s.txQueue[i], b, api).record
  {
    FinalizeSweepRecords(s, |s.txQueue|, b, api);
    FinalizeSweep(s, |s.txQueue|, b, api)
  }

  /**
   * The dispatcher on `event.type`. Only `newBlock` extends the ledger, only
   * `newTransaction` can add a record, and no event takes back a report.
   */
  function Next(s: Snapshot, e: Event, api: ChainApi): (r: Snapshot)
    ensures s.trace <= r.trace
    ensures r.seenBlocks == if e.NewBlock? then s.seenBlocks + [e.blockHash] else s.seenBlocks
    ensures Hashes(r.txQueue) == if e.NewTransaction? then Hashes(Register(s.txQueue, e.value)) else Hashes(s.txQueue)
  {
    match e
    case NewTransaction(t) => OnNewTx(s, t, api)
    case NewBlock(b) => OnNewBlock(s, b, api)
    case Finalized(b) => OnFinalized(s, b, api)
  }

  /** Handle a sequence of deliveries one at a time, in order. */
  function Run(s: Snapshot, ds: seq<Delivery>): Snapshot
    decreases |ds|
  {
    if ds == [] then s
    else Next(Run(s, ds[..|ds| - 1]), ds[|ds| - 1].event, ds[|ds| - 1].api)
  }
}
