/**
 * The tracker's two collaborators: the chain-query API it asks about a
 * (block, transaction) pair, and the output sink it reports to.  Both are
 * outside the tracker; here the API is a pair of total functions and every
 * call to either collaborator is an entry of an interaction trace.
 */
module Collaborators {
  import opened Wrappers

  /** Block and transaction identifiers are opaque strings. */
  type Hash = string

  /** One answer of the chain-query API: a boolean, or a thrown error. */
  datatype Answer = Answered(value: bool) | NotFound

  /**
   * The chain-query API as it answers while one event is handled.
   * `NotFound` stands for any throw: the tracker's bare `catch` does not tell
   * a missing transaction from another failure.
   */
  datatype ChainApi = ChainApi(
    isTxValid: (Hash, Hash) -> Answer,       // (blockHash, txHash)
    isTxSuccessful: (Hash, Hash) -> Answer)  // (blockHash, txHash)

  /** The state reported with `onTxSettled` and `onTxDone`. */
  datatype SettlementState =
    | TxValid(blockHash: Hash, successful: bool)
    | TxInvalid(blockHash: Hash)

  /** One observable step of the tracker: a query it makes or a report it emits. */
  datatype Interaction =
    | IsTxValid(blockHash: Hash, txHash: Hash)
    | IsTxSuccessful(blockHash: Hash, txHash: Hash)
    | TxSettled(txHash: Hash, state: SettlementState)
    | TxDone(txHash: Hash, state: SettlementState)

  /** What one attempt to query a pair does: the calls it makes and, unless a call threw, the state. */
  datatype Probe = Probe(calls: seq<Interaction>, state: Option<SettlementState>)

  /**
   * The `try` block shared by settling and finalizing: ask whether the
   * transaction is valid in the block and, only if it is, whether it
   * succeeded; a throw from either call abandons the attempt.
   */
  function Query(api: ChainApi, blockHash: Hash, txHash: Hash): (p: Probe)
    ensures |p.calls| >= 1 && p.calls[0] == IsTxValid(blockHash, txHash)
    ensures IsTxSuccessful(blockHash, txHash) in p.calls <==> api.isTxValid(blockHash, txHash) == Answered(true)
    ensures p.calls == [IsTxValid(blockHash, txHash)] || p.calls == [IsTxValid(blockHash, txHash), IsTxSuccessful(blockHash, txHash)]
    ensures p.state.None? <==>
      api.isTxValid(blockHash, txHash) == NotFound ||
      (api.isTxValid(blockHash, txHash) == Answered(true) && api.isTxSuccessful(blockHash, txHash) == NotFound)
    ensures p.state.Some? ==> p.state.value.blockHash == blockHash
    ensures p.state == Some(TxInvalid(blockHash)) <==> api.isTxValid(blockHash, txHash) == Answered(false)
    ensures p.state.Some? && p.state.value.TxValid? ==>
      api.isTxSuccessful(blockHash, txHash) == Answered(p.state.value.successful)
  {
    match api.isTxValid(blockHash, txHash)
    case NotFound => Probe([IsTxValid(blockHash, txHash)], None)
    case Answered(false) => Probe([IsTxValid(blockHash, txHash)], Some(TxInvalid(blockHash)))
    case Answered(true) =>
      var calls := [IsTxValid(blockHash, txHash), IsTxSuccessful(blockHash, txHash)];
      match api.isTxSuccessful(blockHash, txHash)
      case NotFound => Probe(calls, None)
      case Answered(ok) => Probe(calls, Some(TxValid(blockHash, ok)))
  }

  /** The query for a pair returns a state: neither call threw. */
  predicate Found(api: ChainApi, blockHash: Hash, txHash: Hash) {
    Query(api, blockHash, txHash).state.Some?
  }

  /** Whether a trace entry is a query call (as opposed to a report). */
  predicate IsCall(a: Interaction) {
    a.IsTxValid? || a.IsTxSuccessful?
  }
}
