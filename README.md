# Transaction-settlement tracker, modelled and verified in Dafny

This project models the settlement tracker of `src/solutions/pallasite99.ts`:
the object that the `pallasite99` factory returns, which follows a stream of
blockchain events and reports, for every transaction, the blocks it settled
in and the block in which it was finalized.

The tracker keeps two collections:

- `txQueue`, one record per transaction hash, holding the set
  `seenInBlocks` of blocks the transaction was settled in and an optional
  `finalizedIn`;
- `seenBlocks`, the list of block hashes in arrival order, duplicates
  included.

It reacts to three events: `newTransaction` (settle the transaction against
every known block, in ledger order), `newBlock` (append the block, then settle
every known transaction against it) and `finalized` (report "done" for each
transaction settled in that block whose last `finalizedIn` is another block
or none). Settling and finalizing ask the chain-query API `isTxValid` and,
only for a valid transaction, `isTxSuccessful`; a throw from either call
abandons the attempt silently.

## How the model is built

- `collaborators.dfy` (module `Collaborators`): the chain-query API as two
  total functions that return `Answered(bool)` or `NotFound`, where
  `NotFound` stands for any throw. `Query` is the `try` block that settling
  and finalizing share. `Interaction` is one entry of the trace: a call to
  `isTxValid` or `isTxSuccessful`, or an `onTxSettled` or `onTxDone`
  report.
- `settlement.dfy` (module `Settlement`): the tracker's state as a value
  (`Snapshot` = `txQueue`, `seenBlocks`, trace) and each handler as a
  function from one snapshot to the next. A per-record step (`SettleStep`,
  `FinalizeStep`) is folded over the ledger (`Across`) or over the queue
  (`SettleSweep`, `FinalizeSweep`).
- `tracker.dfy` (module `SettlementTracker`): the class `Tracker`. It has the
  two collections as fields and a ghost `trace` field. Its methods update
  the fields in place with the same loops as the source, and each handler is
  proved to produce exactly the snapshot that `Settlement` describes. The
  class invariant `Valid()` is `Inv` of the current snapshot.
- `invariants.dfy` (module `SettlementInvariants`): the invariant `Inv` and
  its preservation by every step, every handler and every run of events.
- `properties.dfy` (module `SettlementProperties`): properties that relate
  several events, and end-to-end scenarios.

The API is passed to each handler call. It stands for how the API answers
while that event is handled, so a run of events may see the chain change
between events.

Where the code and a natural reading of its intent differ, the model
follows the code:

- The bare `catch` (src/solutions/pallasite99.ts:51 and :92) also swallows
  a throw from `isTxSuccessful`. So a valid transaction whose success query
  throws is treated like one not found: no report, and no block marked as
  seen.
- The finalization guard (src/solutions/pallasite99.ts:75) compares only
  against the last `finalizedIn`. So a transaction settled in two blocks,
  finalized in b1, then b2, then b1 again, is reported done in b1 twice
  (`RefinalizeRepeatsDone`). "Done at most once per pair" therefore does not
  hold in general. What does hold is that a repeated `finalized` event for
  the same block is a no-op, even if the chain answers differently the
  second time (`FinalizeTwice`).

## Model

| member | source | states |
|---|---|---|
| `Collaborators.Query` | src/solutions/pallasite99.ts:37-47 | `isTxValid` is always asked first. `isTxSuccessful` is asked only when the transaction is valid. The attempt yields no state exactly when one of the calls throws. Otherwise the state names the queried block; it is `invalid` iff validity answered false, and for a valid transaction it carries `isTxSuccessful`'s answer |
| `Settlement.IndexOf` | src/solutions/pallasite99.ts:23 | the lookup finds the first position holding the hash, and finds nothing exactly when no record has it |
| `Settlement.IndexOfUnique` | src/solutions/pallasite99.ts:23 | in a queue of unique hashes, looking up a record's hash returns that record's position |
| `Settlement.Register` | src/solutions/pallasite99.ts:22-29 | `getTx` leaves the queue unchanged when the hash is present. Otherwise it appends exactly one record with an empty `seenInBlocks` and no `finalizedIn`. Afterwards the hash is present, and unique hashes stay unique |
| `Settlement.SettleStep` | src/solutions/pallasite99.ts:33-53 | a block already in `seenInBlocks` causes no query, no report and no change. Otherwise the queries are made; if they throw, nothing is reported and the record is unchanged. If they succeed, the block is added to `seenInBlocks` and exactly one `onTxSettled(hash, state)` follows the queries |
| `Settlement.FinalizeStep` | src/solutions/pallasite99.ts:75-95 | when the record was settled in the block and its `finalizedIn` is another block or none, `finalizedIn` becomes the block whether or not the query throws, and `onTxDone` is reported only if the query answers. In every other case there is no query, no report and no change. `seenInBlocks` is never touched |
| `Settlement.SettleTx` | src/solutions/pallasite99.ts:32-53 | `settleTxInBlock` registers the hash first and leaves the ledger and every other record unchanged. When the record already holds the block, nothing changes at all: no query, no report. Otherwise the queries are made, and the block is added and one `onTxSettled(hash, state)` follows them exactly when the query answers |
| `Settlement.Across` | src/solutions/pallasite99.ts:59-61 | settling one record against a list of blocks in order adds exactly the blocks whose query answers, leaves every other record, the hashes and the ledger unchanged, and only extends the trace |
| `Settlement.SettleSweep` | src/solutions/pallasite99.ts:67-69 | the settling loop over the queue keeps the hashes, the ledger and the queue length, and only extends the trace |
| `Settlement.FinalizeSweep` | src/solutions/pallasite99.ts:74-96 | the finalizing loop over the queue keeps the hashes, the ledger and the queue length, and only extends the trace |
| `Settlement.SettleSweepRecords` | src/solutions/pallasite99.ts:67-69 | after the loop has visited the first n records, each of them has had exactly one settle step against the block and the rest are untouched |
| `Settlement.FinalizeSweepRecords` | src/solutions/pallasite99.ts:74-96 | after the loop has visited the first n records, each of them has had exactly one finalize step and the rest are untouched |
| `Settlement.OnNewTx` | src/solutions/pallasite99.ts:57-62 | `onNewTx` keeps the ledger. It registers the transaction, and that record gains exactly the ledger blocks whose query answers; every other record is unchanged |
| `Settlement.OnNewBlock` | src/solutions/pallasite99.ts:65-70 | `onNewBlock` appends the block at the end of the ledger, even when it is a duplicate, and gives every record one settle step against that block only. The hashes are unchanged |
| `Settlement.OnFinalized` | src/solutions/pallasite99.ts:73-97 | `onFinalized` gives every record one finalize step and keeps the ledger and the queue length |
| `Settlement.Initial` | src/solutions/pallasite99.ts:12-19 | a fresh tracker knows no transaction (every lookup finds nothing), has an empty ledger and has reported nothing |
| `Settlement.Next` | src/solutions/pallasite99.ts:100-112 | dispatching an event never takes back a report; only `newBlock` extends the ledger, by exactly its block; only `newTransaction` can add a record, exactly as `getTx` would |
| `SettlementInvariants.SettleStepKeepsInv` | src/solutions/pallasite99.ts:33-53 | a settle step keeps the invariant: unique hashes; `finalizedIn` within `seenInBlocks`; every seen block is in the ledger and was reported settled; every settled report matches a seen block; no pair is settled twice; "done" only after "settled" |
| `SettlementInvariants.FinalizeStepKeepsInv` | src/solutions/pallasite99.ts:75-95 | a finalize step keeps the invariant. In particular, a "done" report for a pair is preceded by the "settled" report for that pair |
| `SettlementInvariants.SettleSweepKeepsInv` | src/solutions/pallasite99.ts:67-69 | the settling loop over the queue keeps the invariant |
| `SettlementInvariants.FinalizeSweepKeepsInv` | src/solutions/pallasite99.ts:74-96 | the finalizing loop over the queue keeps the invariant |
| `SettlementInvariants.AcrossKeepsInv` | src/solutions/pallasite99.ts:59-61 | settling one record against blocks of the ledger keeps the invariant |
| `SettlementInvariants.OnNewTxKeepsInv` | src/solutions/pallasite99.ts:57-62 | `onNewTx` keeps the invariant |
| `SettlementInvariants.OnNewBlockKeepsInv` | src/solutions/pallasite99.ts:65-70 | `onNewBlock` keeps the invariant |
| `SettlementInvariants.OnFinalizedKeepsInv` | src/solutions/pallasite99.ts:73-97 | `onFinalized` keeps the invariant |
| `SettlementInvariants.NextKeepsInv` | src/solutions/pallasite99.ts:100-112 | every event kind keeps the invariant |
| `SettlementInvariants.RunKeepsInv` | src/solutions/pallasite99.ts:100-112 | any sequence of events keeps the invariant, whatever the API answers at each event |
| `SettlementInvariants.Reachable` | src/solutions/pallasite99.ts:10-112 | in every state a fresh tracker can reach: hashes in `txQueue` are unique; no (transaction, block) pair is reported settled twice; "done" is reported only after "settled" for the same pair; `finalizedIn` is always a block in `seenInBlocks`; every seen block is in the ledger and was reported settled |
| `SettlementInvariants.SettledIffRecorded` | src/solutions/pallasite99.ts:49-50 | in a consistent state, a pair was reported settled iff the transaction's record holds the block in `seenInBlocks` |
| `SettlementProperties.NextGrows` | src/solutions/pallasite99.ts:22-97 | no handler removes anything. Records keep their position and hash, `seenInBlocks` sets only grow, the ledger only grows at its end, and the trace only grows |
| `SettlementProperties.SettleTxTwice` | src/solutions/pallasite99.ts:32-34 | once a pair has been settled, settling it again makes no query, no report and no change, whatever the chain answers then |
| `SettlementProperties.CrossOrderQueues` | src/solutions/pallasite99.ts:57-70 | `newTransaction(t)` then `newBlock(b)` ends in the same `txQueue` and ledger as `newBlock(b)` then `newTransaction(t)` |
| `SettlementProperties.CrossOrderAt` | src/solutions/pallasite99.ts:57-70 | each single record ends the same in either order |
| `SettlementProperties.CrossOrderPairs` | src/solutions/pallasite99.ts:57-70 | in either order, the same (transaction, block) pairs are reported settled |
| `SettlementProperties.CrossOrderReports` | src/solutions/pallasite99.ts:57-70 | in either order, the same settled reports are emitted, valid/invalid/successful state included |
| `SettlementProperties.AcrossReports` | src/solutions/pallasite99.ts:59-61 | every settled report made while settling a transaction across the ledger carries the state the API gives for that pair |
| `SettlementProperties.SettleSweepReports` | src/solutions/pallasite99.ts:67-69 | every settled report made while settling the queue against a block carries the state the API gives for that pair |
| `SettlementProperties.FinalizeSweepDone` | src/solutions/pallasite99.ts:74-96 | every done report the finalizing loop makes names the finalized block, carries the state the API gives for that pair, and belongs to a visited record settled in the block whose `finalizedIn` was another block or none |
| `SettlementProperties.FinalizeSweepDoneComplete` | src/solutions/pallasite99.ts:74-96 | every visited record settled in the block, with `finalizedIn` another block or none, whose query answers, is reported done with the API's state |
| `SettlementProperties.OnFinalizedReports` | src/solutions/pallasite99.ts:73-97 | the done reports of `onFinalized(b)` are exactly those of the records it acts on whose query answers: each names `b` and carries the API's state, and each such record gets one |
| `SettlementProperties.NotDueNotDone` | src/solutions/pallasite99.ts:75 | with unique hashes, a transaction not settled in `b`, or already last finalized in `b`, gets no done report from `onFinalized(b)` |
| `SettlementProperties.FinalizeTwice` | src/solutions/pallasite99.ts:75-76 | a second `finalized` event for the same block reports nothing and changes nothing, whatever the chain answers the second time |
| `SettlementProperties.UnseenFinalizeNoop` | src/solutions/pallasite99.ts:74-75 | a `finalized` event for a block no transaction was settled in reports nothing and sets no `finalizedIn` |
| `SettlementProperties.UnknownBlockFinalizeNoop` | src/solutions/pallasite99.ts:74-75 | in a consistent state, finalizing a block that never arrived is a no-op |
| `SettlementProperties.RefinalizeRepeatsDone` | src/solutions/pallasite99.ts:75-76 | because the guard only remembers the last `finalizedIn`, finalizing b1, then b2, then b1 again reports "done" in b1 twice |
| `SettlementProperties.ScenarioSettleThenDone` | src/solutions/pallasite99.ts:57-97 | block B1, then transaction T1 valid and successful in it: exactly the two queries and one `onTxSettled("T1", valid in B1, successful)`. `finalized("B1")` then reports exactly one `onTxDone` and sets `finalizedIn`; a second `finalized("B1")` changes nothing |
| `SettlementProperties.ScenarioInvalid` | src/solutions/pallasite99.ts:37-50 | an invalid transaction is reported settled as invalid, and `isTxSuccessful` is never called |
| `SettlementProperties.ScenarioNotFound` | src/solutions/pallasite99.ts:36-53 | when the query throws, only the `isTxValid` call appears: nothing is reported and nothing is marked seen |
| `SettlementTracker.Tracker.constructor` | src/solutions/pallasite99.ts:12-19 | a new tracker has an empty queue, an empty ledger and an empty trace, and satisfies the invariant |
| `SettlementTracker.Tracker.Find` | src/solutions/pallasite99.ts:23 | the linear scan returns the first position holding the hash, or none |
| `SettlementTracker.Tracker.GetTx` | src/solutions/pallasite99.ts:22-29 | the queue becomes `Register` of the old queue, the ledger and the trace do not change, and the returned position holds the hash |
| `SettlementTracker.Tracker.SettleTxInBlock` | src/solutions/pallasite99.ts:32-54 | the in-place update produces exactly `SettleTx` of the old state |
| `SettlementTracker.Tracker.OnNewTx` | src/solutions/pallasite99.ts:57-62 | the loop over `seenBlocks` produces exactly `OnNewTx` of the old state and keeps the invariant |
| `SettlementTracker.Tracker.OnNewBlock` | src/solutions/pallasite99.ts:65-70 | the push and the loop over `txQueue` produce exactly `OnNewBlock` of the old state and keep the invariant |
| `SettlementTracker.Tracker.OnFinalized` | src/solutions/pallasite99.ts:73-97 | the loop that assigns `finalizedIn` and queries produces exactly `OnFinalized` of the old state and keeps the invariant |
| `SettlementTracker.Tracker.Handle` | src/solutions/pallasite99.ts:100-112 | dispatching on the event kind produces exactly `Next` of the old state and keeps the invariant |

## Left out

- The `API`, `OutputAPI` and event types imported from `../types`
  (src/solutions/pallasite99.ts:1-8) are not part of this model. The API is
  two total functions, the output sink is the trace, and an event is a
  three-case datatype.
- Exceptions are not modelled as such. Any throw from `isTxValid` or
  `isTxSuccessful` is the single answer `NotFound`, because the bare `catch`
  does not tell a missing transaction from any other failure.
- An API whose answer for the same pair changes while one event is handled
  is not modelled: within one event the API is a fixed function. This
  matters only when a pair is queried twice in one event, for example for a
  block that appears twice in the ledger.
- The factory's closure is not modelled; a `Tracker` object holds the
  state. The API is passed to each handler instead of being captured once at
  construction.
- Re-entrant calls into the tracker from the output sink's callbacks are not
  modelled. The sink only receives reports.
- `SettlementProperties.CrossOrderReports` compares the settled reports as sets. The two
  delivery orders make their queries and reports in different sequences, so
  the traces themselves differ.
