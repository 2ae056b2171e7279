# Mocknet burnchain controller, modelled in Dafny

This project models `MocknetController` from the Stacks node: an in-process
burnchain simulator used in tests and development in place of a real
proof-of-work chain. The controller:

- keeps an optional connection to the sortition ledger (`db`), an optional
  cached chain tip (`chain_tip`) and a FIFO queue of submitted burnchain
  operations (`queued_operations`);
- `start` connects to the ledger and caches its canonical tip as the
  genesis tip, with an empty state transition;
- `submit_operation` appends an operation to the queue and always returns
  `true`;
- `sync` mines one simulated block:
  - it builds the next header from the cached tip. The height is one more
    and the hash is SHA-256 of the parent hash;
  - it drains the queue front to back and stamps the k-th operation with
    vtxindex k, txid `SHA-256("{height}::{k}")`, and the new block's height
    and hash;
  - the ledger processes and commits the block, and the tip it returns
    replaces the cached one.

Layout, one module per file:

| file | module | contents |
|---|---|---|
| `wrappers.dfy` | `Wrappers` | `Option`, `Result` |
| `hashes.dfy` | `Hashes` | bytes, 32-byte digests, `BurnchainHeaderHash`, `Txid` |
| `txid.dfy` | `TxidDerivation` | the `"{}::{}"` txid preimage, with its injectivity proved |
| `operations.dfy` | `Operations` | the three operation kinds and re-stamping |
| `blocks.dfy` | `Blocks` | headers, bitcoin blocks, snapshots, transitions, tips |
| `header_chainer.dfy` | `HeaderChainer` | `build_next_block_header` |
| `operation_stamper.dfy` | `OperationStamper` | the stamping of a drained queue, as a specification |
| `sortition.dfy` | `Sortition` | the ledger's entry points, as function values |
| `mocknet_controller.dfy` | `Mocknet` | the controller class and its `sync` specification |

The source panics on misuse (`unreachable!`, `expect`) and on ledger
failures (`panic!`, `unwrap`). The model returns these as a `Fault` result
(`Err`) instead of forbidding them with preconditions. The controller is
left in the state it had at the point of the panic. In particular, `sync`
drains the queue before it calls the ledger, so a block the ledger rejects
loses its operations. `Sync`'s contract states this.

SHA-256 and the ledger are values supplied to the constructor
(`sha256`, `ledger`). Their code is not part of this model. The two
wall-clock readings (`get_epoch_time_secs()` and `Instant::now()`) are a
`Clock` parameter.

A second `start` is not guarded: it reconnects and overwrites `db` and
`chain_tip`. `Start` models exactly that.

## Model

| member | source | states |
|---|---|---|
| `TxidDerivation.DecimalDigits` | testnet/stacks-node/src/burnchains/mocknet_controller.rs:130 | `{}` renders a number as a non-empty string of ASCII digits with no leading zero (a leading `0` only in `"0"` itself) |
| `TxidDerivation.DecimalRoundTrip` | testnet/stacks-node/src/burnchains/mocknet_controller.rs:130 | reading the rendered digits back gives the number |
| `TxidDerivation.DecimalDigitsInjective` | testnet/stacks-node/src/burnchains/mocknet_controller.rs:130 | two numbers render alike if and only if they are equal |
| `TxidDerivation.SplitAtSeparator` | testnet/stacks-node/src/burnchains/mocknet_controller.rs:130 | two digit strings joined by `::` split back into the same two strings |
| `TxidDerivation.TxidPreimageInjective` | testnet/stacks-node/src/burnchains/mocknet_controller.rs:130 | the `"{height}::{vtxindex}"` bytes are equal if and only if height and vtxindex both are |
| `Operations.Restamp` | testnet/stacks-node/src/burnchains/mocknet_controller.rs:131-176 | the rebuilt operation keeps its kind and every payload field; its txid, vtxindex, block height and burn header hash are the given ones |
| `Operations.PayloadAndStampDetermineOperation` | testnet/stacks-node/src/burnchains/mocknet_controller.rs:131-176 | an operation is determined by its payload and its four stamp fields, so re-stamping changes nothing else |
| `Operations.RestampOverwrites` | testnet/stacks-node/src/burnchains/mocknet_controller.rs:131-176 | stamping twice equals stamping once with the last stamp; stamping with an operation's own stamp returns it unchanged |
| `HeaderChainer.BuildNextBlockHeader` | testnet/stacks-node/src/burnchains/mocknet_controller.rs:52-63 | next height is current + 1; parent hash is the current hash; the new hash is SHA-256 of the current hash; no transactions; timestamp is the clock reading. The function is total, so the `from_bytes(..).unwrap()` on the 32-byte digest cannot fail |
| `HeaderChainer.HeaderDependsOnlyOnHeightAndHash` | testnet/stacks-node/src/burnchains/mocknet_controller.rs:52-63 | snapshots with the same height and hash give the same header; the new block hash depends on the parent hash alone |
| `OperationStamper.StampOperations` | testnet/stacks-node/src/burnchains/mocknet_controller.rs:126-179 | one stamped operation per queued operation; what each carries is stated by the lemmas below, in particular a txid that is SHA-256 of its own height and vtxindex (`StampedOperationsBelongToBlock`) |
| `OperationStamper.StampingPreservesQueue` | testnet/stacks-node/src/burnchains/mocknet_controller.rs:129-177 | the i-th stamped operation is the i-th queued one with only its stamp replaced: nothing is dropped, added or reordered |
| `OperationStamper.StampedOperationsBelongToBlock` | testnet/stacks-node/src/burnchains/mocknet_controller.rs:130-176 | every stamped operation carries the next header's height and hash, and its txid is SHA-256 of `"{height}::{vtxindex}"` for its own height and vtxindex |
| `OperationStamper.VtxindexesAreOneToN` | testnet/stacks-node/src/burnchains/mocknet_controller.rs:126-178 | the vtxindexes in drain order are exactly 1, 2, ..., N for a queue of N operations, pairwise distinct |
| `OperationStamper.TxidsIgnorePayload` | testnet/stacks-node/src/burnchains/mocknet_controller.rs:130 | txids depend on height and position only: equal-length queues stamped into blocks of the same height get equal txids, whatever their contents and whatever the blocks' hashes and timestamps |
| `OperationStamper.TxidsDistinctWithinBlock` | testnet/stacks-node/src/burnchains/mocknet_controller.rs:129-130 | the txids in one block are pairwise distinct unless SHA-256 collides on two of that block's preimages |
| `Mocknet.CommitBlock` | testnet/stacks-node/src/burnchains/mocknet_controller.rs:182-196 | without a connection: `unreachable`; succeeds exactly when begin, process and commit all succeed, and then returns the ledger's snapshot and transition unchanged; any ledger error aborts |
| `Mocknet.Advance` | testnet/stacks-node/src/burnchains/mocknet_controller.rs:121-206 | a sync succeeds exactly when the ledger commits the block stamped from the queue; the new tip is the ledger's snapshot and transition, received at the sync's clock reading |
| `Mocknet.ReplayFollowsHashChain` | testnet/stacks-node/src/burnchains/mocknet_controller.rs:52-63 | with a ledger that records the headers it is given, k successful syncs raise the height by k and give the k-th iterated hash, whatever the operations |
| `Mocknet.SameStartSameChain` | testnet/stacks-node/src/burnchains/mocknet_controller.rs:52-63 | two runs from the same tip with equally many successful syncs reach the same height and hash, even with different operations |
| `Mocknet.MocknetController.constructor` | testnet/stacks-node/src/burnchains/mocknet_controller.rs:43-49 | a new controller has no connection, no tip and an empty queue |
| `Mocknet.MocknetController.SortdbRef` | testnet/stacks-node/src/burnchains/mocknet_controller.rs:68-70 | gives the connection if there is one; otherwise fails with the `expect` message |
| `Mocknet.MocknetController.SortdbMut` | testnet/stacks-node/src/burnchains/mocknet_controller.rs:72-79 | gives the connection if there is one; otherwise fails as `unreachable` |
| `Mocknet.MocknetController.GetChainTip` | testnet/stacks-node/src/burnchains/mocknet_controller.rs:81-90 | gives the cached tip if there is one; otherwise fails as `unreachable` |
| `Mocknet.MocknetController.Start` | testnet/stacks-node/src/burnchains/mocknet_controller.rs:92-114 | a failed connect or canonical-tip query is fatal and changes nothing; otherwise sets both fields, caches and returns the canonical snapshot with empty burn distribution, accepted ops and consumed keys |
| `Mocknet.MocknetController.SubmitOperation` | testnet/stacks-node/src/burnchains/mocknet_controller.rs:116-119 | returns true and appends the operation at the back of the queue, leaving earlier entries unchanged |
| `Mocknet.MocknetController.Sync` | testnet/stacks-node/src/burnchains/mocknet_controller.rs:121-207 | before `start`: fails as `unreachable` and changes nothing; otherwise empties the queue, hands the ledger the queue stamped 1..N, and replaces the cached tip with the committed one, or keeps it if the block is aborted; once started, only a ledger error can abort it, never the `unreachable!` on a missing connection |

## Left out

- The sortition ledger itself: `SortitionDB::connect`, `get_canonical_burn_chain_tip_stubbed`, `SortitionHandleTx::begin`, `process_block_ops` and `commit` are function values with no modelled behaviour. Their code is not part of this model. The lemmas that need a ledger property say so in their preconditions (`Sortition.RecordsHeader`).
- SHA-256 (`Sha256Sum::from_data`) is a function parameter. Txid distinctness is proved assuming no collision among the preimages of the one block.
- The wall-clock readings `get_epoch_time_secs()` and `Instant::now()` are parameters (`Clock`), not clocks.
- `generic`, `new`'s `Burnchain::new` call and the configuration paths are not modelled. This covers its "Error while instantiating burnchain" panic and the boxing into a `BurnchainController` trait object. The constructor takes the burnchain parameters and the ledger file path as given. `debug!` logging is left out.
- `bootstrap_chain` is a no-op that exists only in test builds.
- The `_op_signer` argument of `submit_operation` is never used, so `SubmitOperation` does not take it.
- Mocknet.MocknetController.SortdbMut: returns the connection handle by value. Mutation through the returned `&mut` reference happens inside the ledger, which is outside this model.
- Mocknet.MocknetController.Sync: does not model the 32-bit width of `vtxindex` or the 64-bit width of block heights. Overflow would need more than 2^32 - 2 queued operations or a height of 2^64 - 1. Wrap-around and overflow panics are therefore not modelled.
- Panics are returned as a `Fault` value. Unwinding and termination of the process are not modelled.
- `BlockSnapshot` keeps only height, burn header hash and sortition id, the fields this controller reads. `BurnSamplePoint` and `BitcoinTransaction` keep a few representative fields. Payload fields are byte strings and unbounded naturals, because the controller only copies them.
- Concurrency: none in the source. Every method runs with exclusive access to the controller.
