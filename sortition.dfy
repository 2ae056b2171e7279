/** The persistent sortition ledger the controller drives. Its code is not
    part of this model: each of its entry points is a function value
    supplied when the controller is built. */
module Sortition {

  import opened Wrappers
  import opened Hashes
  import opened Operations
  import opened Blocks

  /** A ledger error, opaque to the controller. */
  datatype DbError = DbError(code: nat)

  /** A connection to the ledger (`SortitionDB`). */
  datatype SortitionDB = SortitionDB(handle: nat)

  /** An open ledger transaction (`SortitionHandleTx`). */
  datatype SortitionHandleTx = SortitionHandleTx(handle: nat)

  datatype SortitionLedger = SortitionLedger(
    /** `SortitionDB::connect(path, first_block_height, first_burn_hash, first_burn_timestamp, readwrite)` */
    connect: (string, nat, BurnchainHeaderHash, nat, bool) -> Result<SortitionDB, DbError>,
    /** `SortitionDB::get_canonical_burn_chain_tip_stubbed` */
    canonicalTipStubbed: SortitionDB -> Result<BlockSnapshot, DbError>,
    /** `SortitionHandleTx::begin(db, parent_sortition_id)` */
    begin: (SortitionDB, SortitionId) -> Result<SortitionHandleTx, DbError>,
    /** `process_block_ops(burnchain, parent_snapshot, header, ops)`: decides
        which operations are accepted and yields the new snapshot. */
    processBlockOps: (SortitionHandleTx, Burnchain, BlockSnapshot, BurnchainBlockHeader, seq<BlockstackOperationType>)
                       -> Result<(BlockSnapshot, BurnchainStateTransition), DbError>,
    /** `SortitionHandleTx::commit` */
    commit: SortitionHandleTx -> Result<(), DbError>)

  /** A ledger whose snapshot for a processed block records that block's
      height and hash, as a real sortition ledger does. */
  ghost predicate RecordsHeader(ledger: SortitionLedger) {
    forall tx, burnchain, parent, header, ops ::
      ledger.processBlockOps(tx, burnchain, parent, header, ops).Ok? ==>
        && ledger.processBlockOps(tx, burnchain, parent, header, ops).value.0.blockHeight == header.blockHeight
        && ledger.processBlockOps(tx, burnchain, parent, header, ops).value.0.burnHeaderHash == header.blockHash
  }
}
