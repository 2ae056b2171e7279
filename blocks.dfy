/** Burnchain blocks, headers, the ledger's snapshot of a block and the
    chain tip the controller publishes. */
module Blocks {

  import opened Hashes
  import opened Operations

  /** The burnchain's network parameters (`Burnchain`); the controller only
      hands them to the ledger. */
  datatype Burnchain = Burnchain(workingDir: string, chainName: string, networkName: string)

  datatype BurnchainBlockHeader = BurnchainBlockHeader(
    blockHeight: nat,
    blockHash: BurnchainHeaderHash,
    parentBlockHash: BurnchainHeaderHash,
    numTxs: nat,
    timestamp: nat)

  /** A transaction carried by a simulated bitcoin block. */
  datatype BitcoinTransaction = BitcoinTransaction(txid: Txid, vtxindex: nat, data: Bytes)

  datatype BitcoinBlock = BitcoinBlock(
    blockHeight: nat,
    blockHash: BurnchainHeaderHash,
    parentBlockHash: BurnchainHeaderHash,
    txs: seq<BitcoinTransaction>,
    timestamp: nat)

  /** `BurnchainBlock::header`: the header of a block counts its transactions. */
  function Header(block: BitcoinBlock): BurnchainBlockHeader {
    BurnchainBlockHeader(block.blockHeight, block.blockHash, block.parentBlockHash, |block.txs|, block.timestamp)
  }

  datatype SortitionId = SortitionId(bytes: Bytes)

  /** The ledger's summary of the chain at one block (`BlockSnapshot`).
      Only the fields this controller reads are modelled. */
  datatype BlockSnapshot = BlockSnapshot(
    blockHeight: nat,
    burnHeaderHash: BurnchainHeaderHash,
    sortitionId: SortitionId)

  datatype BurnSamplePoint = BurnSamplePoint(burns: nat, rangeStart: nat, rangeEnd: nat)

  /** What the ledger reports about the block it just processed. */
  datatype BurnchainStateTransition = BurnchainStateTransition(
    burnDist: seq<BurnSamplePoint>,
    acceptedOps: seq<BlockstackOperationType>,
    consumedLeaderKeys: seq<LeaderKeyRegisterOp>)

  const EmptyTransition: BurnchainStateTransition := BurnchainStateTransition([], [], [])

  /** `BurnchainTip`: a snapshot, the transition that produced it and the
      local time it was received at. */
  datatype BurnchainTip = BurnchainTip(
    blockSnapshot: BlockSnapshot,
    stateTransition: BurnchainStateTransition,
    receivedAt: nat)
}
