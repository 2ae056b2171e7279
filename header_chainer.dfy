/** Deriving the next simulated burnchain block header from the current
    snapshot. Nothing but the current height and hash goes in: the queued
    operations never influence a header. */
module HeaderChainer {

  import opened Wrappers
  import opened Hashes
  import opened Blocks

  /** The hash of the block that follows a block with hash `h`: SHA-256 of
      the 32 bytes of `h`. */
  function NextBurnHeaderHash(sha256: Sha256, h: BurnchainHeaderHash): BurnchainHeaderHash {
    BurnchainHeaderHash(sha256(h.bytes))
  }

  /** `build_next_block_header`. `now` is `get_epoch_time_secs()`. */
  function BuildNextBlockHeader(sha256: Sha256, current: BlockSnapshot, now: nat): (h: BurnchainBlockHeader)
    ensures h.blockHeight == current.blockHeight + 1
    ensures h.parentBlockHash == current.burnHeaderHash
    ensures h.blockHash == NextBurnHeaderHash(sha256, current.burnHeaderHash)
    ensures h.numTxs == 0 && h.timestamp == now
  {
    var nextHash := sha256(current.burnHeaderHash.bytes);
    var block := BitcoinBlock(
      current.blockHeight + 1,
      HeaderHashFromBytes(nextHash).value,
      current.burnHeaderHash,
      [],
      now);
    Header(block)
  }

  /** Headers depend on the current height and hash only: two snapshots that
      agree on those yield the same header at the same time, and the new
      block's hash depends on the parent hash alone. */
  lemma HeaderDependsOnlyOnHeightAndHash(sha256: Sha256, s1: BlockSnapshot, s2: BlockSnapshot, t1: nat, t2: nat)
    ensures s1.blockHeight == s2.blockHeight && s1.burnHeaderHash == s2.burnHeaderHash ==>
              BuildNextBlockHeader(sha256, s1, t1) == BuildNextBlockHeader(sha256, s2, t1)
    ensures s1.burnHeaderHash == s2.burnHeaderHash ==>
              BuildNextBlockHeader(sha256, s1, t1).blockHash == BuildNextBlockHeader(sha256, s2, t2).blockHash
  {
  }

  /** The hash `k` blocks after a block with hash `h`. */
  function HashChain(sha256: Sha256, h: BurnchainHeaderHash, k: nat): BurnchainHeaderHash
    decreases k
  {
    if k == 0 then h else HashChain(sha256, NextBurnHeaderHash(sha256, h), k - 1)
  }
}
