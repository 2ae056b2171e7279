/** Bytes, 32-byte digests and the two digest-based identifiers the
    controller produces: burnchain header hashes and transaction ids. */
module Hashes {

  import Wrappers

  newtype byte = b: int | 0 <= b < 0x100

  type Bytes = seq<byte>

  /** The output of SHA-256: always exactly 32 bytes. */
  type Digest = b: Bytes | |b| == 32 witness seq(32, _ => 0)

  /** `Sha256Sum::from_data`. The hash itself is not modelled: every
      operation that needs it takes it as a parameter. */
  type Sha256 = Bytes -> Digest

  /** `BurnchainHeaderHash`: a 32-byte burnchain block hash. */
  datatype BurnchainHeaderHash = BurnchainHeaderHash(bytes: Digest)

  /** `Txid`: a 32-byte transaction id. */
  datatype Txid = Txid(bytes: Digest)

  /** The all-zero hash `BurnchainHeaderHash([0u8; 32])`, handed to the
      ledger as the hash of the first burnchain block. */
  const ZeroHeaderHash: BurnchainHeaderHash := BurnchainHeaderHash(seq(32, _ => 0))

  /** `BurnchainHeaderHash::from_bytes`: `None` unless given exactly 32 bytes. */
  function HeaderHashFromBytes(b: Bytes): Wrappers.Option<BurnchainHeaderHash> {
    if |b| == 32 then Wrappers.Some(BurnchainHeaderHash(b)) else Wrappers.None
  }
}
