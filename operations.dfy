/** The three burnchain operations a caller can submit
    (`BlockstackOperationType`) and the re-stamping the controller applies
    to each of them: only the four fields that place an operation in a
    block -- txid, vtxindex, block height and burn header hash -- change. */
module Operations {

  import opened Hashes

  // Payload field types. The controller only copies them.
  type ConsensusHash = Bytes
  type VrfPublicKey = Bytes
  type VrfSeed = Bytes
  type BlockHeaderHash = Bytes
  type Hash160 = Bytes

  datatype StacksAddress = StacksAddress(version: byte, bytes: Hash160)

  datatype BurnchainSigner = BurnchainSigner(hashMode: nat, numSigs: nat, publicKeys: seq<Bytes>)

  datatype LeaderKeyRegisterOp = LeaderKeyRegisterOp(
    consensusHash: ConsensusHash,
    publicKey: VrfPublicKey,
    memo: Bytes,
    address: StacksAddress,
    txid: Txid,
    vtxindex: nat,
    blockHeight: nat,
    burnHeaderHash: BurnchainHeaderHash)

  datatype LeaderBlockCommitOp = LeaderBlockCommitOp(
    blockHeaderHash: BlockHeaderHash,
    newSeed: VrfSeed,
    parentBlockPtr: nat,
    parentVtxindex: nat,
    keyBlockPtr: nat,
    keyVtxindex: nat,
    memo: Bytes,
    burnFee: nat,
    input: BurnchainSigner,
    txid: Txid,
    vtxindex: nat,
    blockHeight: nat,
    burnHeaderHash: BurnchainHeaderHash)

  datatype UserBurnSupportOp = UserBurnSupportOp(
    address: StacksAddress,
    consensusHash: ConsensusHash,
    publicKey: VrfPublicKey,
    keyBlockPtr: nat,
    keyVtxindex: nat,
    blockHeaderHash160: Hash160,
    burnFee: nat,
    txid: Txid,
    vtxindex: nat,
    blockHeight: nat,
    burnHeaderHash: BurnchainHeaderHash)

  datatype BlockstackOperationType =
    | LeaderKeyRegister(keyRegister: LeaderKeyRegisterOp)
    | LeaderBlockCommit(blockCommit: LeaderBlockCommitOp)
    | UserBurnSupport(burnSupport: UserBurnSupportOp)

  /** The four fields that place an operation in a burnchain block. */
  datatype Stamp = Stamp(txid: Txid, vtxindex: nat, blockHeight: nat, burnHeaderHash: BurnchainHeaderHash)

  function StampOf(op: BlockstackOperationType): Stamp {
    match op
    case LeaderKeyRegister(p) => Stamp(p.txid, p.vtxindex, p.blockHeight, p.burnHeaderHash)
    case LeaderBlockCommit(p) => Stamp(p.txid, p.vtxindex, p.blockHeight, p.burnHeaderHash)
    case UserBurnSupport(p) => Stamp(p.txid, p.vtxindex, p.blockHeight, p.burnHeaderHash)
  }

  /** `a` and `b` are the same kind of operation and agree on every field
      other than the four stamp fields. */
  predicate SamePayload(a: BlockstackOperationType, b: BlockstackOperationType) {
    match (a, b)
    case (LeaderKeyRegister(x), LeaderKeyRegister(y)) =>
      && x.consensusHash == y.consensusHash
      && x.publicKey == y.publicKey
      && x.memo == y.memo
      && x.address == y.address
    case (LeaderBlockCommit(x), LeaderBlockCommit(y)) =>
      && x.blockHeaderHash == y.blockHeaderHash
      && x.newSeed == y.newSeed
      && x.parentBlockPtr == y.parentBlockPtr
      && x.parentVtxindex == y.parentVtxindex
      && x.keyBlockPtr == y.keyBlockPtr
      && x.keyVtxindex == y.keyVtxindex
      && x.memo == y.memo
      && x.burnFee == y.burnFee
      && x.input == y.input
    case (UserBurnSupport(x), UserBurnSupport(y)) =>
      && x.address == y.address
      && x.consensusHash == y.consensusHash
      && x.publicKey == y.publicKey
      && x.keyBlockPtr == y.keyBlockPtr
      && x.keyVtxindex == y.keyVtxindex
      && x.blockHeaderHash160 == y.blockHeaderHash160
      && x.burnFee == y.burnFee
    case _ => false
  }

  /** The per-variant rebuild in the controller's sync loop: every payload
      field is copied and the stamp fields are overwritten. */
  function Restamp(op: BlockstackOperationType, s: Stamp): (r: BlockstackOperationType)
    ensures SamePayload(op, r)
    ensures StampOf(r) == s
  {
    match op
    case LeaderKeyRegister(p) =>
      LeaderKeyRegister(LeaderKeyRegisterOp(
        p.consensusHash, p.publicKey, p.memo, p.address,
        s.txid, s.vtxindex, s.blockHeight, s.burnHeaderHash))
    case LeaderBlockCommit(p) =>
      LeaderBlockCommit(LeaderBlockCommitOp(
        p.blockHeaderHash, p.newSeed, p.parentBlockPtr, p.parentVtxindex,
        p.keyBlockPtr, p.keyVtxindex, p.memo, p.burnFee, p.input,
        s.txid, s.vtxindex, s.blockHeight, s.burnHeaderHash))
    case UserBurnSupport(p) =>
      UserBurnSupport(UserBurnSupportOp(
        p.address, p.consensusHash, p.publicKey, p.keyBlockPtr, p.keyVtxindex,
        p.blockHeaderHash160, p.burnFee,
        s.txid, s.vtxindex, s.blockHeight, s.burnHeaderHash))
  }

  /** An operation is nothing but its payload and its stamp: nothing else
      is dropped or altered by re-stamping. */
  lemma PayloadAndStampDetermineOperation(a: BlockstackOperationType, b: BlockstackOperationType)
    ensures SamePayload(a, b) && StampOf(a) == StampOf(b) <==> a == b
  {
  }

  /** Stamping twice is stamping once with the last stamp, and stamping an
      operation with its own stamp leaves it as it was. */
  lemma RestampOverwrites(op: BlockstackOperationType, s1: Stamp, s2: Stamp)
    ensures Restamp(Restamp(op, s1), s2) == Restamp(op, s2)
    ensures Restamp(op, StampOf(op)) == op
  {
  }
}
