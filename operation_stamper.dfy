/** Stamping the drained operation queue into the next block: the k-th
    operation drained (counting from 1) gets vtxindex k, the txid derived
    from the block height and k, and the new block's height and hash. */
module OperationStamper {

  import opened Hashes
  import opened TxidDerivation
  import opened Operations
  import opened Blocks

  /** The stamp of the operation at position `vtxindex` of the block whose
      header is `header`. */
  function StampFor(sha256: Sha256, header: BurnchainBlockHeader, vtxindex: nat): Stamp {
    Stamp(TxidFor(sha256, header.blockHeight, vtxindex), vtxindex, header.blockHeight, header.blockHash)
  }

  /** The operations handed to the ledger for the block `header`, given the
      queue contents front to back. */
  function StampOperations(sha256: Sha256, header: BurnchainBlockHeader, queue: seq<BlockstackOperationType>)
    : (ops: seq<BlockstackOperationType>)
    ensures |ops| == |queue|
  {
    seq(|queue|, i requires 0 <= i < |queue| => Restamp(queue[i], StampFor(sha256, header, i + 1)))
  }

  /** Nothing is dropped, added or reordered: the i-th stamped operation is
      the i-th queued one with only its stamp replaced. */
  lemma StampingPreservesQueue(sha256: Sha256, header: BurnchainBlockHeader, queue: seq<BlockstackOperationType>)
    ensures var ops := StampOperations(sha256, header, queue);
      && |ops| == |queue|
      && (forall i | 0 <= i < |ops| :: SamePayload(queue[i], ops[i]))
      && (forall i | 0 <= i < |ops| :: ops[i] == Restamp(queue[i], StampOf(ops[i])))
  {
  }

  /** Every stamped operation carries the new block's height and hash, and
      its txid is SHA-256 of "{its height}::{its vtxindex}". */
  lemma StampedOperationsBelongToBlock(sha256: Sha256, header: BurnchainBlockHeader, queue: seq<BlockstackOperationType>)
    ensures forall op | op in StampOperations(sha256, header, queue) ::
      && StampOf(op).blockHeight == header.blockHeight
      && StampOf(op).burnHeaderHash == header.blockHash
      && StampOf(op).txid == TxidFor(sha256, StampOf(op).blockHeight, StampOf(op).vtxindex)
  {
  }

  /** The vtxindexes of `ops`, in order. */
  function Vtxindexes(ops: seq<BlockstackOperationType>): seq<nat> {
    seq(|ops|, i requires 0 <= i < |ops| => StampOf(ops[i]).vtxindex)
  }

  /** The sequence 1, 2, ..., n. */
  function OneTo(n: nat): seq<nat>
    decreases n
  {
    if n == 0 then [] else OneTo(n - 1) + [n]
  }

  lemma {:induction false} OneToAt(n: nat, i: nat)
    requires i < n
    ensures |OneTo(n)| == n && OneTo(n)[i] == i + 1
    decreases n
  {
    if i < n - 1 {
      OneToAt(n - 1, i);
    } else if n > 1 {
      OneToAt(n - 1, 0);
    }
  }

  /** The vtxindexes are exactly 1, 2, ..., N in drain order, where N is
      the queue length: contiguous from 1, no gaps, no repeats. */
  lemma VtxindexesAreOneToN(sha256: Sha256, header: BurnchainBlockHeader, queue: seq<BlockstackOperationType>)
    ensures Vtxindexes(StampOperations(sha256, header, queue)) == OneTo(|queue|)
    ensures var ops := StampOperations(sha256, header, queue);
      forall i, j | 0 <= i < |ops| && 0 <= j < |ops| && i != j :: StampOf(ops[i]).vtxindex != StampOf(ops[j]).vtxindex
  {
    var vs, n := Vtxindexes(StampOperations(sha256, header, queue)), |queue|;
    if n == 0 {
      assert OneTo(n) == [];
    } else {
      OneToAt(n, 0);
      forall i | 0 <= i < n ensures vs[i] == OneTo(n)[i] {
        OneToAt(n, i);
      }
    }
  }

  /** Txids depend on the block height and the position only: two queues of
      the same length, whatever their contents, stamped into blocks of the
      same height (whatever their hashes and timestamps) get the same txids. */
  lemma TxidsIgnorePayload(sha256: Sha256, h1: BurnchainBlockHeader, h2: BurnchainBlockHeader,
                           q1: seq<BlockstackOperationType>, q2: seq<BlockstackOperationType>)
    requires |q1| == |q2| && h1.blockHeight == h2.blockHeight
    ensures forall i | 0 <= i < |q1| ::
      StampOf(StampOperations(sha256, h1, q1)[i]).txid == StampOf(StampOperations(sha256, h2, q2)[i]).txid
  {
  }

  /** SHA-256 maps the txid preimages of positions 1..n of the block at
      `blockHeight` to distinct digests. */
  ghost predicate CollisionFreeOnBlock(sha256: Sha256, blockHeight: nat, n: nat) {
    forall v1: nat, v2: nat | 1 <= v1 <= n && 1 <= v2 <= n ::
      sha256(TxidPreimage(blockHeight, v1)) == sha256(TxidPreimage(blockHeight, v2)) ==>
        TxidPreimage(blockHeight, v1) == TxidPreimage(blockHeight, v2)
  }

  /** Within one block the txids are pairwise distinct, unless SHA-256
      collides on two of the block's preimages. */
  lemma TxidsDistinctWithinBlock(sha256: Sha256, header: BurnchainBlockHeader, queue: seq<BlockstackOperationType>)
    requires CollisionFreeOnBlock(sha256, header.blockHeight, |queue|)
    ensures var ops := StampOperations(sha256, header, queue);
      forall i, j | 0 <= i < |ops| && 0 <= j < |ops| && i != j :: StampOf(ops[i]).txid != StampOf(ops[j]).txid
  {
    var ops := StampOperations(sha256, header, queue);
    forall i, j | 0 <= i < |ops| && 0 <= j < |ops| && i != j
      ensures StampOf(ops[i]).txid != StampOf(ops[j]).txid
    {
      TxidPreimageInjective(header.blockHeight, i + 1, header.blockHeight, j + 1);
    }
  }
}
