/** The mocknet burnchain controller: an in-process simulated burnchain.
    It queues submitted operations and, on each sync, mines one block on
    top of the cached tip: it builds the next header, drains and stamps the
    queue, has the sortition ledger process and commit the block, and
    caches the tip the ledger returns.

    The source's panics (`unreachable!`, `expect`, `panic!`, `unwrap`) are
    modelled as a `Fault` result: the state at that point is the state the
    controller is left in. */
module Mocknet {

  import opened Wrappers
  import opened Hashes
  import opened Operations
  import opened Blocks
  import opened HeaderChainer
  import TxidDerivation
  import opened OperationStamper
  import opened Sortition

  datatype Fault =
    | Unreachable                   // `unreachable!()`
    | ExpectFailed(message: string) // `expect(message)` on `None` or `Err`
    | Panicked(message: string)     // `panic!(message)`
    | UnwrapFailed(error: DbError)  // `unwrap()` on `Err(error)`

  /** The two wall-clock readings an operation takes: `get_epoch_time_secs()`
      and `Instant::now()`. */
  datatype Clock = Clock(epochSecs: nat, receivedAt: nat)

  datatype Config = Config(burnDbFilePath: string)

  /** The ledger transaction of `sync`: begin a transaction anchored at the
      parent's sortition, process the stamped operations, commit. Any
      failure aborts the block; the ledger's results are passed on as they
      are. */
  function CommitBlock(ledger: SortitionLedger, burnchain: Burnchain, db: Option<SortitionDB>,
                       parent: BlockSnapshot, header: BurnchainBlockHeader, ops: seq<BlockstackOperationType>)
    : (r: Result<(BlockSnapshot, BurnchainStateTransition), Fault>)
    ensures db.None? ==> r == Err(Unreachable)
    ensures r.Ok? <==>
      && db.Some?
      && ledger.begin(db.value, parent.sortitionId).Ok?
      && ledger.processBlockOps(ledger.begin(db.value, parent.sortitionId).value, burnchain, parent, header, ops).Ok?
      && ledger.commit(ledger.begin(db.value, parent.sortitionId).value).Ok?
    ensures r.Ok? ==>
      ledger.processBlockOps(ledger.begin(db.value, parent.sortitionId).value, burnchain, parent, header, ops) == Ok(r.value)
    ensures r.Err? && db.Some? ==> r.error.UnwrapFailed?
  {
    match db
    case None => Err(Unreachable)
    case Some(burnDb) =>
      match ledger.begin(burnDb, parent.sortitionId)
      case Err(e) => Err(UnwrapFailed(e))
      case Ok(burnTx) =>
        match ledger.processBlockOps(burnTx, burnchain, parent, header, ops)
        case Err(e) => Err(UnwrapFailed(e))
        case Ok(newChainTip) =>
          match ledger.commit(burnTx)
          case Err(e) => Err(UnwrapFailed(e))
          case Ok(_) => Ok(newChainTip)
  }

  /** One sync on top of `tip` with `queue` waiting, as a function of the
      state before it: the new tip, or the fault that aborted the block. */
  function Advance(sha256: Sha256, ledger: SortitionLedger, burnchain: Burnchain, db: Option<SortitionDB>,
                   tip: BurnchainTip, queue: seq<BlockstackOperationType>, clock: Clock)
    : (r: Result<BurnchainTip, Fault>)
    ensures var header := BuildNextBlockHeader(sha256, tip.blockSnapshot, clock.epochSecs);
      && (r.Ok? <==> CommitBlock(ledger, burnchain, db, tip.blockSnapshot, header, StampOperations(sha256, header, queue)).Ok?)
      && (r.Ok? ==>
            && CommitBlock(ledger, burnchain, db, tip.blockSnapshot, header, StampOperations(sha256, header, queue))
                 == Ok((r.value.blockSnapshot, r.value.stateTransition))
            && r.value.receivedAt == clock.receivedAt)
  {
    var header := BuildNextBlockHeader(sha256, tip.blockSnapshot, clock.epochSecs);
    match CommitBlock(ledger, burnchain, db, tip.blockSnapshot, header, StampOperations(sha256, header, queue))
    case Err(f) => Err(f)
    case Ok((blockSnapshot, stateTransition)) => Ok(BurnchainTip(blockSnapshot, stateTransition, clock.receivedAt))
  }

  /** The operations submitted before one sync, and the clock readings it takes. */
  datatype Round = Round(queue: seq<BlockstackOperationType>, clock: Clock)

  /** A run of syncs from `tip`, one per round: the final tip, or the first
      fault. */
  function Replay(sha256: Sha256, ledger: SortitionLedger, burnchain: Burnchain, db: Option<SortitionDB>,
                  tip: BurnchainTip, rounds: seq<Round>): Result<BurnchainTip, Fault>
    decreases |rounds|
  {
    if rounds == [] then Ok(tip)
    else
      match Advance(sha256, ledger, burnchain, db, tip, rounds[0].queue, rounds[0].clock)
      case Err(f) => Err(f)
      case Ok(next) => Replay(sha256, ledger, burnchain, db, next, rounds[1..])
  }

  /** With a ledger that records the headers it is given, a run of k syncs
      moves the tip k blocks up, and the tip's hash is the k-th iterate of
      the header hash: it depends on the starting hash and k only, never on
      the operations submitted. */
  lemma {:induction false} ReplayFollowsHashChain(sha256: Sha256, ledger: SortitionLedger, burnchain: Burnchain,
                                                  db: Option<SortitionDB>, tip: BurnchainTip, rounds: seq<Round>)
    requires RecordsHeader(ledger)
    requires Replay(sha256, ledger, burnchain, db, tip, rounds).Ok?
    ensures var last := Replay(sha256, ledger, burnchain, db, tip, rounds).value.blockSnapshot;
      && last.blockHeight == tip.blockSnapshot.blockHeight + |rounds|
      && last.burnHeaderHash == HashChain(sha256, tip.blockSnapshot.burnHeaderHash, |rounds|)
    decreases |rounds|
  {
    if rounds != [] {
      var next := Advance(sha256, ledger, burnchain, db, tip, rounds[0].queue, rounds[0].clock).value;
      ReplayFollowsHashChain(sha256, ledger, burnchain, db, next, rounds[1..]);
    }
  }

  /** Two runs from the same tip with the same number of successful syncs
      reach the same height and hash, however their operations differ. */
  lemma SameStartSameChain(sha256: Sha256, ledger: SortitionLedger, burnchain: Burnchain, db: Option<SortitionDB>,
                           tip: BurnchainTip, rounds1: seq<Round>, rounds2: seq<Round>)
    requires RecordsHeader(ledger) && |rounds1| == |rounds2|
    requires Replay(sha256, ledger, burnchain, db, tip, rounds1).Ok?
    requires Replay(sha256, ledger, burnchain, db, tip, rounds2).Ok?
    ensures Replay(sha256, ledger, burnchain, db, tip, rounds1).value.blockSnapshot.blockHeight
         == Replay(sha256, ledger, burnchain, db, tip, rounds2).value.blockSnapshot.blockHeight
    ensures Replay(sha256, ledger, burnchain, db, tip, rounds1).value.blockSnapshot.burnHeaderHash
         == Replay(sha256, ledger, burnchain, db, tip, rounds2).value.blockSnapshot.burnHeaderHash
  {
    ReplayFollowsHashChain(sha256, ledger, burnchain, db, tip, rounds1);
    ReplayFollowsHashChain(sha256, ledger, burnchain, db, tip, rounds2);
  }

  class MocknetController {
    const config: Config
    const burnchain: Burnchain
    const sha256: Sha256
    const ledger: SortitionLedger
    var db: Option<SortitionDB>
    var chainTip: Option<BurnchainTip>
    var queuedOperations: seq<BlockstackOperationType>

    /** A tip is only ever cached together with a ledger connection. */
    ghost predicate Valid()
      reads this
    {
      chainTip.Some? ==> db.Some?
    }

    /** Started: connected to the ledger, with a cached tip. */
    predicate Ready()
      reads this
    {
      db.Some? && chainTip.Some?
    }

    /** `new`: not connected, no tip, empty queue. */
    constructor (config: Config, burnchain: Burnchain, sha256: Sha256, ledger: SortitionLedger)
      ensures Valid() && !Ready()
      ensures this.config == config && this.burnchain == burnchain
      ensures this.sha256 == sha256 && this.ledger == ledger
      ensures db == None && chainTip == None && queuedOperations == []
    {
      this.config := config;
      this.burnchain := burnchain;
      this.sha256 := sha256;
      this.ledger := ledger;
      db := None;
      chainTip := None;
      queuedOperations := [];
    }

    /** `sortdb_ref`: the ledger connection, which only exists once started. */
    function SortdbRef(): (r: Result<SortitionDB, Fault>)
      reads this
      ensures r.Ok? <==> db.Some?
      ensures r.Ok? ==> Some(r.value) == db
      ensures r.Err? ==> r.error == ExpectFailed("BUG: did not instantiate burn DB")
    {
      match db
      case Some(sortdb) => Ok(sortdb)
      case None => Err(ExpectFailed("BUG: did not instantiate burn DB"))
    }

    /** `sortdb_mut`: as `sortdb_ref`, but unstarted use is `unreachable!`. */
    function SortdbMut(): (r: Result<SortitionDB, Fault>)
      reads this
      ensures r.Ok? <==> db.Some?
      ensures r.Ok? ==> Some(r.value) == db
      ensures r.Err? ==> r.error == Unreachable
    {
      match db
      case Some(sortdb) => Ok(sortdb)
      case None => Err(Unreachable)
    }

    /** `get_chain_tip`: the cached tip, which only exists once started. */
    function GetChainTip(): (r: Result<BurnchainTip, Fault>)
      reads this
      ensures r.Ok? <==> chainTip.Some?
      ensures r.Ok? ==> Some(r.value) == chainTip
      ensures r.Err? ==> r.error == Unreachable
    {
      match chainTip
      case Some(tip) => Ok(tip)
      case None => Err(Unreachable)
    }

    /** `start`: connect to the ledger, fetch its canonical tip and cache it
        as the genesis tip with an empty transition. */
    method Start(clock: Clock) returns (r: Result<BurnchainTip, Fault>)
      requires Valid()
      modifies this`db, this`chainTip
      ensures Valid()
      ensures var connected := ledger.connect(config.burnDbFilePath, 0, ZeroHeaderHash, clock.epochSecs, true);
        if connected.Err? then
          r == Err(Panicked("Error while connecting to burnchain db")) && db == old(db) && chainTip == old(chainTip)
        else if ledger.canonicalTipStubbed(connected.value).Err? then
          r == Err(ExpectFailed("FATAL: failed to get canonical chain tip")) && db == old(db) && chainTip == old(chainTip)
        else
          && r == Ok(BurnchainTip(ledger.canonicalTipStubbed(connected.value).value, EmptyTransition, clock.receivedAt))
          && db == Some(connected.value)
          && chainTip == Some(r.value)
      ensures r.Ok? ==> Ready() && GetChainTip() == r
      ensures r.Ok? ==>
        && r.value.stateTransition.burnDist == []
        && r.value.stateTransition.acceptedOps == []
        && r.value.stateTransition.consumedLeaderKeys == []
    {
      var connected := ledger.connect(config.burnDbFilePath, 0, ZeroHeaderHash, clock.epochSecs, true);
      if connected.Err? {
        return Err(Panicked("Error while connecting to burnchain db"));
      }
      var blockSnapshot := ledger.canonicalTipStubbed(connected.value);
      if blockSnapshot.Err? {
        return Err(ExpectFailed("FATAL: failed to get canonical chain tip"));
      }
      db := Some(connected.value);
      var genesisState := BurnchainTip(blockSnapshot.value, BurnchainStateTransition([], [], []), clock.receivedAt);
      chainTip := Some(genesisState);
      r := Ok(genesisState);
    }

    /** `submit_operation`: always accepted, queued at the back. */
    method SubmitOperation(operation: BlockstackOperationType) returns (accepted: bool)
      requires Valid()
      modifies this`queuedOperations
      ensures Valid()
      ensures accepted
      ensures queuedOperations == old(queuedOperations) + [operation]
    {
      queuedOperations := queuedOperations + [operation];
      accepted := true;
    }

    /** `sync`: mine one block on the cached tip. The queue is drained
        before the ledger is called, so it is empty afterwards even when
        the block is aborted; the cached tip is replaced only when the
        ledger commits. */
    method Sync(clock: Clock) returns (r: Result<BurnchainTip, Fault>)
      requires Valid()
      modifies this`queuedOperations, this`chainTip
      ensures Valid()
      ensures old(chainTip).None? ==>
        r == Err(Unreachable) && queuedOperations == old(queuedOperations) && chainTip == None
      ensures old(chainTip).Some? ==>
        && queuedOperations == []
        && r == Advance(sha256, ledger, burnchain, db, old(chainTip).value, old(queuedOperations), clock)
        && chainTip == (if r.Ok? then Some(r.value) else old(chainTip))
      ensures old(chainTip).Some? && r.Err? ==> r.error.UnwrapFailed?
    {
      var current := GetChainTip();
      if current.Err? {
        return Err(current.error);
      }
      var tip := current.value;

      var nextBlockHeader := BuildNextBlockHeader(sha256, tip.blockSnapshot, clock.epochSecs);
      var vtxindex := 1;
      var ops := [];

      ghost var queue := queuedOperations;
      while queuedOperations != []
        invariant vtxindex == |ops| + 1 && |ops| <= |queue|
        invariant queuedOperations == queue[|ops|..]
        invariant chainTip == old(chainTip)
        invariant forall i | 0 <= i < |ops| :: ops[i] == Restamp(queue[i], StampFor(sha256, nextBlockHeader, i + 1))
        decreases |queuedOperations|
      {
        var payload := queuedOperations[0];
        queuedOperations := queuedOperations[1..];
        var txid := TxidDerivation.TxidFor(sha256, nextBlockHeader.blockHeight, vtxindex);
        var op := Restamp(payload, Stamp(txid, vtxindex, nextBlockHeader.blockHeight, nextBlockHeader.blockHash));
        ops := ops + [op];
        vtxindex := vtxindex + 1;
      }
      assert ops == StampOperations(sha256, nextBlockHeader, queue);

      var committed := CommitBlock(ledger, burnchain, db, tip.blockSnapshot, nextBlockHeader, ops);
      if committed.Err? {
        return Err(committed.error);
      }
      var (blockSnapshot, stateTransition) := committed.value;
      var newState := BurnchainTip(blockSnapshot, stateTransition, clock.receivedAt);
      chainTip := Some(newState);
      r := Ok(newState);
    }
  }
}
