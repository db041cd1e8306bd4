/**
 The per-chain loop (`#startChainLoop`, src/application/watcher/watcher-service.ts): batches
 until one meets a discontinuity, then resolution, then on or a halt for good.
 */
module ChainLoop {
  import opened Common
  import opened CursorStorage
  import opened ForkSearch
  import opened WatcherBatch
  import opened ReorgResolution
  import ChainFollower
  import LinkedHistory
  import Ingestion
  import Commits
  import Ledger
  import LedgerServices
  import LedgerWorkers

  /** What the outside world does during one iteration. */
  datatype Turn = Turn(
    anchorHead: nat,
    head: nat,
    watchlist: Watchlist,
    view: View,
    fates: nat -> Fate,
    live: nat -> Probe,
    captured: seq<Ledger.Event>,
    sights: string -> LedgerWorkers.Sight,
    fault: Fault)

  lemma OrphanAndRewindKeep(s: ChainStore, fork: Header)
    requires ChainFollower.StoreOk(s) && s.cursor.Some? && CanonicalAt(s.blocks, IdOf(fork))
    ensures
      ChainFollower.StoreOk(RewindCommit(OrphanCommit(s, fork.blockNumber), s.cursor.value.version, fork.blockNumber,
          fork.blockHash))
  {
    var orphaned := OrphanCommit(s, fork.blockNumber);
    LinkedHistory.OrphanKeepsStore(s, IdOf(fork));
    assert IdOf(fork) in orphaned.blocks;
    ChainFollower.RewindKeeps(orphaned, orphaned, s.cursor.value.version, IdOf(fork));
  }

  lemma OrphanKeeps(s: ChainStore, fork: Header)
    requires ChainFollower.StoreOk(s) && s.cursor.Some? && CanonicalAt(s.blocks, IdOf(fork))
    ensures ChainFollower.StoreOk(OrphanCommit(s, fork.blockNumber))
  {
    LinkedHistory.OrphanKeepsStore(s, IdOf(fork));
  }

  /** An orphaning commit always shows: it flags a block that was canonical. */
  lemma OrphanChanges(s: ChainStore, version: nat, fork: Header, fault: Fault)
    requires AnyAbove(s.blocks, fork.blockNumber)
    ensures AfterResolution(s, version, fork, fault) != s
  {
    var id :| id in s.blocks && s.blocks[id].canonical && id.number > fork.blockNumber;
    assert id in AfterResolution(s, version, fork, fault).blocks;
    assert !AfterResolution(s, version, fork, fault).blocks[id].canonical;
  }

  /** A fork point below the cursor is only found under blocks on record as canonical. */
  lemma FoundBelowBlocks(blocks: map<BlockId, Observed>, live: nat -> Probe, last: nat, budget: nat, scan: Scan)
    requires IsScan(blocks, live, last, budget, scan) && scan.Found? && scan.fork.blockNumber < last
    ensures AnyAbove(blocks, scan.fork.blockNumber)
  {
    assert Differs(blocks, live, last);
  }

  /**
   A fault after the orphaning commit leaves the instance in the interrupted phase of its
   linked history: from there no fork search succeeds, whatever chain is live.
   */
  lemma FaultIsInterruption(w: LinkedHistory.Watcher, live: nat -> Probe, budget: nat, scan: Scan, writes: nat)
    requires LinkedHistory.Inv(w) && w.phase.Following? && w.store.cursor.Some?
    requires IsScan(w.store.blocks, live, w.store.cursor.value.lastProcessedBlock, budget, scan)
    requires scan.Found? && scan.fork.blockNumber < w.store.cursor.value.lastProcessedBlock
    ensures LinkedHistory.CanStep(w, LinkedHistory.OrphanAbove(IdOf(scan.fork)))
    ensures
      var resolving := LinkedHistory.Next(w, LinkedHistory.OrphanAbove(IdOf(scan.fork)));
      LinkedHistory.CanStep(resolving, LinkedHistory.Crash)
    ensures
      var resolving := LinkedHistory.Next(w, LinkedHistory.OrphanAbove(IdOf(scan.fork)));
      var after := LinkedHistory.Next(resolving, LinkedHistory.Crash);
      && after.phase == LinkedHistory.Interrupted(IdOf(scan.fork))
      && after.store == AfterResolution(w.store, w.store.cursor.value.version, scan.fork, AfterOrphaning(writes))
      && after.store.cursor == w.store.cursor
      && forall live', budget', r ::
        IsScan(after.store.blocks, live', w.store.cursor.value.lastProcessedBlock, budget', r) ==>
           r == NoForkPoint
  {
    ScannableIffFound(w.store, IdOf(scan.fork));
    LinkedHistory.OrphanKeeps(w, IdOf(scan.fork));
    var resolving := LinkedHistory.Next(w, LinkedHistory.OrphanAbove(IdOf(scan.fork)));
    LinkedHistory.StepKeeps(resolving, LinkedHistory.Crash);
    var after := LinkedHistory.Next(resolving, LinkedHistory.Crash);
    LinkedHistory.InterruptedNeverScans(after, IdOf(scan.fork));
    forall live', budget', r | IsScan(after.store.blocks, live', w.store.cursor.value.lastProcessedBlock, budget', r)
      ensures r == NoForkPoint
    {
      HoleAtCursorHalts(after.store.blocks, live', w.store.cursor.value.lastProcessedBlock, budget', r);
    }
  }

  /**
   Without a fault the instance is following again, from the fork point under the next version.
   */
  lemma ResolutionCompletes(w: LinkedHistory.Watcher, live: nat -> Probe, budget: nat, scan: Scan)
    requires LinkedHistory.Inv(w) && w.phase.Following? && w.store.cursor.Some?
    requires IsScan(w.store.blocks, live, w.store.cursor.value.lastProcessedBlock, budget, scan)
    requires scan.Found? && scan.fork.blockNumber < w.store.cursor.value.lastProcessedBlock
    ensures LinkedHistory.CanStep(w, LinkedHistory.OrphanAbove(IdOf(scan.fork)))
    ensures
      var resolving := LinkedHistory.Next(w, LinkedHistory.OrphanAbove(IdOf(scan.fork)));
      LinkedHistory.CanStep(resolving, LinkedHistory.RewindTo)
    ensures
      var resolving := LinkedHistory.Next(w, LinkedHistory.OrphanAbove(IdOf(scan.fork)));
      var after := LinkedHistory.Next(resolving, LinkedHistory.RewindTo);
      var version := w.store.cursor.value.version;
      && after.phase.Following? && after.store == AfterResolution(w.store, version, scan.fork, Never)
      && after.store.cursor == Some(Cursor(scan.fork.blockNumber, scan.fork.blockHash, version + 1))
  {
    ScannableIffFound(w.store, IdOf(scan.fork));
    assert OrphanCommit(w.store, scan.fork.blockNumber).cursor == w.store.cursor;
  }

  /** In words: the chain halts on a discontinuity exactly without a fork point or with a fault on the way. */
  lemma HaltsIff(live: nat -> Probe, budget: nat, met: ChainStore, scan: Scan, fault: Fault)
    requires met.cursor.Some? && IsScan(met.blocks, live, met.cursor.value.lastProcessedBlock, budget, scan)
    ensures !OutcomeOf(scan, met.cursor.value.lastProcessedBlock, met.blocks, fault).Resolved? <==>
      !scan.Found? || (scan.fork.blockNumber < met.cursor.value.lastProcessedBlock && !fault.Never?)
    ensures Orphans(scan, met.cursor.value.lastProcessedBlock, met.blocks, fault) <==>
      scan.Found? && scan.fork.blockNumber < met.cursor.value.lastProcessedBlock && !fault.BeforeOrphaning?
  {
    if scan.Found? && scan.fork.blockNumber < met.cursor.value.lastProcessedBlock {
      FoundBelowBlocks(met.blocks, live, met.cursor.value.lastProcessedBlock, budget, scan);
    }
  }

  /** The store once a chain without a cursor was anchored, if it could be. */
  function Anchored(s: ChainStore, lookback: nat, turn: Turn): ChainStore {
    var anchor := turn.view.header(if turn.anchorHead < lookback then 0 else turn.anchorHead - lookback);
    if s.cursor.None? && anchor.Some? && turn.view.corroboration(anchor.value.blockNumber).Agreeing? then
      BootstrapCommit(s, anchor.value)
    else s
  }

  predicate AnchorFails(s: ChainStore, lookback: nat, turn: Turn) {
    s.cursor.None? && turn.view.header(if turn.anchorHead < lookback then 0 else turn.anchorHead - lookback).None?
  }

  /** What the batch of this turn answers and leaves, told by the store it finds and what the provider shows. */
  ghost predicate BatchTurn(s: ChainStore, lookback: nat, batchSize: nat, turn: Turn, after: ChainStore, r: BatchResult)
  {
    var s' := Anchored(s, lookback, turn);
    if s'.cursor.None? then after == s && r == if AnchorFails(s, lookback, turn) then Failed(OtherError) else Sleep
    else
      var cursor := s'.cursor.value;
      var headers := HeadersOf(cursor, turn.view, Top(cursor, turn.head, batchSize));
      && Meets(cursor, turn.head, batchSize, turn.watchlist, turn.view, turn.fates, s'.blocks, r)
      && (r.Continue? ==> headers != [] && after == BatchAt(s', cursor.version, headers))
      && (!r.Continue? ==> after == s')
  }

  /** The turn's batch meets a discontinuity. */
  ghost predicate TurnBreaks(s: ChainStore, lookback: nat, batchSize: nat, turn: Turn) {
    var s' := Anchored(s, lookback, turn);
    s'.cursor.Some?
    && Discontinues(s'.cursor.value, turn.head, batchSize, turn.watchlist, turn.view, turn.fates, s'.blocks)
  }

  lemma NothingReceived(digest: string -> string, endpoint: Ingestion.Endpoint)
    ensures Received(digest, endpoint, NOTHING) == endpoint
  {
  }

  lemma TurnBreaksIff(s: ChainStore, lookback: nat, batchSize: nat, turn: Turn, after: ChainStore, r: BatchResult)
    requires BatchTurn(s, lookback, batchSize, turn, after, r)
    ensures r == Failed(Discontinuity) <==> TurnBreaks(s, lookback, batchSize, turn)
  {
  }

  /** Nothing is submitted unless the range is ready, and a batch that commits has submitted all of it. */
  ghost predicate TurnSubmits(s: ChainStore, lookback: nat, batchSize: nat, turn: Turn, r: BatchResult, sent: Sent) {
    var s' := Anchored(s, lookback, turn);
    if s'.cursor.None? || !Ready(s'.cursor.value, turn.head, batchSize, turn.view) then sent == NOTHING
    else
      var headers := HeadersOf(s'.cursor.value, turn.view, Top(s'.cursor.value, turn.head, batchSize));
      var expected := Expected(turn.watchlist, headers, turn.view);
      InStep(sent, expected) && (r.Continue? ==> sent == SentAll(expected))
  }

  /** Resolution of a discontinuity met on this store and ledger: the search it made, and what it wrote. */
  ghost predicate Resolves(chain: string, budget: nat, turn: Turn, met: ChainStore, db: Ledger.Database,
      scan: Option<Scan>, ids: seq<string>, after: ChainStore, dbAfter: Ledger.Database) {
    && (scan.None? <==> met.cursor.None?)
    && (scan.Some? ==> IsScan(met.blocks, turn.live, met.cursor.value.lastProcessedBlock, budget, scan.value))
    && if scan.Some? && Orphans(scan.value, met.cursor.value.lastProcessedBlock, met.blocks, turn.fault) then
         var fork := scan.value.fork;
         && after == AfterResolution(met, met.cursor.value.version, fork, turn.fault)
         && ListsAffected(ids, turn.captured, chain, fork.blockNumber)
         && dbAfter == LedgerWorkers.EffectsUpTo(
              db.(events := Commits.OrphanAbove(db.events, chain, fork.blockNumber)), ids, turn.sights,
              WritesUntil(turn.fault, |ids|))
       else after == met && dbAfter == db
  }

  /** No fork point was found, or resolution failed. */
  predicate HaltsOn(turn: Turn, met: ChainStore, scan: Option<Scan>)
    requires scan.Some? ==> met.cursor.Some?
  {
    scan.None? || !OutcomeOf(scan.value, met.cursor.value.lastProcessedBlock, met.blocks, turn.fault).Resolved?
  }

  /** What the loop works on, as it stands between turns. */
  datatype Moment = Moment(store: ChainStore, db: Ledger.Database, endpoint: Ingestion.Endpoint, halted: bool)

  /** Where and how far the chain is followed, and the digest of its event ids. */
  datatype Settings = Settings(chain: string, lookback: nat, batchSize: nat, budget: nat, digest: string -> string)

  /** The store after the batch half of a turn, and what the two halves did. */
  datatype Report = Report(met: ChainStore, batch: BatchResult, sent: Sent, scan: Option<Scan>, ids: seq<string>)

  /** One turn from one moment to the next. */
  ghost predicate Turns(cfg: Settings, turn: Turn, a: Moment, b: Moment, rep: Report) {
    && BatchTurn(a.store, cfg.lookback, cfg.batchSize, turn, rep.met, rep.batch)
    && TurnSubmits(a.store, cfg.lookback, cfg.batchSize, turn, rep.batch, rep.sent)
    && b.endpoint == Received(cfg.digest, a.endpoint, rep.sent)
    && if rep.batch == Failed(Discontinuity) then
         && Resolves(cfg.chain, cfg.budget, turn, rep.met, a.db, rep.scan, rep.ids, b.store, b.db)
         && (b.halted <==> HaltsOn(turn, rep.met, rep.scan))
       else b == a.(store := rep.met, endpoint := b.endpoint)
  }

  class ChainWatch {
    const chain: string
    const watcher: WatcherService
    const resolver: ReorgResolutionService
    const ledger: LedgerServices.Collections
    var halted: bool

    constructor (chain: string, watcher: WatcherService, resolver: ReorgResolutionService,
        ledger: LedgerServices.Collections)
      ensures this.chain == chain && this.watcher == watcher && this.resolver == resolver && this.ledger == ledger
          && !halted
    {
      this.chain, this.watcher, this.resolver, this.ledger := chain, watcher, resolver, ledger;
      halted := false;
    }

    ghost predicate Valid()
      reads this, watcher, watcher.storage, ledger
    {
      && watcher.batchSize > 0
      && ChainFollower.StoreOk(watcher.storage.Store())
      && forall id :: id in ledger.payments ==> ledger.payments[id].terms.paymentId == id
    }

    /** The batch half: where it meets a discontinuity it committed nothing. */
    method Batch(turn: Turn) returns (r: BatchResult, ghost sent: Sent)
      requires Valid() && !halted
      modifies watcher.storage, watcher.ingestion
      ensures Valid()
      ensures r == Failed(Discontinuity) ==>
        || watcher.storage.Store() == old(watcher.storage.Store())
        || (old(watcher.storage.cursor).None? && watcher.storage.cursor.Some?
          && watcher.storage.cursor.value.version == 0)
      ensures BatchTurn(old(watcher.storage.Store()), watcher.initialLookbackBlocks, watcher.batchSize, turn,
                        watcher.storage.Store(), r)
      ensures r == Failed(Discontinuity) <==>
        TurnBreaks(old(watcher.storage.Store()), watcher.initialLookbackBlocks, watcher.batchSize, turn)
      ensures TurnSubmits(old(watcher.storage.Store()), watcher.initialLookbackBlocks, watcher.batchSize, turn, r, sent)
      ensures watcher.ingestion.State() == Received(watcher.ingestion.digest, old(watcher.ingestion.State()), sent)
    {
      sent := NOTHING;
      ghost var s0 := watcher.storage.Store();
      var cursor, threw := Anchor(turn);
      ghost var s1 := watcher.storage.Store();
      if threw {
        r := Failed(OtherError);
      } else if cursor.None? {
        r := Sleep;
      } else {
        ghost var committed, headers;
        r, committed, headers, sent := watcher.ProcessFrom(cursor.value, turn.head, turn.watchlist, turn.view,
            turn.fates);
        if committed {
          ChainFollower.AdvanceKeeps(s1, s1, cursor.value, headers);
        }
      }
      NothingReceived(watcher.ingestion.digest, old(watcher.ingestion.State()));
      TurnBreaksIff(s0, watcher.initialLookbackBlocks, watcher.batchSize, turn, watcher.storage.Store(), r);
    }

    /** The cursor of the chain, which is anchored first where it has none. */
    method Anchor(turn: Turn) returns (cursor: Option<Cursor>, threw: bool)
      requires Valid()
      modifies watcher.storage
      ensures Valid() && cursor == watcher.storage.cursor
      ensures watcher.storage.Store() == Anchored(old(watcher.storage.Store()), watcher.initialLookbackBlocks, turn)
      ensures threw <==> AnchorFails(old(watcher.storage.Store()), watcher.initialLookbackBlocks, turn)
    {
      ghost var s0 := watcher.storage.Store();
      cursor, threw := watcher.ReadOrBootstrap(turn.anchorHead, turn.view);
      if watcher.storage.Store() != s0 {
        ChainFollower.BootstrapKeeps(s0, turn.view.header(
          if turn.anchorHead < watcher.initialLookbackBlocks then 0
          else turn.anchorHead - watcher.initialLookbackBlocks).value);
      }
    }

    /** Resolution on the stored state, reading events and payments some time before it writes them. */
    method ResolveDiscontinuity(turn: Turn)
      returns (resolution: Resolution, ghost scan: Option<Scan>, ghost ids: seq<string>)
      requires Valid() && LedgerWorkers.LookedUp(turn.sights)
      modifies watcher.storage, ledger
      ensures Valid()
      ensures Resolves(chain, resolver.reorgMaxScanBlocks, turn, old(watcher.storage.Store()), old(ledger.Db()),
                       scan, ids, watcher.storage.Store(), ledger.Db())
      ensures resolution.Resolved? <==> !HaltsOn(turn, old(watcher.storage.Store()), scan)
      ensures watcher.storage.Store() == old(watcher.storage.Store()) && ledger.Db() == old(ledger.Db()) <==>
        !(scan.Some? && Orphans(scan.value, old(watcher.storage.cursor).value.lastProcessedBlock,
                                old(watcher.storage.blocks), turn.fault))
    {
      ghost var s := watcher.storage.Store();
      var record;
      var was := Reads(ChainStore(watcher.storage.cursor, watcher.storage.blocks), watcher.storage.blocks,
                       turn.captured, turn.sights);
      resolution, scan, record := resolver.Resolve(watcher.storage, ledger, chain, turn.live, was, turn.fault);
      ids := [];
      if record.Some? {
        ids := record.value.affectedPaymentIds;
        OrphanKeeps(s, scan.value.fork);
        OrphanAndRewindKeep(s, scan.value.fork);
        OrphanChanges(s, s.cursor.value.version, scan.value.fork, turn.fault);
      }
    }

    /**
     One turn of the loop. It halts the chain exactly after a discontinuity for which no fork
     point was found or whose resolution failed; and resolution leaves blocks, cursor and
     ledger as it met them exactly if nothing was written before that.
     */
    method Iterate(turn: Turn) returns (progressed: bool, ghost rep: Report)
      requires Valid() && !halted && LedgerWorkers.LookedUp(turn.sights)
      modifies this, watcher.storage, watcher.ingestion, ledger
      ensures Valid() && Turns(Configured(), turn, old(Now()), Now(), rep)
      ensures
        || rep.met == old(watcher.storage.Store())
        || rep.batch != Failed(Discontinuity)
        || (old(watcher.storage.cursor).None? && rep.met.cursor.Some? && rep.met.cursor.value.version == 0)
      ensures rep.batch == Failed(Discontinuity) <==>
        TurnBreaks(old(watcher.storage.Store()), watcher.initialLookbackBlocks, watcher.batchSize, turn)
      ensures progressed <==> rep.batch.Continue? || (rep.batch == Failed(Discontinuity) && !halted)
      ensures rep.batch == Failed(Discontinuity) ==>
        (watcher.storage.Store() == rep.met && ledger.Db() == old(ledger.Db()) <==>
          !(rep.scan.Some? &&
            Orphans(rep.scan.value, rep.met.cursor.value.lastProcessedBlock, rep.met.blocks, turn.fault)))
    {
      var result;
      ghost var sent;
      result, sent := Batch(turn);
      ghost var met := watcher.storage.Store();
      rep := Report(met, result, sent, None, []);
      if result != Failed(Discontinuity) {
        progressed := result.Continue?;
        return;
      }
      var resolution;
      ghost var scan, ids;
      resolution, scan, ids := ResolveDiscontinuity(turn);
      rep := Report(met, result, sent, scan, ids);
      halted := !resolution.Resolved?;
      progressed := !halted;
    }

    ghost function Configured(): Settings
      reads this
    {
      Settings(chain, watcher.initialLookbackBlocks, watcher.batchSize, resolver.reorgMaxScanBlocks,
               watcher.ingestion.digest)
    }

    ghost function Now(): Moment
      reads this, watcher, watcher.storage, watcher.ingestion, ledger
    {
      Moment(watcher.storage.Store(), ledger.Db(), watcher.ingestion.State(), halted)
    }

    /**
     Turn after turn until the chain halts: it stays halted, and between any two moments of the
     loop lies exactly one turn.
     */
    method Loop(turns: seq<Turn>) returns (taken: nat, ghost moments: seq<Moment>, ghost reports: seq<Report>)
      requires Valid() && forall i :: 0 <= i < |turns| ==> LedgerWorkers.LookedUp(turns[i].sights)
      modifies this, watcher.storage, watcher.ingestion, ledger
      ensures Valid() && taken <= |turns| && (taken < |turns| ==> halted)
      ensures |moments| == taken + 1 && moments[0] == old(Now()) && moments[taken] == Now() && |reports| == taken
      ensures forall i :: 0 <= i < taken ==>
        !moments[i].halted && Turns(Configured(), turns[i], moments[i], moments[i + 1], reports[i])
    {
      taken := 0;
      moments, reports := [Now()], [];
      while taken < |turns| && !halted
        invariant Valid() && taken <= |turns|
        invariant |moments| == taken + 1 && moments[0] == old(Now()) && moments[taken] == Now() && |reports| == taken
        invariant forall i :: 0 <= i < taken ==>
          !moments[i].halted && Turns(Configured(), turns[i], moments[i], moments[i + 1], reports[i])
      {
        var _, rep := Iterate(turns[taken]);
        moments, reports := moments + [Now()], reports + [rep];
        taken := taken + 1;
      }
    }
  }
}
