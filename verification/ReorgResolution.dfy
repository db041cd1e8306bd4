/**
 Reorg resolution end to end (src/application/watcher/reorg-resolution-service.ts): the
 fork search, the orphaning commit over blocks and events, the payment effects and the
 rewind.
 */
module ReorgResolution {
  import opened Common
  import opened CursorStorage
  import opened ForkSearch
  import Ledger
  import Commits
  import LedgerServices
  import LedgerWorkers

  /** `Rejected` is an exception, which the chain loop treats as unresolvable. */
  datatype Resolution = Resolved | Unresolvable | Rejected

  /**
   Where resolution fails after its search: before the orphaning commit, or after it and so
   many payment writes, the last possible place being the rewind.
   */
  datatype Fault = Never | BeforeOrphaning | AfterOrphaning(writes: nat)

  /**
   What resolution reads, each at its own time: the cursor and blocks of the search, the
   blocks listed above the fork and the events captured before its orphaning transaction;
   after it, each affected payment and its claims before their write.
   */
  datatype Reads = Reads(
    seen: ChainStore,
    listed: map<BlockId, Observed>,
    captured: seq<Ledger.Event>,
    sights: string -> LedgerWorkers.Sight)

  /** The audit record of one reorg. */
  datatype ReorgRecord = ReorgRecord(
    fromBlock: nat,
    toBlock: nat,
    orphanedTxHashes: set<string>,
    affectedPaymentIds: seq<string>)

  function OrphanedTxHashes(events: seq<Ledger.Event>, chain: string, forkPoint: nat): set<string> {
    set i | 0 <= i < |events| && Commits.Orphaned(events[i], chain, forkPoint) :: events[i].capture.transactionHash
  }

  /** Each affected payment once. */
  ghost predicate ListsAffected(ids: seq<string>, events: seq<Ledger.Event>, chain: string, forkPoint: nat) {
    && (forall i, j :: 0 <= i < j < |ids| ==> ids[i] != ids[j])
    && forall id :: id in ids <==> id in LedgerWorkers.Affected(events, chain, forkPoint)
  }

  method AffectedPayments(events: seq<Ledger.Event>, chain: string, forkPoint: nat) returns (ids: seq<string>)
    ensures ListsAffected(ids, events, chain, forkPoint)
  {
    ids := [];
    for i := 0 to |events|
      invariant forall j, k :: 0 <= j < k < |ids| ==> ids[j] != ids[k]
      invariant forall id :: id in ids <==>
        exists j :: 0 <= j < i && Commits.Orphaned(events[j], chain, forkPoint) && events[j].owner == Some(id)
    {
      var e := events[i];
      if Commits.Orphaned(e, chain, forkPoint) && e.owner.Some? && e.owner.value !in ids {
        ids := ids + [e.owner.value];
      }
    }
  }

  predicate HighestCanonical(blocks: map<BlockId, Observed>, forkPoint: nat, top: nat) {
    && top > forkPoint && HeightTaken(blocks, top)
    && forall id :: id in blocks && blocks[id].canonical ==> id.number <= top
  }

  method HighestAbove(blocks: map<BlockId, Observed>, forkPoint: nat) returns (top: Option<nat>)
    ensures top.Some? ==> HighestCanonical(blocks, forkPoint, top.value)
    ensures top.None? ==> forall id :: CanonicalAt(blocks, id) ==> id.number <= forkPoint
  {
    top := None;
    var rest := blocks.Keys;
    while rest != {}
      invariant rest <= blocks.Keys
      invariant forall id :: id in blocks && id !in rest && blocks[id].canonical ==> id.number <= top.GetOr(forkPoint)
      invariant top.Some? ==> top.value > forkPoint && HeightTaken(blocks, top.value)
      decreases |rest|
    {
      var id :| id in rest;
      rest := rest - {id};
      if blocks[id].canonical && id.number > top.GetOr(forkPoint) {
        top := Some(id.number);
      }
    }
  }

  class ReorgResolutionService {
    const reorgMaxScanBlocks: nat

    constructor (reorgMaxScanBlocks: nat)
      ensures this.reorgMaxScanBlocks == reorgMaxScanBlocks
    {
      this.reorgMaxScanBlocks := reorgMaxScanBlocks;
    }

    /**
     Nothing is written unless a fork point below the cursor was found. Then the history above
     it is flagged, the payments captured with it are adjusted and the cursor is put back, up
     to the fault.
     */
    method Resolve(storage: MongoChainCursorStorage, store: LedgerServices.Collections, chain: string,
        live: nat -> Probe, was: Reads, fault: Fault)
      returns (outcome: Resolution, ghost scan: Option<Scan>, record: Option<ReorgRecord>)
      requires OneCanonical(was.seen.blocks) && LedgerWorkers.LookedUp(was.sights)
      requires forall id :: id in store.payments ==> store.payments[id].terms.paymentId == id
      modifies storage, store
      ensures forall id :: id in store.payments ==> store.payments[id].terms.paymentId == id
      ensures scan.None? <==> was.seen.cursor.None?
      ensures scan.Some? ==>
        IsScan(was.seen.blocks, live, was.seen.cursor.value.lastProcessedBlock, reorgMaxScanBlocks, scan.value)
      ensures outcome == (
        if scan.None? then Unresolvable
        else OutcomeOf(scan.value, was.seen.cursor.value.lastProcessedBlock, was.listed, fault))
      ensures record.Some? <==>
        scan.Some? && Orphans(scan.value, was.seen.cursor.value.lastProcessedBlock, was.listed, fault)
      ensures record.None? ==> storage.Store() == old(storage.Store()) && store.Db() == old(store.Db())
      ensures record.Some? ==>
        var fork := scan.value.fork;
        && storage.Store() == AfterResolution(old(storage.Store()), was.seen.cursor.value.version, fork, fault)
        && record.value.fromBlock == fork.blockNumber + 1
        && HighestCanonical(was.listed, fork.blockNumber, record.value.toBlock)
        && record.value.orphanedTxHashes == OrphanedTxHashes(was.captured, chain, fork.blockNumber)
        && ListsAffected(record.value.affectedPaymentIds, was.captured, chain, fork.blockNumber)
        && store.Db() == LedgerWorkers.EffectsUpTo(
             old(store.Db()).(events := Commits.OrphanAbove(old(store.events), chain, fork.blockNumber)),
             record.value.affectedPaymentIds, was.sights, WritesUntil(fault, |record.value.affectedPaymentIds|))
    {
      scan, record := None, None;
      if was.seen.cursor.None? {
        return Unresolvable, scan, record;
      }
      var cursor := was.seen.cursor.value;
      var search := FindFork(was.seen.blocks, live, cursor.lastProcessedBlock, reorgMaxScanBlocks);
      scan := Some(search);
      if search.Crashed? {
        return Rejected, scan, record;
      }
      if !search.Found? {
        return Unresolvable, scan, record;
      }
      var fork := search.fork;
      if fork.blockNumber == cursor.lastProcessedBlock {
        return Resolved, scan, record;
      }
      var top := HighestAbove(was.listed, fork.blockNumber);
      if top.None? {
        return if fault.BeforeOrphaning? then Rejected else Resolved, scan, record;
      }
      if fault.BeforeOrphaning? {
        return Rejected, scan, record;
      }
      var hashes := OrphanedTxHashes(was.captured, chain, fork.blockNumber);
      var affected := AffectedPayments(was.captured, chain, fork.blockNumber);
      storage.MarkOrphaned(fork.blockNumber);
      store.events := Commits.OrphanAbove(store.events, chain, fork.blockNumber);
      ghost var flagged := store.Db();
      record := Some(ReorgRecord(fork.blockNumber + 1, top.value, hashes, affected));
      var crashed :=
        LedgerWorkers.ResolvePaymentEffects(store, affected, was.sights, WritesUntil(fault, |affected|));
      LedgerWorkers.EffectsUpToKeepIds(flagged, affected, was.sights, WritesUntil(fault, |affected|));
      if crashed || !fault.Never? {
        return Rejected, scan, record;
      }
      var _ := storage.Rewind(cursor.version, fork.blockNumber, fork.blockHash);
      return Resolved, scan, record;
    }
  }

  /** The payment writes that come before the fault, of two for each payment. */
  function WritesUntil(fault: Fault, payments: nat): nat {
    if fault.AfterOrphaning? then fault.writes else 2 * payments
  }

  predicate AnyAbove(blocks: map<BlockId, Observed>, forkPoint: nat) {
    exists id :: id in blocks && blocks[id].canonical && id.number > forkPoint
  }

  /** The search led to the orphaning commit, and nothing failed before it. */
  predicate Orphans(scan: Scan, last: nat, listed: map<BlockId, Observed>, fault: Fault) {
    scan.Found? && scan.fork.blockNumber < last && AnyAbove(listed, scan.fork.blockNumber) && !fault.BeforeOrphaning?
  }

  function OutcomeOf(scan: Scan, last: nat, listed: map<BlockId, Observed>, fault: Fault): Resolution {
    match scan
    case Crashed => Rejected
    case NoForkPoint => Unresolvable
    case Uncorroborated => Unresolvable
    case Found(fork) =>
      if fork.blockNumber >= last then Resolved
      else if fault.BeforeOrphaning? then Rejected
      else if AnyAbove(listed, fork.blockNumber) && !fault.Never? then Rejected
      else Resolved
  }

  /**
   Whatever was listed: resolution fails exactly on a crashed search, or on a fault where there
   is work left to do.
   */
  lemma OutcomeIff(scan: Scan, last: nat, listed: map<BlockId, Observed>, fault: Fault)
    ensures
      var outcome := OutcomeOf(scan, last, listed, fault);
      var below := scan.Found? && scan.fork.blockNumber < last;
      && (outcome.Unresolvable? <==> scan.NoForkPoint? || scan.Uncorroborated?)
      && (outcome.Rejected? <==>
            || scan.Crashed?
            || (below && fault.BeforeOrphaning?)
            || (below && fault.AfterOrphaning? && AnyAbove(listed, scan.fork.blockNumber)))
  {
  }

  function AfterResolution(s: ChainStore, version: nat, fork: Header, fault: Fault): ChainStore {
    var orphaned := OrphanCommit(s, fork.blockNumber);
    if fault.Never? then RewindCommit(orphaned, version, fork.blockNumber, fork.blockHash) else orphaned
  }

  // ----- how exact the record is -----

  /** The event rows at capture against those the orphaning commit finds: rows are added and claimed meanwhile. */
  predicate Grew(captured: seq<Ledger.Event>, now: seq<Ledger.Event>) {
    |captured| <= |now| && forall i :: 0 <= i < |captured| ==> Ledger.EventEvolves(captured[i], now[i])
  }

  /** Row `i` was captured and then flagged by another resolver. */
  predicate Flagged(captured: seq<Ledger.Event>, now: seq<Ledger.Event>, chain: string, forkPoint: nat, i: nat) {
    i < |captured| && i < |now| && Commits.Orphaned(captured[i], chain, forkPoint) && !now[i].canonical
  }

  /** Row `i` came after the capture. */
  predicate Added(captured: seq<Ledger.Event>, now: seq<Ledger.Event>, chain: string, forkPoint: nat, i: nat) {
    |captured| <= i < |now| && Commits.Orphaned(now[i], chain, forkPoint)
  }

  /** Row `i` was claimed after the capture. */
  predicate Claimed(captured: seq<Ledger.Event>, now: seq<Ledger.Event>, chain: string, forkPoint: nat, i: nat) {
    i < |now| && Commits.Orphaned(now[i], chain, forkPoint) && now[i].owner.Some?
      && (i < |captured| ==> captured[i].owner.None?)
  }

  /**
   The record names exactly the transactions of the events the commit flags exactly if each
   event ingested since the capture shares its transaction with a captured one, and each one
   another resolver flagged since with one still flagged here. It lists exactly the payments
   of those events exactly if each event claimed since belongs to a payment already listed,
   and each payment listed for an event flagged since owns one still flagged here. With no
   event added, claimed or flagged in between, it is exact.
   */
  lemma RecordExactIff(captured: seq<Ledger.Event>, now: seq<Ledger.Event>, chain: string, forkPoint: nat,
      ids: seq<string>)
    requires Grew(captured, now) && ListsAffected(ids, captured, chain, forkPoint)
    ensures OrphanedTxHashes(captured, chain, forkPoint) == OrphanedTxHashes(now, chain, forkPoint) <==>
      && (forall i: nat :: Added(captured, now, chain, forkPoint, i) ==>
            now[i].capture.transactionHash in OrphanedTxHashes(captured, chain, forkPoint))
      && (forall i: nat :: Flagged(captured, now, chain, forkPoint, i) ==>
            captured[i].capture.transactionHash in OrphanedTxHashes(now, chain, forkPoint))
    ensures ListsAffected(ids, now, chain, forkPoint) <==>
      && (forall i: nat :: Claimed(captured, now, chain, forkPoint, i) ==> now[i].owner.value in ids)
      && (forall i: nat :: Flagged(captured, now, chain, forkPoint, i) && captured[i].owner.Some? ==>
            captured[i].owner.value in LedgerWorkers.Affected(now, chain, forkPoint))
  {
    HashesExactIff(captured, now, chain, forkPoint);
    PaymentsExactIff(captured, now, chain, forkPoint, ids);
  }

  lemma HashesExactIff(captured: seq<Ledger.Event>, now: seq<Ledger.Event>, chain: string, forkPoint: nat)
    requires Grew(captured, now)
    ensures OrphanedTxHashes(captured, chain, forkPoint) == OrphanedTxHashes(now, chain, forkPoint) <==>
      && (forall i: nat :: Added(captured, now, chain, forkPoint, i) ==>
            now[i].capture.transactionHash in OrphanedTxHashes(captured, chain, forkPoint))
      && (forall i: nat :: Flagged(captured, now, chain, forkPoint, i) ==>
            captured[i].capture.transactionHash in OrphanedTxHashes(now, chain, forkPoint))
  {
    var before, after := OrphanedTxHashes(captured, chain, forkPoint), OrphanedTxHashes(now, chain, forkPoint);
    forall i: nat | Added(captured, now, chain, forkPoint, i) ensures now[i].capture.transactionHash in after {}
    forall i: nat | Flagged(captured, now, chain, forkPoint, i) ensures captured[i].capture.transactionHash in before {}
    if forall i: nat :: Flagged(captured, now, chain, forkPoint, i) ==> captured[i].capture.transactionHash in after {
      forall h | h in before ensures h in after {
        var i :| 0 <= i < |captured| && Commits.Orphaned(captured[i], chain, forkPoint)
          && captured[i].capture.transactionHash == h;
        assert Flagged(captured, now, chain, forkPoint, i) || Commits.Orphaned(now[i], chain, forkPoint);
      }
    }
    if forall i: nat :: Added(captured, now, chain, forkPoint, i) ==> now[i].capture.transactionHash in before {
      forall h | h in after ensures h in before {
        var i :| 0 <= i < |now| && Commits.Orphaned(now[i], chain, forkPoint) && now[i].capture.transactionHash == h;
        if i < |captured| {
          assert Commits.Orphaned(captured[i], chain, forkPoint);
        } else {
          assert Added(captured, now, chain, forkPoint, i);
        }
      }
    }
  }

  lemma PaymentsExactIff(captured: seq<Ledger.Event>, now: seq<Ledger.Event>, chain: string, forkPoint: nat,
      ids: seq<string>)
    requires Grew(captured, now) && ListsAffected(ids, captured, chain, forkPoint)
    ensures ListsAffected(ids, now, chain, forkPoint) <==>
      && (forall i: nat :: Claimed(captured, now, chain, forkPoint, i) ==> now[i].owner.value in ids)
      && (forall i: nat :: Flagged(captured, now, chain, forkPoint, i) && captured[i].owner.Some? ==>
            captured[i].owner.value in LedgerWorkers.Affected(now, chain, forkPoint))
  {
    var after := LedgerWorkers.Affected(now, chain, forkPoint);
    forall i: nat | Claimed(captured, now, chain, forkPoint, i) ensures now[i].owner.value in after {}
    forall i: nat | Flagged(captured, now, chain, forkPoint, i) && captured[i].owner.Some?
      ensures captured[i].owner.value in ids
    {
    }
    if forall i: nat :: Flagged(captured, now, chain, forkPoint, i) && captured[i].owner.Some? ==>
                          captured[i].owner.value in after {
      forall id | id in ids ensures id in after {
        var i :| 0 <= i < |captured| && Commits.Orphaned(captured[i], chain, forkPoint)
          && captured[i].owner == Some(id);
        assert Flagged(captured, now, chain, forkPoint, i) || Commits.Orphaned(now[i], chain, forkPoint);
      }
    }
    if forall i: nat :: Claimed(captured, now, chain, forkPoint, i) ==> now[i].owner.value in ids {
      forall id | id in after ensures id in ids {
        var i :| 0 <= i < |now| && Commits.Orphaned(now[i], chain, forkPoint) && now[i].owner == Some(id);
        if i < |captured| && captured[i].owner.Some? {
          assert Commits.Orphaned(captured[i], chain, forkPoint);
        } else {
          assert Claimed(captured, now, chain, forkPoint, i);
        }
      }
    }
  }

  /**
   Two resolvers capture the same event and one flags it first: the other's record names a
   transaction and lists a payment its own commit flags nothing of.
   */
  lemma FlaggedElsewhereIsListed(e: Ledger.Event, chain: string, forkPoint: nat, ids: seq<string>)
    requires Commits.Orphaned(e, chain, forkPoint) && e.owner.Some?
    requires ListsAffected(ids, [e], chain, forkPoint)
    ensures
      var now := Commits.OrphanAbove([e], chain, forkPoint);
      && Grew([e], now) && OrphanedTxHashes(now, chain, forkPoint) == {}
      && OrphanedTxHashes([e], chain, forkPoint) == {e.capture.transactionHash}
      && e.owner.value in ids && !ListsAffected(ids, now, chain, forkPoint)
  {
    assert [e][0].owner.value in LedgerWorkers.Affected([e], chain, forkPoint);
    assert [e][0].capture.transactionHash in OrphanedTxHashes([e], chain, forkPoint);
  }

  /**
   A payment whose only orphaned claims came after the capture is missed: its claims are
   flagged, and its row stays as it was, without finality hold or recomputed total.
   */
  lemma LateClaimIsMissed(db: Ledger.Database, captured: seq<Ledger.Event>, chain: string, forkPoint: nat,
      ids: seq<string>, sights: string -> LedgerWorkers.Sight, i: nat, id: string)
    requires Grew(captured, db.events) && ListsAffected(ids, captured, chain, forkPoint)
    requires LedgerWorkers.LookedUp(sights)
    requires Claimed(captured, db.events, chain, forkPoint, i) && db.events[i].owner == Some(id) && id in db.payments
    requires forall j :: 0 <= j < |captured| && captured[j].owner == Some(id) ==>
      !Commits.Orphaned(captured[j], chain, forkPoint)
    ensures
      var flagged := db.(events := Commits.OrphanAbove(db.events, chain, forkPoint));
      && !flagged.events[i].canonical
      && id in LedgerWorkers.EffectsOn(flagged, ids, sights).payments
      && LedgerWorkers.EffectsOn(flagged, ids, sights).payments[id] == db.payments[id]
  {
    LedgerWorkers.UnlistedUntouched(db.(events := Commits.OrphanAbove(db.events, chain, forkPoint)), ids, sights, id);
  }
}
