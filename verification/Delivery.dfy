/**
 Nothing skipped, nothing doubled: runs of any number of watcher instances over one chain
 with a fixed watchlist. A stop, a failed submission or a crash leaves some submissions
 stored and no commit. Every batch `WatcherService.ProcessFrom` admits is a piece of such a
 run (`BatchExtendsRun`), and a step of a run of the chain store (`BatchIsAdvance`).
 */
module Delivery {
  import opened Common
  import opened CursorStorage
  import opened Transfers
  import opened Ingestion
  import opened Interpretation
  import opened WatcherBatch
  import BaseUnit
  import ChainFollower

  /** What each block of the chain holds. */
  datatype Content = Content(logs: BlockId -> seq<Log>, transactions: BlockId -> seq<NativeTransaction>)

  /** The chain store, the anchor, and the submissions that were stored and acknowledged so far. */
  datatype World = World(store: ChainStore, anchor: Option<BlockId>, stored: seq<Input>, acknowledged: seq<Input>)

  datatype Event =
    | Submission(input: Input, acknowledged: bool)
    | Commit(cursor: Cursor, seen: map<BlockId, Observed>, headers: seq<Header>, view: View)
    | Bootstrap(anchor: Header)
    | OrphanAbove(forkPoint: nat)
    | RewindTo(version: nat, fork: BlockId)

  /** The submission is one the watchlist calls for in this block. */
  predicate Due(w: Watchlist, content: Content, id: BlockId, input: Input) {
    DueLog(w, content, id, input) || (w.native && DueNative(w, content, id, input))
  }

  predicate DueNative(w: Watchlist, content: Content, id: BlockId, input: Input) {
    exists tx :: tx in content.transactions(id) && TransactionMatches(w, tx)
                 && input == NativeInput(w.chain, tx, id.number, id.hash)
  }

  predicate DueLog(w: Watchlist, content: Content, id: BlockId, input: Input) {
    exists l ::
      l in content.logs(id) && Lower(l.contractAddress) in w.contracts && LogMatches(w, l)
        && input == LogInput(w.chain, l)
  }

  /** The provider's logs and transactions for the batch are those of the headers' own blocks. */
  ghost predicate Sees(w: Watchlist, content: Content, headers: seq<Header>, view: View) {
    && (forall i, l ::
      0 <= i < |headers| && l in content.logs(IdOf(headers[i])) && Lower(l.contractAddress) in w.contracts ==>
          view.logs.Some? && l in view.logs.value)
    && (w.native ==> forall i :: 0 <= i < |headers| ==>
          view.transactions(headers[i].blockNumber) == Some(content.transactions(IdOf(headers[i]))))
  }

  predicate Enabled(w: Watchlist, world: World, e: Event) {
    match e
    case Commit(cursor, _, headers, view) =>
      && ChainFollower.Extends(cursor, headers)
      && forall input :: input in Expected(w, headers, view) ==> input in world.acknowledged
    case _ => true
  }

  function Apply(world: World, e: Event): World
    requires e.Commit? ==> |e.headers| > 0
  {
    match e
    case Submission(input, acknowledged) =>
      world.(stored := world.stored + [input],
             acknowledged := if acknowledged then world.acknowledged + [input] else world.acknowledged)
    case Commit(cursor, seen, headers, _) =>
      var tip := headers[|headers| - 1];
      world.(store :=
        AdvanceCommit(world.store, cursor.version, tip.blockNumber, tip.blockHash, NewHeaders(seen, headers)))
    case Bootstrap(anchor) =>
      world.(store := BootstrapCommit(world.store, anchor),
             anchor := if world.store.cursor.None? then Some(IdOf(anchor)) else world.anchor)
    case OrphanAbove(forkPoint) => world.(store := OrphanCommit(world.store, forkPoint))
    case RewindTo(version, fork) => world.(store := RewindCommit(world.store, version, fork.number, fork.hash))
  }

  ghost predicate IsRun(w: Watchlist, content: Content, run: seq<World>, events: seq<Event>) {
    && |run| == |events| + 1 && run[0] == World(EMPTY, None, [], [])
    && forall i :: 0 <= i < |events| ==>
         && Enabled(w, run[i], events[i]) && run[i + 1] == Apply(run[i], events[i])
         && (events[i].Commit? ==> Sees(w, content, events[i].headers, events[i].view))
  }

  // ----- nothing skipped -----

  lemma LogIsExpected(w: Watchlist, headers: seq<Header>, view: View, l: Log)
    requires view.logs.Some? && l in view.logs.value && LogMatches(w, l) && w.contracts != {}
    ensures LogInput(w.chain, l) in Expected(w, headers, view)
  {
    OrderedSorts(view.logs.value);
    assert l in multiset(Ordered(view.logs.value));
    LogIsSubmitted(w, Ordered(view.logs.value), l);
  }

  lemma TransactionIsExpected(w: Watchlist, headers: seq<Header>, view: View, h: Header, tx: NativeTransaction)
    requires w.native && h in headers && tx in view.transactions(h.blockNumber).GetOr([]) && TransactionMatches(w, tx)
    ensures NativeInput(w.chain, tx, h.blockNumber, h.blockHash) in Expected(w, headers, view)
  {
    NativeIsSubmitted(w, headers, view.transactions, h, tx);
  }

  lemma BatchCoversBlock(w: Watchlist, content: Content, headers: seq<Header>, view: View, i: nat, input: Input)
    requires Sees(w, content, headers, view) && i < |headers| && Due(w, content, IdOf(headers[i]), input)
    ensures input in Expected(w, headers, view)
  {
    var id := IdOf(headers[i]);
    if DueLog(w, content, id, input) {
      var l :| l in content.logs(id) && Lower(l.contractAddress) in w.contracts && LogMatches(w, l)
        && input == LogInput(w.chain, l);
      LogIsExpected(w, headers, view, l);
    } else {
      var tx :| tx in content.transactions(id) && TransactionMatches(w, tx)
        && input == NativeInput(w.chain, tx, id.number, id.hash);
      TransactionIsExpected(w, headers, view, headers[i], tx);
    }
  }

  ghost predicate Covered(w: Watchlist, content: Content, world: World, id: BlockId) {
    forall input :: Due(w, content, id, input) ==> input in world.acknowledged
  }

  ghost predicate AllCovered(w: Watchlist, content: Content, world: World) {
    && (world.store.cursor.None? ==> world.store.blocks == map[])
    && forall id :: id in world.store.blocks && world.anchor != Some(id) ==> Covered(w, content, world, id)
  }

  lemma CommitCovers(w: Watchlist, content: Content, world: World, e: Event)
    requires AllCovered(w, content, world) && Enabled(w, world, e) && e.Commit? && Sees(w, content, e.headers, e.view)
    ensures AllCovered(w, content, Apply(world, e))
  {
    var after := Apply(world, e);
    forall id | id in after.store.blocks && world.anchor != Some(id) ensures Covered(w, content, after, id) {
      if id in world.store.blocks {
        assert Covered(w, content, world, id);
      } else {
        UpsertAllRows(world.store.blocks, NewHeaders(e.seen, e.headers), id);
        var added := NewHeaders(e.seen, e.headers);
        var i :| 0 <= i < |added| && IdOf(added[i]) == id;
        NewHeadersAre(e.seen, e.headers, added[i]);
        var j :| 0 <= j < |e.headers| && e.headers[j] == added[i];
        forall input | Due(w, content, id, input) ensures input in world.acknowledged {
          BatchCoversBlock(w, content, e.headers, e.view, j, input);
        }
      }
    }
  }

  lemma StepCovers(w: Watchlist, content: Content, world: World, e: Event)
    requires AllCovered(w, content, world) && Enabled(w, world, e)
    requires e.Commit? ==> Sees(w, content, e.headers, e.view)
    ensures AllCovered(w, content, Apply(world, e))
  {
    var after := Apply(world, e);
    match e
    case Commit(_, _, _, _) => CommitCovers(w, content, world, e);
    case Bootstrap(anchor) =>
      if world.store.cursor.None? {
        UpsertIntoEmpty(anchor);
        assert world.store.blocks == map[];
      }
    case _ =>
      forall id | id in after.store.blocks && after.anchor != Some(id) ensures Covered(w, content, after, id) {
        assert Covered(w, content, world, id);
      }
  }

  lemma UpsertIntoEmpty(anchor: Header)
    ensures UpsertAll(map[], [anchor]) == map[IdOf(anchor) := Observed(anchor.parentHash, true)]
  {
    assert [anchor][..0] == [];
  }

  lemma {:induction false} RunCovers(w: Watchlist, content: Content, run: seq<World>, events: seq<Event>, k: nat)
    requires IsRun(w, content, run, events) && k < |run|
    ensures AllCovered(w, content, run[k])
  {
    if k > 0 {
      RunCovers(w, content, run, events, k - 1);
      StepCovers(w, content, run[k - 1], events[k - 1]);
    }
  }

  /**
   Whatever stops, fails or is lost, every block recorded above the anchor had each of its
   watched transfers acknowledged by the time it was recorded, and so before the cursor
   passed it.
   */
  lemma NothingSkipped(w: Watchlist, content: Content, run: seq<World>, events: seq<Event>, k: nat, id: BlockId,
      input: Input)
    requires IsRun(w, content, run, events) && k < |run|
    requires id in run[k].store.blocks && run[k].anchor != Some(id) && Due(w, content, id, input)
    ensures input in run[k].acknowledged
  {
    RunCovers(w, content, run, events, k);
    assert Covered(w, content, run[k], id);
  }

  /** A watched transfer is well formed for ingestion when chain and hash hold no separator. */
  lemma DueIsAccepted(w: Watchlist, content: Content, id: BlockId, input: Input)
    requires Due(w, content, id, input)
    ensures Ingestion.Accepted(input)
    ensures input.assetType == Some(Native) <==> input.logIndex.None?
  {
    if DueLog(w, content, id, input) {
      var l :| l in content.logs(id) && Lower(l.contractAddress) in w.contracts && LogMatches(w, l)
        && input == LogInput(w.chain, l);
      DecodedFields(l);
    } else {
      var tx :| tx in content.transactions(id) && TransactionMatches(w, tx)
        && input == NativeInput(w.chain, tx, id.number, id.hash);
      BaseUnit.DecimalRoundTrip(tx.value);
    }
  }

  lemma {:induction false} AcknowledgedIsStored(w: Watchlist, content: Content, run: seq<World>, events: seq<Event>,
      k: nat, input: Input)
    requires IsRun(w, content, run, events) && k < |run| && input in run[k].acknowledged
    ensures input in run[k].stored
  {
    if k > 0 && input in run[k - 1].acknowledged {
      AcknowledgedIsStored(w, content, run, events, k - 1, input);
    }
  }

  /**
   And nothing doubled: replays, lost responses, overlapping instances and reorged batches
   included, each watched transfer below the cursor has one row, holding the first payload
   stored for its identity, acknowledged or not.
   */
  lemma OneRowPerTransfer(digest: string -> string, w: Watchlist, content: Content, run: seq<World>,
      events: seq<Event>, k: nat, id: BlockId, input: Input) returns (j: nat)
    requires IsRun(w, content, run, events) && k < |run|
    requires id in run[k].store.blocks && run[k].anchor != Some(id) && Due(w, content, id, input)
    requires forall i :: 0 <= i < |run[k].stored| ==> WellFormed(run[k].stored[i])
    ensures IsFirst(digest, run[k].stored, EventIdOf(digest, input), j)
    ensures EventIdOf(digest, input) in InsertAll(digest, run[k].stored)
    ensures InsertAll(digest, run[k].stored)[EventIdOf(digest, input)] == DocumentFor(digest, run[k].stored[j])
  {
    NothingSkipped(w, content, run, events, k, id, input);
    AcknowledgedIsStored(w, content, run, events, k, input);
    DueIsAccepted(w, content, id, input);
    var i :| 0 <= i < |run[k].stored| && run[k].stored[i] == input;
    assert Delivers(digest, input, EventIdOf(digest, input));
    j := FirstExists(digest, run[k].stored, EventIdOf(digest, input), i);
    FirstWriteWins(digest, run[k].stored, EventIdOf(digest, input), j);
  }

  /**
   From the chain to the collection: a token transfer to a watched address, in a block the
   cursor passed, has a row under its event id. Where nothing else was submitted under that
   id, the row is this very transfer.
   */
  lemma TransferIsStored(digest: string -> string, w: Watchlist, content: Content, run: seq<World>, events: seq<Event>,
      k: nat, id: BlockId, l: Log, sender: string, recipient: string, value: nat)
    requires IsRun(w, content, run, events) && k < |run|
    requires id in run[k].store.blocks && run[k].anchor != Some(id)
    requires l in content.logs(id) && Lower(l.contractAddress) in w.contracts && Lower("0x" + recipient) in w.recipients
    requires value < BaseUnit.Pow(2, 256) && Carries(l, sender, recipient, BaseUnit.HexPrint(value, 64))
    requires forall i :: 0 <= i < |run[k].stored| ==> WellFormed(run[k].stored[i])
    ensures DecodeTransferLog(l).Some?
    ensures
      var eventId := LogEventId(digest, w.chain, l.transactionHash, l.logIndex);
      var rows := InsertAll(digest, run[k].stored);
      && eventId in rows
      && ((forall i :: 0 <= i < |run[k].stored| && Delivers(digest, run[k].stored[i], eventId) ==>
             run[k].stored[i] == LogInput(w.chain, l)) ==>
          rows[eventId] == Ingestion.Document(
            eventId, w.chain, Ingestion.Erc20, l.transactionHash, Some(l.logIndex), l.blockNumber, l.blockHash,
            Some(Lower(l.contractAddress)), "0x" + Lower(sender), "0x" + Lower(recipient), BaseUnit.Decimal(value),
            RawOf(l)))
  {
    TransferRow(digest, w.chain, l, sender, recipient, value);
    LogMatchesIff(w, l);
    assert DueLog(w, content, id, LogInput(w.chain, l));
    var j := OneRowPerTransfer(digest, w, content, run, events, k, id, LogInput(w.chain, l));
  }

  /** And a native transfer of a positive value has one under its transaction's hash. */
  lemma NativeIsStored(digest: string -> string, w: Watchlist, content: Content, run: seq<World>, events: seq<Event>,
      k: nat, id: BlockId, tx: NativeTransaction)
    requires IsRun(w, content, run, events) && k < |run|
    requires id in run[k].store.blocks && run[k].anchor != Some(id)
    requires w.native && tx in content.transactions(id)
    requires tx.recipient.Some? && tx.value > 0 && Lower(tx.recipient.value) in w.recipients
    requires forall i :: 0 <= i < |run[k].stored| ==> WellFormed(run[k].stored[i])
    ensures
      var eventId := "native_tx_" + Lower(tx.hash);
      var rows := InsertAll(digest, run[k].stored);
      && eventId in rows
      && ((forall i :: 0 <= i < |run[k].stored| && Delivers(digest, run[k].stored[i], eventId) ==>
             run[k].stored[i] == NativeInput(w.chain, tx, id.number, id.hash)) ==>
          rows[eventId] == Ingestion.Document(
            eventId, w.chain, Ingestion.Native, tx.hash, None, id.number, id.hash, None,
            Lower(tx.sender), Lower(tx.recipient.value), BaseUnit.Decimal(tx.value),
            RawOfNative(tx, id.hash, id.number)))
  {
    NativeRow(digest, w.chain, tx, id.number, id.hash);
    assert DueNative(w, content, id, NativeInput(w.chain, tx, id.number, id.hash));
    var j := OneRowPerTransfer(digest, w, content, run, events, k, id, NativeInput(w.chain, tx, id.number, id.hash));
  }

  /**
   A transaction re-included after a reorg with the same log index keeps the row, and with
   it the orphaned block, of its first inclusion.
   */
  lemma ReincludedKeepsFirstBlock(digest: string -> string, first: Input, again: Input)
    requires WellFormed(first) && WellFormed(again) && Ingestion.Accepted(first) && Ingestion.Accepted(again)
    requires EventIdOf(digest, first) == EventIdOf(digest, again) && first.blockHash != again.blockHash
    ensures InsertAll(digest, [first, again]).Keys == {EventIdOf(digest, again)}
    ensures InsertAll(digest, [first, again])[EventIdOf(digest, again)].blockHash == first.blockHash
  {
    assert [first, again][..1] == [first] && [first][..0] == [];
    assert InsertAll(digest, [first]) == Insert(digest, InsertAll(digest, []), first);
    assert InsertAll(digest, [first, again]) == Insert(digest, InsertAll(digest, [first]), again);
  }

  // ----- a batch is a piece of a run -----

  lemma ExtendRun(w: Watchlist, content: Content, run: seq<World>, events: seq<Event>, e: Event)
    requires IsRun(w, content, run, events) && Enabled(w, run[|events|], e)
    requires e.Commit? ==> Sees(w, content, e.headers, e.view)
    ensures IsRun(w, content, run + [Apply(run[|events|], e)], events + [e])
  {
    var longer, more := run + [Apply(run[|events|], e)], events + [e];
    forall i | 0 <= i < |more|
      ensures Enabled(w, longer[i], more[i]) && longer[i + 1] == Apply(longer[i], more[i])
      ensures more[i].Commit? ==> Sees(w, content, more[i].headers, more[i].view)
    {
      assert i < |events| ==> more[i] == events[i] && longer[i] == run[i] && longer[i + 1] == run[i + 1];
    }
  }

  /** The submissions of a batch, those that were not acknowledged included. */
  function Submissions(sent: Sent, n: nat): seq<Event>
    requires n <= |sent.stored|
  {
    seq(n, i requires 0 <= i < n => Submission(sent.stored[i], i < |sent.acknowledged|))
  }

  function AfterSending(world: World, sent: Sent): World {
    world.(stored := world.stored + sent.stored, acknowledged := world.acknowledged + sent.acknowledged)
  }

  /** The world once the first `n` of them arrived. */
  function Sending(world: World, sent: Sent, n: nat): World
    requires n <= |sent.stored|
  {
    var known := if n <= |sent.acknowledged| then n else |sent.acknowledged|;
    world.(stored := world.stored + sent.stored[..n], acknowledged := world.acknowledged + sent.acknowledged[..known])
  }

  lemma SendingStep(world: World, sent: Sent, n: nat)
    requires n < |sent.stored| && sent.acknowledged <= sent.stored
    ensures Sending(world, sent, n + 1) ==
            Apply(Sending(world, sent, n), Submission(sent.stored[n], n < |sent.acknowledged|))
  {
    assert sent.stored[..n + 1] == sent.stored[..n] + [sent.stored[n]];
    if n < |sent.acknowledged| {
      assert sent.acknowledged[..n + 1] == sent.acknowledged[..n] + [sent.stored[n]];
    }
  }

  lemma OneMoreSubmission(w: Watchlist, content: Content, run: seq<World>, events: seq<Event>, world: World,
      sent: Sent, n: nat)
    requires n < |sent.stored| && sent.acknowledged <= sent.stored
    requires IsRun(w, content, run, events) && run[|events|] == Sending(world, sent, n)
    ensures
      var e := Submission(sent.stored[n], n < |sent.acknowledged|);
      IsRun(w, content, run + [Sending(world, sent, n + 1)], events + [e])
  {
    SendingStep(world, sent, n);
    ExtendRun(w, content, run, events, Submission(sent.stored[n], n < |sent.acknowledged|));
  }

  lemma SubmissionsSnoc(sent: Sent, n: nat)
    requires n < |sent.stored|
    ensures Submissions(sent, n + 1) == Submissions(sent, n) + [Submission(sent.stored[n], n < |sent.acknowledged|)]
  {
  }

  lemma {:induction false} SubmissionsExtendRun(w: Watchlist, content: Content, run: seq<World>, events: seq<Event>,
      sent: Sent, n: nat) returns (longer: seq<World>)
    requires IsRun(w, content, run, events) && sent.acknowledged <= sent.stored && n <= |sent.stored|
    ensures IsRun(w, content, longer, events + Submissions(sent, n)) && run <= longer
    ensures longer[|longer| - 1] == Sending(run[|events|], sent, n)
  {
    if n == 0 {
      longer := run;
      assert events + Submissions(sent, 0) == events;
      assert Sending(run[|events|], sent, 0) == run[|events|];
    } else {
      var front := SubmissionsExtendRun(w, content, run, events, sent, n - 1);
      var e := Submission(sent.stored[n - 1], n - 1 < |sent.acknowledged|);
      OneMoreSubmission(w, content, front, events + Submissions(sent, n - 1), run[|events|], sent, n - 1);
      SubmissionsSnoc(sent, n - 1);
      assert events + Submissions(sent, n) == events + Submissions(sent, n - 1) + [e];
      longer := front + [Sending(run[|events|], sent, n)];
    }
  }

  lemma SendingExtendsRun(w: Watchlist, content: Content, run: seq<World>, events: seq<Event>, sent: Sent)
    returns (longer: seq<World>)
    requires IsRun(w, content, run, events) && sent.acknowledged <= sent.stored
    ensures IsRun(w, content, longer, events + Submissions(sent, |sent.stored|)) && run <= longer
    ensures longer[|longer| - 1] == AfterSending(run[|events|], sent)
  {
    longer := SubmissionsExtendRun(w, content, run, events, sent, |sent.stored|);
    assert sent.stored[..|sent.stored|] == sent.stored && sent.acknowledged[..|sent.acknowledged|] == sent.acknowledged;
  }

  lemma CommitOfBatch(w: Watchlist, content: Content, run: seq<World>, events: seq<Event>, view: View, cursor: Cursor,
      world: World, after: ChainStore, headers: seq<Header>, sent: Sent)
    requires IsRun(w, content, run, events) && run[|events|] == AfterSending(world, sent)
    requires IsBatch(w, view, cursor, world.store, after, headers, sent, true) && Sees(w, content, headers, view)
    ensures IsRun(w, content, run + [AfterSending(world, sent).(store := after)],
                  events + [Commit(cursor, world.store.blocks, headers, view)])
  {
    ExtendRun(w, content, run, events, Commit(cursor, world.store.blocks, headers, view));
  }

  /**
   What one batch did, whether it committed or broke off anywhere, is a piece of a run: its
   submissions, then its commit if it made one.
   */
  lemma BatchExtendsRun(w: Watchlist, content: Content, run: seq<World>, events: seq<Event>, view: View,
      cursor: Cursor, after: ChainStore, headers: seq<Header>, sent: Sent, committed: bool)
    returns (longer: seq<World>, more: seq<Event>)
    requires IsRun(w, content, run, events)
    requires IsBatch(w, view, cursor, run[|events|].store, after, headers, sent, committed)
    requires committed ==> Sees(w, content, headers, view)
    ensures IsRun(w, content, longer, more) && run <= longer && events <= more
    ensures longer[|more|] == AfterSending(run[|events|], sent).(store := after)
  {
    longer := SendingExtendsRun(w, content, run, events, sent);
    more := events + Submissions(sent, |sent.stored|);
    if committed {
      CommitOfBatch(w, content, longer, more, view, cursor, run[|events|], after, headers, sent);
      longer := longer + [AfterSending(run[|events|], sent).(store := after)];
      more := more + [Commit(cursor, run[|events|].store.blocks, headers, view)];
    }
  }

  /** And the endpoint's rows stay those of the submissions stored in the run. */
  lemma RowsFollowRun(digest: string -> string, world: World, queued: seq<string>, sent: Sent)
    ensures Received(digest, Endpoint(InsertAll(digest, world.stored), queued), sent).rows
         == InsertAll(digest, AfterSending(world, sent).stored)
  {
    InsertFromAppend(digest, map[], world.stored, sent.stored);
  }

  lemma {:induction false} AcknowledgedStays(w: Watchlist, content: Content, run: seq<World>, events: seq<Event>,
      i: nat, j: nat, input: Input)
    requires IsRun(w, content, run, events) && i <= j < |run| && input in run[i].acknowledged
    ensures input in run[j].acknowledged
    decreases j - i
  {
    if i < j {
      AcknowledgedStays(w, content, run, events, i, j - 1, input);
    }
  }

  /** Whatever other instances do between a batch's last submission and its commit, the commit stays possible. */
  lemma CommitStaysEnabled(w: Watchlist, content: Content, run: seq<World>, events: seq<Event>, i: nat, j: nat,
      e: Event)
    requires IsRun(w, content, run, events) && i <= j < |run| && e.Commit? && Enabled(w, run[i], e)
    ensures Enabled(w, run[j], e)
  {
    forall input | input in Expected(w, e.headers, e.view) ensures input in run[j].acknowledged {
      AcknowledgedStays(w, content, run, events, i, j, input);
    }
  }

  /**
   A batch that commits is one `Advance` of the run of the chain store, for a cursor read at
   any earlier store of it; a batch that does not is no step at all.
   */
  lemma BatchIsAdvance(run: seq<ChainStore>, actions: seq<ChainFollower.Action>, readAt: nat, w: Watchlist,
      view: View, cursor: Cursor, after: ChainStore, headers: seq<Header>, sent: Sent, committed: bool)
    requires ChainFollower.IsRun(run, actions) && readAt < |run| && run[readAt].cursor == Some(cursor)
    requires IsBatch(w, view, cursor, run[|actions|], after, headers, sent, committed)
    ensures committed ==>
      ChainFollower.IsRun(run + [after], actions + [ChainFollower.Advance(readAt, |actions|, headers)])
    ensures !committed ==> after == run[|actions|]
  {
    if committed {
      ChainFollower.ExtendRun(run, actions, ChainFollower.Advance(readAt, |actions|, headers));
    }
  }

  // ----- logs are asked for by height, not by hash -----

  /** The live blocks were the headers' own at every height of the batch. */
  predicate Pinned(headers: seq<Header>, liveHash: nat -> string) {
    forall i :: 0 <= i < |headers| ==> liveHash(headers[i].blockNumber) == headers[i].blockHash
  }

  function LogsLiveAt(content: Content, liveHash: nat -> string, n: nat): seq<Log> {
    content.logs(BlockId(n, liveHash(n)))
  }

  /** The logs of whatever blocks are live at the batch's heights when they are requested. */
  function LiveLogs(content: Content, headers: seq<Header>, liveHash: nat -> string): seq<Log> {
    if headers == [] then []
    else
      LiveLogs(content, headers[..|headers| - 1], liveHash)
      + LogsLiveAt(content, liveHash, headers[|headers| - 1].blockNumber)
  }

  lemma {:induction false} LiveLogsAre(content: Content, headers: seq<Header>, liveHash: nat -> string, l: Log)
    ensures l in LiveLogs(content, headers, liveHash) <==>
      exists i :: 0 <= i < |headers| && l in LogsLiveAt(content, liveHash, headers[i].blockNumber)
  {
    if headers != [] {
      var front := headers[..|headers| - 1];
      LiveLogsAre(content, front, liveHash, l);
      if i :| 0 <= i < |front| && l in LogsLiveAt(content, liveHash, front[i].blockNumber) {
        assert headers[i] == front[i];
      }
      if i :| 0 <= i < |headers| && l in LogsLiveAt(content, liveHash, headers[i].blockNumber) {
        assert i < |front| ==> front[i] == headers[i];
      }
    }
  }

  ghost predicate LogsSuffice(w: Watchlist, content: Content, headers: seq<Header>, liveHash: nat -> string) {
    forall i, input :: 0 <= i < |headers| && DueLog(w, content, IdOf(headers[i]), input) ==>
      input in LogInputs(w, Ordered(LiveLogs(content, headers, liveHash)))
  }

  function OnlyAt(id: BlockId, l: Log): Content {
    Content(x => if x == id then [l] else [], x => [])
  }

  lemma NothingElsewhere(id: BlockId, l: Log, headers: seq<Header>, liveHash: nat -> string)
    requires forall i :: 0 <= i < |headers| ==> BlockId(headers[i].blockNumber, liveHash(headers[i].blockNumber)) != id
    ensures LiveLogs(OnlyAt(id, l), headers, liveHash) == []
  {
    if headers != [] {
      NothingElsewhere(id, l, headers[..|headers| - 1], liveHash);
    }
  }

  lemma PinnedLogsSuffice(w: Watchlist, content: Content, headers: seq<Header>, liveHash: nat -> string)
    requires Pinned(headers, liveHash)
    ensures LogsSuffice(w, content, headers, liveHash)
  {
    var logs := LiveLogs(content, headers, liveHash);
    forall i, input | 0 <= i < |headers| && DueLog(w, content, IdOf(headers[i]), input)
      ensures input in LogInputs(w, Ordered(logs))
    {
      var l :| l in content.logs(IdOf(headers[i])) && Lower(l.contractAddress) in w.contracts && LogMatches(w, l)
        && input == LogInput(w.chain, l);
      LiveLogsAre(content, headers, liveHash, l);
      OrderedSorts(logs);
      assert l in multiset(Ordered(logs));
      LogIsSubmitted(w, Ordered(logs), l);
    }
  }

  /**
   The logs a batch is given cover the blocks of its headers, whatever those blocks hold,
   exactly if the chain the logs were read from had the headers' own hashes at every height.
   */
  lemma LogsSufficeIffPinned(w: Watchlist, headers: seq<Header>, liveHash: nat -> string, sample: Log)
    requires LogMatches(w, sample) && Lower(sample.contractAddress) in w.contracts
    requires forall i, j :: 0 <= i < j < |headers| ==> headers[i].blockNumber != headers[j].blockNumber
    ensures (forall content :: LogsSuffice(w, content, headers, liveHash)) <==>
            Pinned(headers, liveHash)
  {
    if i :| 0 <= i < |headers| && liveHash(headers[i].blockNumber) != headers[i].blockHash {
      var content := OnlyAt(IdOf(headers[i]), sample);
      NothingElsewhere(IdOf(headers[i]), sample, headers, liveHash);
      assert DueLog(w, content, IdOf(headers[i]), LogInput(w.chain, sample)) by {
        assert sample in content.logs(IdOf(headers[i]));
      }
      assert Ordered([]) == [] && LogInputs(w, []) == [];
      assert LogInput(w.chain, sample) !in LogInputs(w, Ordered(LiveLogs(content, headers, liveHash)));
      assert !LogsSuffice(w, content, headers, liveHash);
    } else {
      forall content ensures LogsSuffice(w, content, headers, liveHash) {
        PinnedLogsSuffice(w, content, headers, liveHash);
      }
    }
  }

  // ----- and so are native transactions -----

  function LiveTransactions(content: Content, liveHash: nat -> string): nat -> Option<seq<NativeTransaction>> {
    (n: nat) => Some(content.transactions(BlockId(n, liveHash(n))))
  }

  /** The transaction of the batch that an input was made of. */
  predicate MadeOf(w: Watchlist, h: Header, txs: seq<NativeTransaction>, input: Input) {
    exists tx :: tx in txs && TransactionMatches(w, tx) && input == NativeInput(w.chain, tx, h.blockNumber, h.blockHash)
  }

  lemma {:induction false} TransactionInputsAre(w: Watchlist, h: Header, txs: seq<NativeTransaction>, input: Input)
    ensures input in TransactionInputs(w, h, txs) <==> MadeOf(w, h, txs, input)
  {
    if txs != [] {
      TransactionInputsAre(w, h, txs[..|txs| - 1], input);
      assert txs == txs[..|txs| - 1] + [txs[|txs| - 1]];
    }
  }

  lemma {:induction false} NativeInputsAre(w: Watchlist, headers: seq<Header>,
      txs: nat -> Option<seq<NativeTransaction>>, input: Input)
    ensures input in NativeInputs(w, headers, txs) <==>
      exists h :: h in headers && MadeOf(w, h, txs(h.blockNumber).GetOr([]), input)
  {
    if headers != [] {
      var front, last := headers[..|headers| - 1], headers[|headers| - 1];
      NativeInputsAre(w, front, txs, input);
      TransactionInputsAre(w, last, txs(last.blockNumber).GetOr([]), input);
      assert headers == front + [last];
    }
  }

  /** Every native transfer the headers' blocks hold for the watchlist is submitted. */
  ghost predicate NativeSuffices(w: Watchlist, content: Content, headers: seq<Header>, liveHash: nat -> string) {
    forall h, input :: h in headers && DueNative(w, content, IdOf(h), input) ==>
      input in NativeInputs(w, headers, LiveTransactions(content, liveHash))
  }

  /** Every native transfer submitted was made in the block it is submitted under. */
  ghost predicate NativeBelongs(w: Watchlist, content: Content, headers: seq<Header>, liveHash: nat -> string) {
    forall input :: input in NativeInputs(w, headers, LiveTransactions(content, liveHash)) ==>
      DueNative(w, content, BlockId(input.blockNumber, input.blockHash), input)
  }

  function OnlyTransactionAt(id: BlockId, tx: NativeTransaction): Content {
    Content(x => [], x => if x == id then [tx] else [])
  }

  lemma PinnedNative(w: Watchlist, content: Content, headers: seq<Header>, liveHash: nat -> string)
    requires Pinned(headers, liveHash)
    ensures NativeSuffices(w, content, headers, liveHash) && NativeBelongs(w, content, headers, liveHash)
  {
    var txs := LiveTransactions(content, liveHash);
    forall input
      ensures input in NativeInputs(w, headers, txs) <==>
        exists h :: h in headers && DueNative(w, content, IdOf(h), input)
    {
      NativeInputsAre(w, headers, txs, input);
      forall h | h in headers
        ensures MadeOf(w, h, txs(h.blockNumber).GetOr([]), input) <==> DueNative(w, content, IdOf(h), input)
      {
      }
    }
  }

  /** The live block at this header's height holds the only transaction there is. */
  lemma StrayIsSubmitted(w: Watchlist, headers: seq<Header>, liveHash: nat -> string, h: Header, tx: NativeTransaction)
    requires h in headers && TransactionMatches(w, tx) && liveHash(h.blockNumber) != h.blockHash
    ensures
      var content := OnlyTransactionAt(BlockId(h.blockNumber, liveHash(h.blockNumber)), tx);
      !NativeBelongs(w, content, headers, liveHash)
  {
    var content := OnlyTransactionAt(BlockId(h.blockNumber, liveHash(h.blockNumber)), tx);
    var input := NativeInput(w.chain, tx, h.blockNumber, h.blockHash);
    NativeInputsAre(w, headers, LiveTransactions(content, liveHash), input);
    assert tx in LiveTransactions(content, liveHash)(h.blockNumber).GetOr([]);
    assert MadeOf(w, h, LiveTransactions(content, liveHash)(h.blockNumber).GetOr([]), input);
    assert !DueNative(w, content, IdOf(h), input);
  }

  /** The header's own block holds the only transaction there is, and is not live. */
  lemma OwnIsSkipped(w: Watchlist, headers: seq<Header>, liveHash: nat -> string, h: Header, tx: NativeTransaction)
    requires h in headers && TransactionMatches(w, tx) && liveHash(h.blockNumber) != h.blockHash
    ensures !NativeSuffices(w, OnlyTransactionAt(IdOf(h), tx), headers, liveHash)
  {
    var content := OnlyTransactionAt(IdOf(h), tx);
    var input := NativeInput(w.chain, tx, h.blockNumber, h.blockHash);
    NativeInputsAre(w, headers, LiveTransactions(content, liveHash), input);
    assert tx in content.transactions(IdOf(h));
    assert DueNative(w, content, IdOf(h), input);
    forall g | g in headers
      ensures !MadeOf(w, g, LiveTransactions(content, liveHash)(g.blockNumber).GetOr([]), input)
    {
    }
  }

  /**
   The native transfers a batch submits are all those of its headers' blocks, whatever the
   blocks hold, exactly if the transactions were read from those very blocks; and exactly
   then none is submitted under the hash of a block that never held it.
   */
  lemma NativeIffPinned(w: Watchlist, headers: seq<Header>, liveHash: nat -> string, sample: NativeTransaction)
    requires TransactionMatches(w, sample)
    ensures (forall content :: NativeSuffices(w, content, headers, liveHash)) <==> Pinned(headers, liveHash)
    ensures (forall content :: NativeBelongs(w, content, headers, liveHash)) <==> Pinned(headers, liveHash)
  {
    if Pinned(headers, liveHash) {
      forall content
        ensures NativeSuffices(w, content, headers, liveHash) && NativeBelongs(w, content, headers, liveHash)
      {
        PinnedNative(w, content, headers, liveHash);
      }
    } else {
      var i :| 0 <= i < |headers| && liveHash(headers[i].blockNumber) != headers[i].blockHash;
      StrayIsSubmitted(w, headers, liveHash, headers[i], sample);
      OwnIsSkipped(w, headers, liveHash, headers[i], sample);
    }
  }

  /** Read from the headers' own blocks, the provider's answers are what the runs above call for. */
  lemma PinnedSees(w: Watchlist, content: Content, headers: seq<Header>, liveHash: nat -> string, view: View)
    requires Pinned(headers, liveHash) && view.logs.Some? && view.transactions == LiveTransactions(content, liveHash)
    requires forall l :: l in LiveLogs(content, headers, liveHash) && Lower(l.contractAddress) in w.contracts ==>
      l in view.logs.value
    ensures Sees(w, content, headers, view)
  {
    forall i, l | 0 <= i < |headers| && l in content.logs(IdOf(headers[i])) && Lower(l.contractAddress) in w.contracts
      ensures l in view.logs.value
    {
      LiveLogsAre(content, headers, liveHash, l);
    }
  }
}
