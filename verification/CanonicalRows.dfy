/**
 The stored event rows beside the chain they were read from. A batch submits its transfers
 before it commits, and only a resolver flags rows: rows of a block the chain dropped
 between the two stay canonical.
 */
module CanonicalRows {
  import opened Common
  import opened CursorStorage
  import opened ChainFollower
  import StaleResolvers
  import LinkedHistory
  import ChainWitnesses

  datatype Row = Row(block: BlockId, transactionHash: string, canonical: bool)

  /** The stores of a run of the chain follower so far, and the event rows beside the last of them. */
  datatype State = State(stores: seq<ChainStore>, actions: seq<Action>, rows: map<string, Row>)

  const EMPTY_STATE := State([EMPTY], [], map[])

  /** A submission of any batch, committed later or not, or an action of some instance. */
  datatype Step = Deliver(eventId: string, block: BlockId, transactionHash: string) | Act(action: Action)

  function Current(s: State): ChainStore
    requires |s.stores| > 0
  {
    s.stores[|s.stores| - 1]
  }

  predicate CanStep(s: State, step: Step)
    requires |s.stores| == |s.actions| + 1
  {
    step.Act? ==> Enabled(s.stores, s.actions, step.action)
  }

  /** The orphaning transaction flags blocks and rows together. */
  function Next(s: State, step: Step): State
    requires |s.stores| == |s.actions| + 1 && CanStep(s, step)
  {
    match step
    case Deliver(eventId, block, hash) =>
      if eventId in s.rows then s else s.(rows := s.rows[eventId := Row(block, hash, true)])
    case Act(a) =>
      State(s.stores + [Apply(s.stores, s.actions, a)], s.actions + [a],
            if a.Orphan? then FlagAbove(s.rows, a.fork.number) else s.rows)
  }

  function FlagAbove(rows: map<string, Row>, forkPoint: nat): map<string, Row> {
    map id | id in rows ::
      if rows[id].block.number > forkPoint then rows[id].(canonical := false) else rows[id]
  }

  ghost predicate IsHistory(states: seq<State>, steps: seq<Step>) {
    && |states| == |steps| + 1 && states[0] == EMPTY_STATE
    && forall i :: 0 <= i < |steps| ==>
         && |states[i].stores| == |states[i].actions| + 1 && CanStep(states[i], steps[i])
         && states[i + 1] == Next(states[i], steps[i])
  }

  // ----- where a canonical row may lie -----

  /** The block is canonical, or not yet passed by the cursor. */
  predicate InPlace(store: ChainStore, block: BlockId) {
    || CanonicalAt(store.blocks, block)
    || store.cursor.None? || block.number > store.cursor.value.lastProcessedBlock
  }

  ghost predicate Placed(store: ChainStore, rows: map<string, Row>) {
    forall id :: id in rows && rows[id].canonical ==> InPlace(store, rows[id].block)
  }

  /** A committing batch records the block as new if it reaches its height at all. */
  predicate Fits(store: ChainStore, headers: seq<Header>, block: BlockId)
    requires store.cursor.Some?
  {
    store.cursor.value.lastProcessedBlock < block.number <= store.cursor.value.lastProcessedBlock + |headers| ==>
      block !in store.blocks && Listed(headers, block)
  }

  predicate IsCommit(s: State, a: Action)
    requires |s.stores| == |s.actions| + 1 && Enabled(s.stores, s.actions, a)
  {
    a.Advance? && VersionOf(Current(s)) == s.stores[a.readAt].cursor.value.version
  }

  /**
   Nothing is submitted for a block already passed and not recorded, and the heights a
   commit passes hold no canonical row of a block other than those it records.
   */
  ghost predicate Clean(s: State, step: Step)
    requires |s.stores| == |s.actions| + 1 && CanStep(s, step)
  {
    match step
    case Deliver(eventId, block, _) => eventId in s.rows || InPlace(Current(s), block)
    case Act(a) =>
      if a.Bootstrap? then
        Current(s).cursor.Some?
        || forall id :: id in s.rows && s.rows[id].canonical && s.rows[id].block.number <= a.anchor.blockNumber ==>
             s.rows[id].block == IdOf(a.anchor)
      else if a.Advance? then
        VersionOf(Current(s)) != s.stores[a.readAt].cursor.value.version || Current(s).cursor.None?
        || forall id :: id in s.rows && s.rows[id].canonical ==> Fits(Current(s), a.headers, s.rows[id].block)
      else true
  }

  // ----- one step -----

  lemma AdvanceRow(store: ChainStore, headers: seq<Header>, block: BlockId)
    requires StoreOk(store) && store.cursor.Some? && Extends(store.cursor.value, headers) && InPlace(store, block)
    ensures InPlace(LinkedHistory.BatchCommit(store, headers), block) <==> Fits(store, headers, block)
  {
    LinkedHistory.BatchRows(store, headers);
    if i :| 0 <= i < |headers| && IdOf(headers[i]) == block && block !in store.blocks {
      assert IdOf(headers[i]) in LinkedHistory.BatchCommit(store, headers).blocks;
    }
  }

  lemma AdvancePlacedIff(s: State, a: Action)
    requires IsRun(s.stores, s.actions) && Enabled(s.stores, s.actions, a) && IsCommit(s, a)
    requires Placed(Current(s), s.rows)
    ensures Placed(Apply(s.stores, s.actions, a), s.rows) <==> Clean(s, Act(a))
  {
    var store := Current(s);
    var n := |s.actions|;
    RunKeepsStore(s.stores, s.actions, n);
    RunKeepsStore(s.stores, s.actions, a.classifiedAt);
    RunEvolves(s.stores, s.actions, a.readAt, a.classifiedAt);
    RunEvolves(s.stores, s.actions, a.classifiedAt, n);
    StaleResolvers.SameBatch(store, s.stores[a.classifiedAt], a.headers);
    assert Apply(s.stores, s.actions, a) == LinkedHistory.BatchCommit(store, a.headers);
    forall id | id in s.rows && s.rows[id].canonical
      ensures InPlace(Apply(s.stores, s.actions, a), s.rows[id].block) <==> Fits(store, a.headers, s.rows[id].block)
    {
      AdvanceRow(store, a.headers, s.rows[id].block);
    }
  }

  lemma BootstrapPlacedIff(s: State, a: Action)
    requires IsRun(s.stores, s.actions) && a.Bootstrap? && Current(s).cursor.None?
    ensures Placed(Apply(s.stores, s.actions, a), s.rows) <==> Clean(s, Act(a))
  {
    RunKeepsStore(s.stores, s.actions, |s.actions|);
    ChainWitnesses.UpsertOne(map[], a.anchor);
  }

  lemma OrphanKeepsPlaced(s: State, a: Action)
    requires IsRun(s.stores, s.actions) && Enabled(s.stores, s.actions, a) && a.Orphan? && Placed(Current(s), s.rows)
    ensures Placed(Apply(s.stores, s.actions, a), FlagAbove(s.rows, a.fork.number))
  {
    forall id | id in s.rows && FlagAbove(s.rows, a.fork.number)[id].canonical
      ensures InPlace(Apply(s.stores, s.actions, a), s.rows[id].block)
    {
      LinkedHistory.OrphanRow(Current(s), a.fork, s.rows[id].block);
    }
  }

  lemma RewindKeepsPlaced(s: State, a: Action)
    requires IsRun(s.stores, s.actions) && Enabled(s.stores, s.actions, a) && a.Rewind? && Placed(Current(s), s.rows)
    ensures Placed(Apply(s.stores, s.actions, a), s.rows)
  {
    var o := s.actions[a.orphanedAt];
    StaleResolvers.StepOf(s.stores, s.actions, a.orphanedAt);
    assert Enabled(s.stores[..a.orphanedAt + 1], s.actions[..a.orphanedAt], o);
    RunEvolves(s.stores, s.actions, o.readAt, |s.actions|);
  }

  /** A step keeps every canonical row in its place exactly if it is clean. */
  lemma StepPlacedIff(s: State, step: Step)
    requires IsRun(s.stores, s.actions) && CanStep(s, step) && Placed(Current(s), s.rows)
    ensures Placed(Current(Next(s, step)), Next(s, step).rows) <==> Clean(s, step)
  {
    match step
    case Deliver(eventId, block, hash) =>
      var after := Next(s, step);
      if eventId !in s.rows {
        assert after.rows[eventId] == Row(block, hash, true);
      }
    case Act(a) =>
      match a
      case Bootstrap(_) =>
        if Current(s).cursor.None? {
          BootstrapPlacedIff(s, a);
        }
      case Advance(_, _, _) =>
        if IsCommit(s, a) {
          RunEvolves(s.stores, s.actions, a.readAt, |s.actions|);
          AdvancePlacedIff(s, a);
        }
      case Orphan(_, _, _) => OrphanKeepsPlaced(s, a);
      case Rewind(_) => RewindKeepsPlaced(s, a);
  }

  // ----- every history -----

  lemma {:induction false} StoresAreRun(states: seq<State>, steps: seq<Step>, k: nat)
    requires IsHistory(states, steps) && k < |states|
    ensures IsRun(states[k].stores, states[k].actions)
  {
    if k > 0 {
      StoresAreRun(states, steps, k - 1);
      if steps[k - 1].Act? {
        ExtendRun(states[k - 1].stores, states[k - 1].actions, steps[k - 1].action);
      }
    }
  }

  ghost predicate PlacedAt(states: seq<State>, k: nat)
    requires k < |states| && |states[k].stores| > 0
  {
    Placed(Current(states[k]), states[k].rows)
  }

  ghost predicate CleanAt(states: seq<State>, steps: seq<Step>, k: nat)
    requires IsHistory(states, steps) && k < |steps|
  {
    Clean(states[k], steps[k])
  }

  lemma PlacedStep(states: seq<State>, steps: seq<Step>, k: nat)
    requires IsHistory(states, steps) && k < |steps|
    ensures |states[k].stores| > 0 && |states[k + 1].stores| > 0
    ensures PlacedAt(states, k) ==> (PlacedAt(states, k + 1) <==> CleanAt(states, steps, k))
  {
    StoresAreRun(states, steps, k);
    StoresAreRun(states, steps, k + 1);
    if PlacedAt(states, k) {
      StepPlacedIff(states[k], steps[k]);
    }
  }

  lemma {:induction false} CleanKeepsPlaced(states: seq<State>, steps: seq<Step>, k: nat)
    requires IsHistory(states, steps) && k < |states|
    requires forall i :: 0 <= i < k ==> CleanAt(states, steps, i)
    ensures |states[k].stores| > 0 && PlacedAt(states, k)
  {
    if k > 0 {
      CleanKeepsPlaced(states, steps, k - 1);
      PlacedStep(states, steps, k - 1);
    }
  }

  /**
   Every canonical row lies in a canonical block or above the cursor, in every state of a
   history, exactly if every step of it is clean. No orphaning or rewind is ever at fault.
   */
  lemma AlwaysPlacedIff(states: seq<State>, steps: seq<Step>)
    requires IsHistory(states, steps)
    ensures forall k :: 0 <= k < |states| ==> |states[k].stores| > 0
    ensures (forall k :: 0 <= k < |states| ==> PlacedAt(states, k)) <==>
            (forall k :: 0 <= k < |steps| ==> CleanAt(states, steps, k))
  {
    forall k | 0 <= k < |states| ensures |states[k].stores| > 0 {
      StoresAreRun(states, steps, k);
    }
    if forall k :: 0 <= k < |steps| ==> CleanAt(states, steps, k) {
      forall k | 0 <= k < |states| ensures PlacedAt(states, k) {
        CleanKeepsPlaced(states, steps, k);
      }
    } else {
      var k: nat :| k < |steps| && !CleanAt(states, steps, k);
      PlacedStep(states, steps, k);
    }
  }

  // ----- a transfer counted twice -----

  lemma ExtendHistory(states: seq<State>, steps: seq<Step>, step: Step)
    requires IsHistory(states, steps) && |states[|steps|].stores| == |states[|steps|].actions| + 1
    requires CanStep(states[|steps|], step)
    ensures IsHistory(states + [Next(states[|steps|], step)], steps + [step])
  {
  }

  /** An anchor at height 0. */
  lemma Anchored(zero: Header) returns (states: seq<State>, steps: seq<Step>)
    requires zero.blockNumber == 0
    ensures IsHistory(states, steps) && steps == [Act(Bootstrap(zero))]
    ensures states[1] == State([EMPTY, AtAnchor(zero)], [Bootstrap(zero)], map[])
  {
    ChainWitnesses.UpsertOne(map[], zero);
    states, steps := [EMPTY_STATE], [];
    ExtendHistory(states, steps, Act(Bootstrap(zero)));
    assert [] + [Act(Bootstrap(zero))] == [Act(Bootstrap(zero))];
    states, steps := states + [Next(EMPTY_STATE, Act(Bootstrap(zero)))], [Act(Bootstrap(zero))];
  }

  function AtAnchor(zero: Header): ChainStore {
    ChainStore(Some(Cursor(0, zero.blockHash, 0)), map[IdOf(zero) := Observed(zero.parentHash, true)])
  }

  /** Two submissions of one transaction, of two blocks at height 1. */
  lemma SubmittedTwice(zero: Header, dropped: BlockId, kept: BlockId, first: string, second: string, hash: string)
    returns (states: seq<State>, steps: seq<Step>)
    requires zero.blockNumber == 0 && first != second
    ensures IsHistory(states, steps)
    ensures steps == [Act(Bootstrap(zero)), Deliver(first, dropped, hash), Deliver(second, kept, hash)]
    ensures states[3] == State([EMPTY, AtAnchor(zero)], [Bootstrap(zero)],
                               map[first := Row(dropped, hash, true), second := Row(kept, hash, true)])
  {
    states, steps := Anchored(zero);
    ExtendHistory(states, steps, Deliver(first, dropped, hash));
    states := states + [Next(states[1], Deliver(first, dropped, hash))];
    steps := steps + [Deliver(first, dropped, hash)];
    ExtendHistory(states, steps, Deliver(second, kept, hash));
    states := states + [Next(states[2], Deliver(second, kept, hash))];
    steps := steps + [Deliver(second, kept, hash)];
  }

  /** The batch of the kept block, committed at the anchor. */
  lemma CommitsKept(zero: Header, kept: Header, rows: map<string, Row>)
    requires zero.blockNumber == 0 && kept.blockNumber == 1 && kept.parentHash == zero.blockHash
    ensures
      var s := State([EMPTY, AtAnchor(zero)], [Bootstrap(zero)], rows);
      && CanStep(s, Act(Advance(1, 1, [kept]))) && |Next(s, Act(Advance(1, 1, [kept]))).stores| == 3
      && Current(Next(s, Act(Advance(1, 1, [kept])))) ==
         ChainStore(Some(Cursor(1, kept.blockHash, 1)),
                    AtAnchor(zero).blocks[IdOf(kept) := Observed(kept.parentHash, true)])
  {
    ChainWitnesses.NewAt(AtAnchor(zero).blocks, kept);
  }

  /**
   A batch submits a transfer of one block and stops; the chain replaces the block, and the
   next batch submits the same transaction under another log index and commits. No cursor
   ever disagreed with the chain, so no resolver ran: both rows are canonical, one of them
   in a block that is not on record.
   */
  lemma CountedTwice(zero: Header, dropped: BlockId, kept: Header, first: string, second: string, hash: string)
    returns (states: seq<State>, steps: seq<Step>)
    requires zero.blockNumber == 0 && kept.blockNumber == dropped.number == 1 && kept.parentHash == zero.blockHash
    requires dropped.hash != kept.blockHash && first != second
    ensures IsHistory(states, steps)
    ensures steps == [Act(Bootstrap(zero)), Deliver(first, dropped, hash), Deliver(second, IdOf(kept), hash),
                      Act(Advance(1, 1, [kept]))]
    ensures states[4].rows == map[first := Row(dropped, hash, true), second := Row(IdOf(kept), hash, true)]
    ensures |states[4].stores| > 0 && !PlacedAt(states, 4)
  {
    var batch := Act(Advance(1, 1, [kept]));
    states, steps := SubmittedTwice(zero, dropped, IdOf(kept), first, second, hash);
    CommitsKept(zero, kept, states[3].rows);
    ExtendHistory(states, steps, batch);
    states, steps := states + [Next(states[3], batch)], steps + [batch];
    assert !InPlace(Current(states[4]), dropped);
    assert states[4].rows[first].block == dropped;
  }
}
