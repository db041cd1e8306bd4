/**
 One watcher instance with its reorg resolver: exactly when its canonical history is one
 unbroken parent-hash chain, crashes between resolution's two commits included.
 */
module LinkedHistory {
  import opened Common
  import opened CursorStorage
  import opened ChainFollower

  /** The canonical blocks are exactly `chain`, from the anchor up, each naming its predecessor. */
  ghost predicate LinkedBy(blocks: map<BlockId, Observed>, anchor: nat, chain: seq<string>) {
    && |chain| > 0
    && (forall i :: 0 <= i < |chain| ==> CanonicalAt(blocks, BlockId(anchor + i, chain[i])))
    && (forall id :: CanonicalAt(blocks, id) ==>
      anchor <= id.number < anchor + |chain| && id.hash == chain[id.number - anchor])
    && (forall i :: 0 < i < |chain| ==> blocks[BlockId(anchor + i, chain[i])].parentHash == chain[i - 1])
  }

  predicate EndsAt(anchor: nat, chain: seq<string>, top: BlockId) {
    |chain| > 0 && top.number == anchor + |chain| - 1 && top.hash == chain[|chain| - 1]
  }

  ghost predicate LinkedTo(blocks: map<BlockId, Observed>, anchor: nat, top: BlockId) {
    exists chain :: LinkedBy(blocks, anchor, chain) && EndsAt(anchor, chain, top)
  }

  /** Where the instance is between resolution's orphaning commit and its rewind. */
  datatype Phase = Following | Resolving(fork: BlockId) | Interrupted(fork: BlockId)

  /**
   `anchor` is the height bootstrapped at. `holed` records that a batch was committed over
   an interrupted resolution or re-observed an orphaned block.
   */
  datatype Watcher = Watcher(store: ChainStore, phase: Phase, anchor: nat, holed: bool)

  const START: Watcher := Watcher(EMPTY, Following, 0, false)

  datatype Step = Start(anchor: Header) | Batch(headers: seq<Header>) | OrphanAbove(fork: BlockId) | RewindTo | Crash

  /** What the fork search needs of the store: every height from the fork to the cursor recorded. */
  predicate Scannable(s: ChainStore, fork: BlockId) {
    && s.cursor.Some? && CanonicalAt(s.blocks, fork) && fork.number < s.cursor.value.lastProcessedBlock
    && forall n :: fork.number <= n <= s.cursor.value.lastProcessedBlock ==> HeightTaken(s.blocks, n)
  }

  predicate CanStep(w: Watcher, step: Step) {
    match step
    case Start(_) => w.store.cursor.None?
    case Batch(headers) =>
      && !w.phase.Resolving? && w.store.cursor.Some? && Extends(w.store.cursor.value, headers)
      && forall i :: 0 <= i < |headers| ==> !Conflicts(w.store.blocks, headers[i])
    case OrphanAbove(fork) => !w.phase.Resolving? && Scannable(w.store, fork)
    case RewindTo => w.phase.Resolving? && w.store.cursor.Some?
    case Crash => w.phase.Resolving?
  }

  predicate Readopts(blocks: map<BlockId, Observed>, headers: seq<Header>) {
    exists i :: 0 <= i < |headers| && IdOf(headers[i]) in blocks
  }

  function BatchCommit(s: ChainStore, headers: seq<Header>): ChainStore
    requires s.cursor.Some? && |headers| > 0
  {
    var tip := headers[|headers| - 1];
    AdvanceCommit(s, s.cursor.value.version, tip.blockNumber, tip.blockHash, NewHeaders(s.blocks, headers))
  }

  function Next(w: Watcher, step: Step): Watcher
    requires CanStep(w, step)
  {
    match step
    case Start(anchor) => Watcher(BootstrapCommit(w.store, anchor), Following, anchor.blockNumber, false)
    case Batch(headers) =>
      Watcher(BatchCommit(w.store, headers), Following, w.anchor,
              w.holed || w.phase.Interrupted? || Readopts(w.store.blocks, headers))
    case OrphanAbove(fork) => w.(store := OrphanCommit(w.store, fork.number), phase := Resolving(fork))
    case RewindTo =>
      w.(store := RewindCommit(w.store, w.store.cursor.value.version, w.phase.fork.number, w.phase.fork.hash),
          phase := Following)
    case Crash => w.(phase := Interrupted(w.phase.fork))
  }

  predicate IsRun(run: seq<Watcher>, steps: seq<Step>) {
    && |run| == |steps| + 1 && run[0] == START
    && forall i :: 0 <= i < |steps| ==> CanStep(run[i], steps[i]) && run[i + 1] == Next(run[i], steps[i])
  }

  // ----- the invariant -----

  /** The block canonical history should reach: the cursor's, or the fork point being rewound to. */
  function Top(w: Watcher): BlockId
    requires w.store.cursor.Some?
  {
    if w.phase.Following? then
      BlockId(w.store.cursor.value.lastProcessedBlock, w.store.cursor.value.lastProcessedBlockHash)
    else w.phase.fork
  }

  predicate Hole(w: Watcher, h: nat)
    requires w.store.cursor.Some?
  {
    w.anchor < h <= Top(w).number && !HeightTaken(w.store.blocks, h)
  }

  ghost predicate PhaseOk(w: Watcher)
    requires w.store.cursor.Some?
  {
    && HeightTaken(w.store.blocks, w.anchor)
    && w.anchor <= Top(w).number
    && (!w.phase.Following? ==>
          && w.phase.fork in w.store.blocks
          && w.phase.fork.number < w.store.cursor.value.lastProcessedBlock
          && forall id :: CanonicalAt(w.store.blocks, id) ==> id.number <= w.phase.fork.number)
  }

  ghost predicate Inv(w: Watcher) {
    && StoreOk(w.store)
    && (w.store.cursor.None? ==> w.phase.Following? && !w.holed)
    && (w.store.cursor.Some? ==>
          && PhaseOk(w)
          && if w.holed then exists h: nat :: Hole(w, h) else LinkedTo(w.store.blocks, w.anchor, Top(w)))
  }

  // ----- a batch -----

  /** After a batch: the old rows as they were, and a canonical row for each header not seen before. */
  lemma BatchRows(s: ChainStore, headers: seq<Header>)
    requires StoreOk(s) && s.cursor.Some? && Extends(s.cursor.value, headers)
    ensures NewHeaders(s.blocks, headers) == headers
    ensures forall id :: id in s.blocks ==>
      id in BatchCommit(s, headers).blocks && BatchCommit(s, headers).blocks[id] == s.blocks[id]
    ensures forall id :: id in BatchCommit(s, headers).blocks && id !in s.blocks ==> Listed(headers, id)
    ensures forall i :: 0 <= i < |headers| && IdOf(headers[i]) !in s.blocks ==>
      IdOf(headers[i]) in BatchCommit(s, headers).blocks
      && BatchCommit(s, headers).blocks[IdOf(headers[i])] == Observed(headers[i].parentHash, true)
  {
    forall i | 0 <= i < |headers| ensures !HeightTaken(s.blocks, headers[i].blockNumber) {
      assert forall id :: CanonicalAt(s.blocks, id) ==> id.number <= s.cursor.value.lastProcessedBlock;
    }
    AllNew(s.blocks, headers);
    forall id
      ensures id in s.blocks ==> id in UpsertAll(s.blocks, headers) && UpsertAll(s.blocks, headers)[id] == s.blocks[id]
      ensures id in UpsertAll(s.blocks, headers) && id !in s.blocks ==> Listed(headers, id)
    {
      UpsertAllRows(s.blocks, headers, id);
    }
    forall i | 0 <= i < |headers| && IdOf(headers[i]) !in s.blocks
      ensures IdOf(headers[i]) in UpsertAll(s.blocks, headers)
      ensures UpsertAll(s.blocks, headers)[IdOf(headers[i])] == Observed(headers[i].parentHash, true)
    {
      UpsertAllRows(s.blocks, headers, IdOf(headers[i]));
    }
  }

  /** A batch takes the height of a header exactly if that block was not recorded before. */
  lemma BatchTakesHeightIff(s: ChainStore, headers: seq<Header>, n: nat)
    requires StoreOk(s) && s.cursor.Some? && Extends(s.cursor.value, headers)
    ensures HeightTaken(BatchCommit(s, headers).blocks, n) <==>
      HeightTaken(s.blocks, n) || exists i ::
        0 <= i < |headers| && headers[i].blockNumber == n && IdOf(headers[i]) !in s.blocks
  {
    BatchRows(s, headers);
    var after := BatchCommit(s, headers).blocks;
    if i :| 0 <= i < |headers| && headers[i].blockNumber == n && IdOf(headers[i]) !in s.blocks {
      assert IdOf(headers[i]) in after;
    }
    if id :| id in s.blocks && id.number == n && s.blocks[id].canonical {
      assert id in after;
    }
    if id :| id in after && id.number == n && after[id].canonical && id !in s.blocks {
      assert Listed(headers, id);
    }
  }

  function Hashes(headers: seq<Header>): seq<string> {
    seq(|headers|, i requires 0 <= i < |headers| => headers[i].blockHash)
  }

  /** Where a batch stands on the chain it extends. */
  ghost predicate Extending(s: ChainStore, headers: seq<Header>, anchor: nat, chain: seq<string>) {
    && StoreOk(s) && s.cursor.Some? && Extends(s.cursor.value, headers) && !Readopts(s.blocks, headers)
    && LinkedBy(s.blocks, anchor, chain)
    && EndsAt(anchor, chain, BlockId(s.cursor.value.lastProcessedBlock, s.cursor.value.lastProcessedBlockHash))
  }

  lemma NewRowAt(s: ChainStore, headers: seq<Header>, anchor: nat, chain: seq<string>, i: nat)
    requires Extending(s, headers, anchor, chain) && |chain| <= i < |chain| + |headers|
    ensures
      var h := headers[i - |chain|];
      && BlockId(anchor + i, (chain + Hashes(headers))[i]) == IdOf(h)
      && h.parentHash == (chain + Hashes(headers))[i - 1]
  {
  }

  lemma BatchRowAt(s: ChainStore, headers: seq<Header>, anchor: nat, chain: seq<string>, i: nat)
    requires Extending(s, headers, anchor, chain) && i < |chain| + |headers|
    ensures
      var after, longer := BatchCommit(s, headers).blocks, chain + Hashes(headers);
      && CanonicalAt(after, BlockId(anchor + i, longer[i]))
      && (0 < i ==> after[BlockId(anchor + i, longer[i])].parentHash == longer[i - 1])
  {
    BatchRows(s, headers);
    if i >= |chain| {
      NewRowAt(s, headers, anchor, chain, i);
    } else {
      assert CanonicalAt(s.blocks, BlockId(anchor + i, chain[i]));
    }
  }

  lemma BatchRowIs(s: ChainStore, headers: seq<Header>, anchor: nat, chain: seq<string>, id: BlockId)
    requires Extending(s, headers, anchor, chain) && CanonicalAt(BatchCommit(s, headers).blocks, id)
    ensures anchor <= id.number < anchor + |chain| + |headers|
    ensures id.hash == (chain + Hashes(headers))[id.number - anchor]
  {
    BatchRows(s, headers);
    if id in s.blocks {
      assert CanonicalAt(s.blocks, id);
    } else {
      var i :| 0 <= i < |headers| && IdOf(headers[i]) == id;
      assert (chain + Hashes(headers))[|chain| + i] == headers[i].blockHash;
    }
  }

  lemma BatchExtendsChain(s: ChainStore, headers: seq<Header>, anchor: nat, chain: seq<string>)
    requires Extending(s, headers, anchor, chain)
    ensures LinkedBy(BatchCommit(s, headers).blocks, anchor, chain + Hashes(headers))
    ensures EndsAt(anchor, chain + Hashes(headers), IdOf(headers[|headers| - 1]))
  {
    var after, longer := BatchCommit(s, headers).blocks, chain + Hashes(headers);
    forall i: nat | i < |longer|
      ensures CanonicalAt(after, BlockId(anchor + i, longer[i]))
      ensures 0 < i ==> after[BlockId(anchor + i, longer[i])].parentHash == longer[i - 1]
    {
      BatchRowAt(s, headers, anchor, chain, i);
    }
    forall id | CanonicalAt(after, id)
      ensures anchor <= id.number < anchor + |longer| && id.hash == longer[id.number - anchor]
    {
      BatchRowIs(s, headers, anchor, chain, id);
    }
  }

  lemma BatchKeeps(w: Watcher, headers: seq<Header>)
    requires Inv(w) && CanStep(w, Batch(headers))
    ensures Inv(Next(w, Batch(headers)))
  {
    var s, w' := w.store, Next(w, Batch(headers));
    AdvanceKeeps(s, s, s.cursor.value, headers);
    BatchTakesHeightIff(s, headers, w.anchor);
    if w.holed {
      var h: nat :| Hole(w, h);
      BatchTakesHeightIff(s, headers, h);
      assert Hole(w', h);
    } else if w.phase.Interrupted? {
      var h := w.phase.fork.number + 1;
      BatchTakesHeightIff(s, headers, h);
      assert !HeightTaken(s.blocks, h) by {
        if id :| id in s.blocks && id.number == h && s.blocks[id].canonical {
          assert CanonicalAt(s.blocks, id);
        }
      }
      assert Hole(w', h);
    } else if Readopts(s.blocks, headers) {
      var i :| 0 <= i < |headers| && IdOf(headers[i]) in s.blocks;
      ReadoptedHeightUntaken(s, headers, i);
      assert Hole(w', headers[i].blockNumber);
    } else {
      var chain :| LinkedBy(s.blocks, w.anchor, chain) && EndsAt(w.anchor, chain, Top(w));
      BatchExtendsChain(s, headers, w.anchor, chain);
    }
  }

  lemma ReadoptedHeightUntaken(s: ChainStore, headers: seq<Header>, i: nat)
    requires StoreOk(s) && s.cursor.Some? && Extends(s.cursor.value, headers)
    requires i < |headers| && IdOf(headers[i]) in s.blocks
    ensures !HeightTaken(BatchCommit(s, headers).blocks, headers[i].blockNumber)
  {
    BatchTakesHeightIff(s, headers, headers[i].blockNumber);
    assert forall id :: CanonicalAt(s.blocks, id) ==> id.number <= s.cursor.value.lastProcessedBlock;
  }

  // ----- resolution -----

  /** Between the two commits, and after a crash there, the fork search finds no stored block at the cursor. */
  lemma InterruptedNeverScans(w: Watcher, fork: BlockId)
    requires Inv(w) && w.phase.Interrupted?
    ensures !HeightTaken(w.store.blocks, w.store.cursor.value.lastProcessedBlock)
    ensures !Scannable(w.store, fork)
  {
    var n := w.store.cursor.value.lastProcessedBlock;
    if id :| id in w.store.blocks && id.number == n && w.store.blocks[id].canonical {
      assert CanonicalAt(w.store.blocks, id);
    }
  }

  lemma OrphanRow(s: ChainStore, fork: BlockId, id: BlockId)
    ensures CanonicalAt(OrphanCommit(s, fork.number).blocks, id) <==>
      CanonicalAt(s.blocks, id) && id.number <= fork.number
    ensures id in s.blocks ==> OrphanCommit(s, fork.number).blocks[id].parentHash == s.blocks[id].parentHash
  {
  }

  lemma TruncatedRowAt(s: ChainStore, anchor: nat, chain: seq<string>, fork: BlockId, i: nat)
    requires LinkedBy(s.blocks, anchor, chain) && anchor + i <= fork.number && i < |chain|
    ensures
      var after := OrphanCommit(s, fork.number).blocks;
      && CanonicalAt(after, BlockId(anchor + i, chain[i]))
      && (0 < i ==> after[BlockId(anchor + i, chain[i])].parentHash == chain[i - 1])
  {
    OrphanRow(s, fork, BlockId(anchor + i, chain[i]));
  }

  lemma OrphanTruncates(s: ChainStore, anchor: nat, chain: seq<string>, fork: BlockId)
    requires LinkedBy(s.blocks, anchor, chain) && CanonicalAt(s.blocks, fork)
    ensures LinkedTo(OrphanCommit(s, fork.number).blocks, anchor, fork)
  {
    var shorter := chain[..fork.number - anchor + 1];
    var after := OrphanCommit(s, fork.number).blocks;
    forall i: nat | i < |shorter|
      ensures CanonicalAt(after, BlockId(anchor + i, shorter[i]))
      ensures 0 < i ==> after[BlockId(anchor + i, shorter[i])].parentHash == shorter[i - 1]
    {
      TruncatedRowAt(s, anchor, chain, fork, i);
    }
    forall id | CanonicalAt(after, id)
      ensures anchor <= id.number < anchor + |shorter| && id.hash == shorter[id.number - anchor]
    {
      OrphanRow(s, fork, id);
    }
    assert LinkedBy(after, anchor, shorter) && EndsAt(anchor, shorter, fork);
  }

  lemma OrphanKeepsStore(s: ChainStore, fork: BlockId)
    requires StoreOk(s)
    ensures StoreOk(OrphanCommit(s, fork.number))
    ensures forall id :: CanonicalAt(OrphanCommit(s, fork.number).blocks, id) <==>
      CanonicalAt(s.blocks, id) && id.number <= fork.number
  {
  }

  lemma OrphanHeights(s: ChainStore, fork: BlockId, n: nat)
    ensures HeightTaken(OrphanCommit(s, fork.number).blocks, n) <==> n <= fork.number && HeightTaken(s.blocks, n)
  {
    var after := OrphanCommit(s, fork.number).blocks;
    if id :| id in s.blocks && id.number == n && s.blocks[id].canonical {
      assert id in after;
    }
    if id :| id in after && id.number == n && after[id].canonical {
      assert id in s.blocks;
    }
  }

  /** The fork search passes no hole, and starts only where the cursor stands on a canonical block. */
  lemma ScanAboveHoles(w: Watcher, fork: BlockId, h: nat)
    requires Inv(w) && CanStep(w, OrphanAbove(fork))
    ensures w.phase.Following?
    ensures w.anchor <= fork.number
    ensures Hole(w, h) ==> h < fork.number
  {
    if w.phase.Interrupted? {
      InterruptedNeverScans(w, fork);
    }
    if w.holed {
      var g: nat :| Hole(w, g);
      assert g < fork.number;
    } else {
      var chain :| LinkedBy(w.store.blocks, w.anchor, chain) && EndsAt(w.anchor, chain, Top(w));
    }
  }

  lemma OrphanKeeps(w: Watcher, fork: BlockId)
    requires Inv(w) && CanStep(w, OrphanAbove(fork))
    ensures Inv(Next(w, OrphanAbove(fork)))
  {
    var s, w' := w.store, Next(w, OrphanAbove(fork));
    ScanAboveHoles(w, fork, 0);
    OrphanKeepsStore(s, fork);
    OrphanHeights(s, fork, w.anchor);
    assert PhaseOk(w');
    if w.holed {
      var h: nat :| Hole(w, h);
      ScanAboveHoles(w, fork, h);
      OrphanHeights(s, fork, h);
      assert Hole(w', h);
    } else {
      var chain :| LinkedBy(s.blocks, w.anchor, chain) && EndsAt(w.anchor, chain, Top(w));
      OrphanTruncates(s, w.anchor, chain, fork);
    }
  }

  lemma StartKeeps(w: Watcher, anchor: Header)
    requires Inv(w) && CanStep(w, Start(anchor))
    ensures Inv(Next(w, Start(anchor)))
  {
    BootstrapKeeps(w.store, anchor);
    var after := BootstrapCommit(w.store, anchor).blocks;
    assert [anchor][..0] == [];
    assert UpsertAll(map[], [anchor]) == map[IdOf(anchor) := Observed(anchor.parentHash, true)];
    assert IdOf(anchor) in after;
    assert LinkedBy(after, anchor.blockNumber, [anchor.blockHash]);
  }

  lemma StepKeeps(w: Watcher, step: Step)
    requires Inv(w) && CanStep(w, step)
    ensures Inv(Next(w, step))
  {
    match step
    case Start(anchor) => StartKeeps(w, anchor);
    case Batch(headers) => BatchKeeps(w, headers);
    case OrphanAbove(fork) => OrphanKeeps(w, fork);
    case RewindTo =>
      var w' := Next(w, step);
      assert w'.store.blocks == w.store.blocks && Top(w') == Top(w);
      if w.holed {
        var h: nat :| Hole(w, h);
        assert Hole(w', h);
      }
    case Crash =>
      if w.holed {
        var h: nat :| Hole(w, h);
        assert Hole(Next(w, step), h);
      }
  }

  lemma {:induction false} RunKeepsInv(run: seq<Watcher>, steps: seq<Step>, k: nat)
    requires IsRun(run, steps) && k < |run|
    ensures Inv(run[k])
  {
    if k > 0 {
      RunKeepsInv(run, steps, k - 1);
      StepKeeps(run[k - 1], steps[k - 1]);
    }
  }

  // ----- the theorems -----

  lemma LinkedHasNoHole(blocks: map<BlockId, Observed>, anchor: nat, top: BlockId, low: nat, h: nat)
    requires LinkedTo(blocks, anchor, top) && HeightTaken(blocks, low) && low < h <= top.number
    ensures HeightTaken(blocks, h)
  {
    var chain :| LinkedBy(blocks, anchor, chain) && EndsAt(anchor, chain, top);
    var id :| id in blocks && id.number == low && blocks[id].canonical;
    assert CanonicalAt(blocks, id);
    assert CanonicalAt(blocks, BlockId(anchor + (h - anchor), chain[h - anchor]));
  }

  /**
   While no resolution is open, canonical history is one unbroken parent-hash chain ending
   at the cursor's block exactly if no batch was ever committed over an interrupted
   resolution and none re-observed an orphaned block.
   */
  lemma LinkedUnlessHoled(run: seq<Watcher>, steps: seq<Step>, k: nat)
    requires IsRun(run, steps) && k < |run| && run[k].store.cursor.Some? && run[k].phase.Following?
    ensures !run[k].holed <==> exists anchor: nat :: LinkedTo(run[k].store.blocks, anchor, Top(run[k]))
  {
    RunKeepsInv(run, steps, k);
    var w := run[k];
    if w.holed {
      var h: nat :| Hole(w, h);
      forall anchor: nat | LinkedTo(w.store.blocks, anchor, Top(w)) ensures false {
        LinkedHasNoHole(w.store.blocks, anchor, Top(w), w.anchor, h);
      }
    }
  }

  /** Between resolution's two commits the chain ends at the fork point instead. */
  lemma LinkedToForkWhileResolving(run: seq<Watcher>, steps: seq<Step>, k: nat)
    requires IsRun(run, steps) && k < |run| && !run[k].phase.Following? && !run[k].holed
    ensures LinkedTo(run[k].store.blocks, run[k].anchor, run[k].phase.fork)
    ensures run[k].store.cursor.Some? && run[k].phase.fork.number < run[k].store.cursor.value.lastProcessedBlock
  {
    RunKeepsInv(run, steps, k);
  }

  lemma HoleSurvivesBatch(w: Watcher, headers: seq<Header>, h: nat)
    requires StoreOk(w.store) && CanStep(w, Batch(headers)) && PhaseOk(w) && Hole(w, h)
    ensures Hole(Next(w, Batch(headers)), h)
  {
    BatchTakesHeightIff(w.store, headers, h);
  }

  lemma HoleSurvivesOrphan(w: Watcher, fork: BlockId, h: nat)
    requires Inv(w) && CanStep(w, OrphanAbove(fork)) && Hole(w, h)
    ensures Hole(Next(w, OrphanAbove(fork)), h)
  {
    ScanAboveHoles(w, fork, h);
    OrphanHeights(w.store, fork, h);
  }

  lemma HoleSurvivesMove(w: Watcher, step: Step, h: nat)
    requires CanStep(w, step) && !step.Batch? && !step.OrphanAbove? && w.store.cursor.Some? && Hole(w, h)
    ensures Next(w, step).store.cursor.Some? && Hole(Next(w, step), h)
  {
    assert Next(w, step).store.blocks == w.store.blocks && Top(Next(w, step)) == Top(w);
  }

  lemma HoleSurvivesStep(w: Watcher, step: Step, h: nat)
    requires Inv(w) && CanStep(w, step) && w.store.cursor.Some? && Hole(w, h)
    ensures Next(w, step).store.cursor.Some? && Hole(Next(w, step), h)
  {
    if step.Batch? {
      HoleSurvivesBatch(w, step.headers, h);
    } else if step.OrphanAbove? {
      HoleSurvivesOrphan(w, step.fork, h);
    } else {
      HoleSurvivesMove(w, step, h);
    }
  }

  /** A hole is never filled: no later batch, orphaning or rewind gives its height a canonical block. */
  lemma {:induction false} HolesArePermanent(run: seq<Watcher>, steps: seq<Step>, j: nat, k: nat, h: nat)
    requires IsRun(run, steps) && j <= k < |run| && run[j].store.cursor.Some? && Hole(run[j], h)
    ensures run[k].store.cursor.Some? && Hole(run[k], h)
    decreases k - j
  {
    if j < k {
      HolesArePermanent(run, steps, j, k - 1, h);
      RunKeepsInv(run, steps, k - 1);
      HoleSurvivesStep(run[k - 1], steps[k - 1], h);
    }
  }
}
