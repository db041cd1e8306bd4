/**
 Runs of the chain follower over any four linked blocks: how each kind of hole comes about.
 */
module ChainWitnesses {
  import opened Common
  import opened CursorStorage
  import opened ChainFollower
  import LinkedHistory

  /** Four blocks of a chain, from height 0. */
  datatype Blocks = Blocks(zero: Header, one: Header, two: Header, three: Header)

  predicate Linked(b: Blocks) {
    && b.zero.blockNumber == 0 && b.one.blockNumber == 1 && b.two.blockNumber == 2 && b.three.blockNumber == 3
    && b.one.parentHash == b.zero.blockHash && b.two.parentHash == b.one.blockHash
      && b.three.parentHash == b.two.blockHash
  }

  function RowOf(h: Header, canonical: bool): Observed {
    Observed(h.parentHash, canonical)
  }

  // ----- several instances -----

  /** One instance has followed the chain from block 0 to block 2, under version 1. */
  lemma AtHeightTwo(b: Blocks) returns (run: seq<ChainStore>, actions: seq<Action>)
    requires Linked(b)
    ensures IsRun(run, actions) && |actions| == 2
    ensures run[2] == ChainStore(Some(Cursor(2, b.two.blockHash, 1)), AtTwo(b))
  {
    run, actions := [EMPTY], [];
    ExtendRun(run, actions, Bootstrap(b.zero));
    UpsertOne(map[], b.zero);
    var one := ChainStore(Some(Cursor(0, b.zero.blockHash, 0)), map[IdOf(b.zero) := RowOf(b.zero, true)]);
    assert Apply(run, actions, Bootstrap(b.zero)) == one;
    run, actions := run + [one], actions + [Bootstrap(b.zero)];
    var batch := Advance(1, 1, [b.one, b.two]);
    AllNew(one.blocks, [b.one, b.two]);
    UpsertOne(one.blocks, b.one);
    UpsertNext(one.blocks, [b.one], b.two);
    assert [b.one] + [b.two] == [b.one, b.two];
    ExtendRun(run, actions, batch);
    run, actions := run + [Apply(run, actions, batch)], actions + [batch];
  }

  lemma UpsertOne(blocks: map<BlockId, Observed>, h: Header)
    requires IdOf(h) !in blocks
    ensures UpsertAll(blocks, [h]) == blocks[IdOf(h) := Observed(h.parentHash, true)]
  {
    assert [h][..0] == [];
  }

  /** A block above every recorded one is new. */
  lemma NewAt(blocks: map<BlockId, Observed>, h: Header)
    requires forall id :: id in blocks ==> id.number < h.blockNumber
    ensures !Conflicts(blocks, h) && NewHeaders(blocks, [h]) == [h]
    ensures UpsertAll(blocks, [h]) == blocks[IdOf(h) := Observed(h.parentHash, true)]
  {
    AllNew(blocks, [h]);
    UpsertOne(blocks, h);
  }

  lemma UpsertNext(blocks: map<BlockId, Observed>, headers: seq<Header>, h: Header)
    requires IdOf(h) !in UpsertAll(blocks, headers)
    ensures UpsertAll(blocks, headers + [h]) == UpsertAll(blocks, headers)[IdOf(h) := Observed(h.parentHash, true)]
  {
    assert (headers + [h])[..|headers|] == headers;
  }

  function AtTwo(b: Blocks): map<BlockId, Observed> {
    map[IdOf(b.zero) := RowOf(b.zero, true), IdOf(b.one) := RowOf(b.one, true), IdOf(b.two) := RowOf(b.two, true)]
  }

  /** From height 2 a resolver that read the cursor there orphans everything above block 0. */
  lemma OrphanedAboveAnchor(b: Blocks, run: seq<ChainStore>, actions: seq<Action>)
    requires Linked(b)
    requires IsRun(run, actions) && |actions| == 2
    requires run[2] == ChainStore(Some(Cursor(2, b.two.blockHash, 1)), AtTwo(b))
    ensures IsRun(run + [OrphanCommit(run[2], 0)], actions + [Orphan(2, 2, IdOf(b.zero))])
  {
    ExtendRun(run, actions, Orphan(2, 2, IdOf(b.zero)));
  }

  lemma OrphanedTwice(b: Blocks, run: seq<ChainStore>, actions: seq<Action>)
    requires Linked(b)
    requires IsRun(run, actions) && |actions| == 2
    requires run[2] == ChainStore(Some(Cursor(2, b.two.blockHash, 1)), AtTwo(b))
    ensures IsRun(run + [OrphanCommit(run[2], 1), OrphanCommit(OrphanCommit(run[2], 1), 0)],
                  actions + [Orphan(2, 2, IdOf(b.one)), Orphan(2, 2, IdOf(b.zero))])
  {
    var once, done := run + [OrphanCommit(run[2], 1)], actions + [Orphan(2, 2, IdOf(b.one))];
    ExtendRun(run, actions, Orphan(2, 2, IdOf(b.one)));
    ExtendRun(once, done, Orphan(2, 2, IdOf(b.zero)));
    assert once + [OrphanCommit(once[3], 0)] == run
      + [OrphanCommit(run[2], 1), OrphanCommit(OrphanCommit(run[2], 1), 0)];
    assert done + [Orphan(2, 2, IdOf(b.zero))] == actions + [Orphan(2, 2, IdOf(b.one)), Orphan(2, 2, IdOf(b.zero))];
  }

  /**
   Two resolvers read the cursor at height 2 and find forks 1 and 0. The first one's read is
   current to the end and its rewind succeeds, on a block the second one orphaned.
   */
  lemma TwoResolversOrphanTheForkPoint(b: Blocks) returns (run: seq<ChainStore>, actions: seq<Action>)
    requires Linked(b)
    ensures IsRun(run, actions) && |actions| == 6
    ensures actions[2].Orphan? && actions[4] == Rewind(2) && VersionOf(run[4]) == VersionOf(run[actions[2].readAt])
    ensures run[6].cursor == Some(Cursor(1, b.one.blockHash, 2)) && !HeightTaken(run[6].blocks, 1)
  {
    run, actions := AtHeightTwo(b);
    var twice := OrphanCommit(OrphanCommit(run[2], 1), 0);
    OrphanedTwice(b, run, actions);
    run := run + [OrphanCommit(run[2], 1), twice];
    actions := actions + [Orphan(2, 2, IdOf(b.one)), Orphan(2, 2, IdOf(b.zero))];
    var rewound := twice.(cursor := Some(Cursor(1, b.one.blockHash, 2)));
    ExtendRun(run, actions, Rewind(2));
    run, actions := run + [rewound], actions + [Rewind(2)];
    ExtendRun(run, actions, Rewind(3));
    run, actions := run + [rewound], actions + [Rewind(3)];
  }

  /**
   Another instance commits a batch between a resolver's orphaning and its rewind: the
   rewind loses, the cursor stands on a canonical block, and the two heights below it are
   left without one.
   */
  lemma BatchOverOrphanedHistory(b: Blocks) returns (run: seq<ChainStore>, actions: seq<Action>)
    requires Linked(b)
    ensures IsRun(run, actions) && |actions| == 5
    ensures actions[2].Orphan? && actions[4] == Rewind(2) && VersionOf(run[2]) == VersionOf(run[actions[2].readAt])
    ensures run[5].cursor == Some(Cursor(3, b.three.blockHash, 2)) && HeightTaken(run[5].blocks, 3)
    ensures !HeightTaken(run[5].blocks, 1) && !HeightTaken(run[5].blocks, 2)
  {
    run, actions := AtHeightTwo(b);
    var s, orphaned := run[2], OrphanCommit(run[2], 0);
    OrphanedAboveAnchor(b, run, actions);
    run, actions := run + [orphaned], actions + [Orphan(2, 2, IdOf(b.zero))];
    var after :=
      ChainStore(Some(Cursor(3, b.three.blockHash, 2)), orphaned.blocks[IdOf(b.three) := RowOf(b.three, true)]);
    BatchAfterOrphan(b, run, actions, after);
    run, actions := run + [after], actions + [Advance(2, 2, [b.three])];
    ExtendRun(run, actions, Rewind(2));
    run, actions := run + [after], actions + [Rewind(2)];
    assert IdOf(b.three) in after.blocks;
  }

  lemma ThirdFits(b: Blocks, run: seq<ChainStore>, actions: seq<Action>)
    requires Linked(b)
    requires |run| == 4 && |actions| == 3 && run[2] == ChainStore(Some(Cursor(2, b.two.blockHash, 1)), AtTwo(b))
    ensures Enabled(run, actions, Advance(2, 2, [b.three]))
  {
    NothingAtThree(b);
  }

  lemma BatchAfterOrphan(b: Blocks, run: seq<ChainStore>, actions: seq<Action>, after: ChainStore)
    requires Linked(b)
    requires IsRun(run, actions) && |actions| == 3
    requires run[2] == ChainStore(Some(Cursor(2, b.two.blockHash, 1)), AtTwo(b))
    requires run[3] == OrphanCommit(run[2], 0)
    requires after ==
      ChainStore(Some(Cursor(3, b.three.blockHash, 2)), run[3].blocks[IdOf(b.three) := RowOf(b.three, true)])
    ensures IsRun(run + [after], actions + [Advance(2, 2, [b.three])])
  {
    ThirdFits(b, run, actions);
    BatchCommit(b, run[3], after);
    ExtendRun(run, actions, Advance(2, 2, [b.three]));
  }

  lemma BatchCommit(b: Blocks, s: ChainStore, after: ChainStore)
    requires Linked(b)
    requires s.cursor == Some(Cursor(2, b.two.blockHash, 1)) && s.blocks.Keys == AtTwo(b).Keys
    requires after == ChainStore(Some(Cursor(3, b.three.blockHash, 2)), s.blocks[IdOf(b.three) := RowOf(b.three, true)])
    ensures NewHeaders(AtTwo(b), [b.three]) == [b.three]
    ensures AdvanceCommit(s, 1, 3, b.three.blockHash, [b.three]) == after
  {
    NothingAtThree(b);
    NewAt(AtTwo(b), b.three);
    UpsertOne(s.blocks, b.three);
  }

  lemma NothingAtThree(b: Blocks)
    requires Linked(b)
    ensures !HeightTaken(AtTwo(b), 3) && !Conflicts(AtTwo(b), b.three) && IdOf(b.three) !in AtTwo(b)
  {
  }

  // ----- one instance -----

  lemma ExtendWatch(run: seq<LinkedHistory.Watcher>, steps: seq<LinkedHistory.Step>, step: LinkedHistory.Step)
    requires LinkedHistory.IsRun(run, steps) && LinkedHistory.CanStep(run[|run| - 1], step)
    ensures LinkedHistory.IsRun(run + [LinkedHistory.Next(run[|run| - 1], step)], steps + [step])
  {
  }

  function AtZero(b: Blocks): map<BlockId, Observed> {
    map[IdOf(b.zero) := RowOf(b.zero, true)]
  }

  function AtOne(b: Blocks): map<BlockId, Observed> {
    map[IdOf(b.zero) := RowOf(b.zero, true), IdOf(b.one) := RowOf(b.one, true)]
  }

  function Forked(b: Blocks): map<BlockId, Observed> {
    map[IdOf(b.zero) := RowOf(b.zero, true), IdOf(b.one) := RowOf(b.one, false)]
  }

  /** The instance has followed the chain to block 1. */
  lemma AtHeightOne(b: Blocks) returns (run: seq<LinkedHistory.Watcher>, steps: seq<LinkedHistory.Step>)
    requires Linked(b)
    ensures LinkedHistory.IsRun(run, steps) && |steps| == 2
    ensures run[2] ==
      LinkedHistory.Watcher(ChainStore(Some(Cursor(1, b.one.blockHash, 1)), AtOne(b)),
          LinkedHistory.Following, 0, false)
  {
    var zero :=
      LinkedHistory.Watcher(ChainStore(Some(Cursor(0, b.zero.blockHash, 0)), AtZero(b)),
          LinkedHistory.Following, 0, false);
    run, steps := [LinkedHistory.START], [];
    UpsertOne(map[], b.zero);
    ExtendWatch(run, steps, LinkedHistory.Start(b.zero));
    run, steps := run + [zero], steps + [LinkedHistory.Start(b.zero)];
    FirstBatch(b, zero);
    ExtendWatch(run, steps, LinkedHistory.Batch([b.one]));
    run, steps :=
      run + [LinkedHistory.Next(zero, LinkedHistory.Batch([b.one]))], steps + [LinkedHistory.Batch([b.one])];
  }

  lemma FirstBatch(b: Blocks, w: LinkedHistory.Watcher)
    requires Linked(b)
    requires w ==
      LinkedHistory.Watcher(ChainStore(Some(Cursor(0, b.zero.blockHash, 0)), AtZero(b)),
          LinkedHistory.Following, 0, false)
    ensures LinkedHistory.CanStep(w, LinkedHistory.Batch([b.one]))
    ensures LinkedHistory.Next(w, LinkedHistory.Batch([b.one])) ==
            LinkedHistory.Watcher(ChainStore(Some(Cursor(1, b.one.blockHash, 1)), AtOne(b)),
                LinkedHistory.Following, 0, false)
  {
    NewAt(AtZero(b), b.one);
  }

  /** And resolution has orphaned that block. */
  lemma ResolvingAtOne(b: Blocks) returns (run: seq<LinkedHistory.Watcher>, steps: seq<LinkedHistory.Step>)
    requires Linked(b)
    ensures LinkedHistory.IsRun(run, steps) && |steps| == 3
    ensures run[3] ==
      LinkedHistory.Watcher(ChainStore(Some(Cursor(1, b.one.blockHash, 1)), Forked(b)),
          LinkedHistory.Resolving(IdOf(b.zero)), 0, false)
  {
    run, steps := AtHeightOne(b);
    assert IdOf(b.zero) in AtOne(b) && IdOf(b.one) in AtOne(b);
    ExtendWatch(run, steps, LinkedHistory.OrphanAbove(IdOf(b.zero)));
    assert OrphanCommit(run[2].store, 0).blocks == Forked(b);
    run := run + [LinkedHistory.Next(run[2], LinkedHistory.OrphanAbove(IdOf(b.zero)))];
    steps := steps + [LinkedHistory.OrphanAbove(IdOf(b.zero))];
  }

  /** A crash between resolution's two commits and then a batch: block 1 is passed and not canonical. */
  lemma CrashLeavesHole(b: Blocks) returns (run: seq<LinkedHistory.Watcher>, steps: seq<LinkedHistory.Step>)
    requires Linked(b)
    ensures LinkedHistory.IsRun(run, steps) && |steps| == 5 && steps[3] == LinkedHistory.Crash
    ensures run[5].store.cursor == Some(Cursor(2, b.two.blockHash, 2)) && run[5].holed && LinkedHistory.Hole(run[5], 1)
  {
    run, steps := ResolvingAtOne(b);
    var crashed := run[3].(phase := LinkedHistory.Interrupted(IdOf(b.zero)));
    ExtendWatch(run, steps, LinkedHistory.Crash);
    run, steps := run + [crashed], steps + [LinkedHistory.Crash];
    SecondBatch(b, crashed);
    ExtendWatch(run, steps, LinkedHistory.Batch([b.two]));
    run, steps :=
      run + [LinkedHistory.Next(crashed, LinkedHistory.Batch([b.two]))], steps + [LinkedHistory.Batch([b.two])];
  }

  lemma SecondFits(b: Blocks)
    requires Linked(b)
    ensures IdOf(b.two) !in Forked(b) && !Conflicts(Forked(b), b.two) && NewHeaders(Forked(b), [b.two]) == [b.two]
    ensures UpsertAll(Forked(b), [b.two]) == Forked(b)[IdOf(b.two) := RowOf(b.two, true)]
  {
    assert forall id :: id in Forked(b) ==> id.number < 2;
    NewAt(Forked(b), b.two);
  }

  lemma SecondBatch(b: Blocks, w: LinkedHistory.Watcher)
    requires Linked(b)
    requires w ==
      LinkedHistory.Watcher(ChainStore(Some(Cursor(1, b.one.blockHash, 1)), Forked(b)),
          LinkedHistory.Interrupted(IdOf(b.zero)), 0, false)
    ensures LinkedHistory.CanStep(w, LinkedHistory.Batch([b.two]))
    ensures LinkedHistory.Next(w, LinkedHistory.Batch([b.two])) ==
            LinkedHistory.Watcher(ChainStore(Some(Cursor(2, b.two.blockHash, 2)),
                Forked(b)[IdOf(b.two) := RowOf(b.two, true)]),
                LinkedHistory.Following, 0, true)
  {
    SecondFits(b);
  }

  /** Resolution completes, then the chain flips back to the orphaned block: the cursor stands on it, not canonical. */
  lemma ReadoptionLeavesHole(b: Blocks) returns (run: seq<LinkedHistory.Watcher>, steps: seq<LinkedHistory.Step>)
    requires Linked(b)
    ensures LinkedHistory.IsRun(run, steps) && |steps| == 5 && steps[3] == LinkedHistory.RewindTo
    ensures run[5].store.cursor == Some(Cursor(1, b.one.blockHash, 3)) && run[5].holed && LinkedHistory.Hole(run[5], 1)
  {
    run, steps := ResolvingAtOne(b);
    var rewound :=
      LinkedHistory.Watcher(ChainStore(Some(Cursor(0, b.zero.blockHash, 2)), Forked(b)),
          LinkedHistory.Following, 0, false);
    ExtendWatch(run, steps, LinkedHistory.RewindTo);
    run, steps := run + [rewound], steps + [LinkedHistory.RewindTo];
    ReadoptingBatch(b, rewound);
    ExtendWatch(run, steps, LinkedHistory.Batch([b.one]));
    run, steps :=
      run + [LinkedHistory.Next(rewound, LinkedHistory.Batch([b.one]))], steps + [LinkedHistory.Batch([b.one])];
  }

  lemma ReadoptingBatch(b: Blocks, w: LinkedHistory.Watcher)
    requires Linked(b)
    requires w ==
      LinkedHistory.Watcher(ChainStore(Some(Cursor(0, b.zero.blockHash, 2)), Forked(b)),
          LinkedHistory.Following, 0, false)
    ensures LinkedHistory.CanStep(w, LinkedHistory.Batch([b.one]))
    ensures LinkedHistory.Next(w, LinkedHistory.Batch([b.one])) ==
            LinkedHistory.Watcher(ChainStore(Some(Cursor(1, b.one.blockHash, 3)), Forked(b)),
                LinkedHistory.Following, 0, true)
  {
    OnlyZeroCanonical(b);
    KnownAt(Forked(b), b.one);
  }

  lemma OnlyZeroCanonical(b: Blocks)
    requires Linked(b)
    ensures IdOf(b.one) in Forked(b) && forall id :: id in Forked(b) && Forked(b)[id].canonical ==> id.number < 1
  {
  }

  /** A block on record at a height without canonical block is new to a batch, and left as it is. */
  lemma KnownAt(blocks: map<BlockId, Observed>, h: Header)
    requires IdOf(h) in blocks && forall id :: id in blocks && blocks[id].canonical ==> id.number < h.blockNumber
    ensures !Conflicts(blocks, h) && NewHeaders(blocks, [h]) == [h] && UpsertAll(blocks, [h]) == blocks
  {
    var one := [h];
    assert !HeightTaken(blocks, h.blockNumber);
    assert one[..0] == [] && NewHeaders(blocks, []) == [] && UpsertAll(blocks, []) == blocks;
    assert NewHeaders(blocks, one) == NewHeaders(blocks, one[..0]) + [h];
    assert UpsertAll(blocks, one) == UpsertAll(blocks, one[..0]);
  }
}
