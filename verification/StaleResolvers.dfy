/**
 What resolvers leave behind when several instances follow one chain: which heights have a
 canonical block in any state of any run, and what a late rewind finds.
 */
module StaleResolvers {
  import opened Common
  import opened CursorStorage
  import opened ChainFollower
  import LinkedHistory

  /** Step `m` by itself, without the history before it. */
  predicate StepIs(run: seq<ChainStore>, actions: seq<Action>, m: nat)
    requires m < |actions| && |run| == |actions| + 1
  {
    match actions[m]
    case Bootstrap(anchor) => run[m + 1] == BootstrapCommit(run[m], anchor)
    case Advance(r, c, headers) =>
      && r <= c <= m && run[r].cursor.Some? && Extends(run[r].cursor.value, headers)
      && run[m + 1] == AdvanceCommit(run[m], run[r].cursor.value.version, headers[|headers| - 1].blockNumber,
                                     headers[|headers| - 1].blockHash, NewHeaders(run[c].blocks, headers))
    case Orphan(r, s, fork) =>
      && r <= s <= m && run[r].cursor.Some? && CanonicalAt(run[s].blocks, fork)
      && run[m + 1] == OrphanCommit(run[m], fork.number)
    case Rewind(o) =>
      && o < m && actions[o].Orphan? && actions[o].readAt <= o && run[actions[o].readAt].cursor.Some?
      && run[m + 1] == RewindCommit(run[m], run[actions[o].readAt].cursor.value.version, actions[o].fork.number,
                                    actions[o].fork.hash)
  }

  lemma StepOf(run: seq<ChainStore>, actions: seq<Action>, m: nat)
    requires IsRun(run, actions) && m < |actions|
    ensures StepIs(run, actions, m)
  {
    assert Enabled(run[..m + 1], actions[..m], actions[m])
      && run[m + 1] == Apply(run[..m + 1], actions[..m], actions[m]);
    assert run[..m + 1][m] == run[m];
  }

  /** Step `m` is the commit of a batch: an advance whose version still stood. */
  predicate BatchCommits(run: seq<ChainStore>, actions: seq<Action>, m: nat)
    requires m < |actions| && |run| == |actions| + 1
  {
    && actions[m].Advance? && actions[m].readAt <= m && run[actions[m].readAt].cursor.Some?
    && VersionOf(run[m]) == run[actions[m].readAt].cursor.value.version
  }

  predicate BringsNew(blocks: map<BlockId, Observed>, headers: seq<Header>, h: nat) {
    exists i :: 0 <= i < |headers| && headers[i].blockNumber == h && IdOf(headers[i]) !in blocks
  }

  /**
   Step `m` puts a block on record as canonical at height `h`: a bootstrap, or a batch bringing
   a block not seen before.
   */
  predicate Records(run: seq<ChainStore>, actions: seq<Action>, m: nat, h: nat)
    requires m < |actions| && |run| == |actions| + 1
  {
    || (actions[m].Bootstrap? && run[m].cursor.None? && actions[m].anchor.blockNumber == h)
    || (BatchCommits(run, actions, m) && BringsNew(run[m].blocks, actions[m].headers, h))
  }

  /** Some step from `i` up to `j` orphans everything above a fork below height `h`. */
  predicate OrphansBelow(actions: seq<Action>, i: nat, j: nat, h: nat)
    requires j <= |actions|
  {
    exists m :: i <= m < j && actions[m].Orphan? && actions[m].fork.number < h
  }

  // ----- which heights are taken -----

  /** A batch committed while its version stands takes exactly the heights it brings new blocks for. */
  lemma BatchStepHeights(run: seq<ChainStore>, actions: seq<Action>, m: nat, h: nat)
    requires IsRun(run, actions) && m < |actions| && BatchCommits(run, actions, m)
    ensures HeightTaken(run[m + 1].blocks, h) <==>
      HeightTaken(run[m].blocks, h) || BringsNew(run[m].blocks, actions[m].headers, h)
  {
    StepOf(run, actions, m);
    var r, c, headers := actions[m].readAt, actions[m].classifiedAt, actions[m].headers;
    RunKeepsStore(run, actions, m);
    RunKeepsStore(run, actions, c);
    RunEvolves(run, actions, r, c);
    RunEvolves(run, actions, c, m);
    assert run[m].cursor == run[r].cursor == run[c].cursor;
    SameBatch(run[m], run[c], headers);
    LinkedHistory.BatchTakesHeightIff(run[m], headers, h);
  }

  /** Classified under the same cursor, a batch has the same new headers: all of them. */
  lemma SameBatch(s: ChainStore, seen: ChainStore, headers: seq<Header>)
    requires StoreOk(s) && StoreOk(seen) && s.cursor == seen.cursor && s.cursor.Some?
    requires Extends(s.cursor.value, headers)
    ensures NewHeaders(seen.blocks, headers) == headers == NewHeaders(s.blocks, headers)
  {
    LinkedHistory.BatchRows(s, headers);
    LinkedHistory.BatchRows(seen, headers);
  }

  lemma StepHeights(run: seq<ChainStore>, actions: seq<Action>, m: nat, h: nat)
    requires IsRun(run, actions) && m < |actions|
    ensures HeightTaken(run[m + 1].blocks, h) <==>
      Records(run, actions, m, h)
        || (HeightTaken(run[m].blocks, h) && !(actions[m].Orphan? && actions[m].fork.number < h))
  {
    StepOf(run, actions, m);
    match actions[m]
    case Bootstrap(anchor) =>
      if run[m].cursor.None? {
        RunKeepsStore(run, actions, m);
        BootstrapTakes(run[m], anchor, h);
      }
    case Advance(_, _, _) =>
      if BatchCommits(run, actions, m) {
        BatchStepHeights(run, actions, m, h);
      }
    case Orphan(_, _, fork) => LinkedHistory.OrphanHeights(run[m], fork, h);
    case Rewind(_) =>
  }

  lemma BootstrapTakes(s: ChainStore, anchor: Header, h: nat)
    requires StoreOk(s) && s.cursor.None?
    ensures HeightTaken(BootstrapCommit(s, anchor).blocks, h) <==> h == anchor.blockNumber
  {
    assert [anchor][..0] == [];
    assert UpsertAll(map[], [anchor]) == map[IdOf(anchor) := Observed(anchor.parentHash, true)];
    assert IdOf(anchor) in BootstrapCommit(s, anchor).blocks;
  }

  /** Step `m` recorded a block at height `h`, and no step since orphaned it. */
  predicate Keeps(run: seq<ChainStore>, actions: seq<Action>, m: nat, k: nat, h: nat)
    requires |run| == |actions| + 1 && k <= |actions|
  {
    m < k && Records(run, actions, m, h) && !OrphansBelow(actions, m + 1, k, h)
  }

  /** Some step before `k` recorded a block at height `h` that none orphaned since. */
  predicate Recorded(run: seq<ChainStore>, actions: seq<Action>, k: nat, h: nat)
    requires |run| == |actions| + 1 && k <= |actions|
  {
    exists m: nat :: m < k && Keeps(run, actions, m, k, h)
  }

  /** And that step came after step `o`. */
  predicate RecordedSince(run: seq<ChainStore>, actions: seq<Action>, o: nat, k: nat, h: nat)
    requires |run| == |actions| + 1 && k <= |actions|
  {
    exists m: nat :: o < m < k && Keeps(run, actions, m, k, h)
  }

  lemma OrphansBelowStep(actions: seq<Action>, i: nat, j: nat, h: nat)
    requires i <= j < |actions|
    ensures OrphansBelow(actions, i, j + 1, h) <==>
      OrphansBelow(actions, i, j, h) || (actions[j].Orphan? && actions[j].fork.number < h)
  {
  }

  lemma RecordedStep(run: seq<ChainStore>, actions: seq<Action>, j: nat, h: nat)
    requires |run| == |actions| + 1 && j < |actions|
    ensures Recorded(run, actions, j + 1, h) <==>
      || Records(run, actions, j, h)
      || (Recorded(run, actions, j, h) && !(actions[j].Orphan? && actions[j].fork.number < h))
  {
    var k := j + 1;
    if Records(run, actions, j, h) {
      assert Keeps(run, actions, j, k, h);
    }
    if m: nat :| Keeps(run, actions, m, j, h) {
      OrphansBelowStep(actions, m + 1, j, h);
      assert Keeps(run, actions, m, k, h) <==> !(actions[j].Orphan? && actions[j].fork.number < h);
    }
    if m: nat :| Keeps(run, actions, m, k, h) && m < j {
      OrphansBelowStep(actions, m + 1, j, h);
      assert Keeps(run, actions, m, j, h);
    }
  }

  /**
   In every state of every run a height has a canonical block exactly if some step recorded
   one there as new and no resolver has orphaned above a lower fork since.
   */
  lemma {:induction false} HeightTakenIff(run: seq<ChainStore>, actions: seq<Action>, k: nat, h: nat)
    requires IsRun(run, actions) && k < |run|
    ensures HeightTaken(run[k].blocks, h) <==> Recorded(run, actions, k, h)
  {
    if k > 0 {
      HeightTakenIff(run, actions, k - 1, h);
      StepHeights(run, actions, k - 1, h);
      RecordedStep(run, actions, k - 1, h);
    }
  }

  /** A block stays canonical exactly until a resolver orphans above a lower fork. */
  lemma {:induction false} CanonicalUntilOrphaned(run: seq<ChainStore>, actions: seq<Action>, i: nat, k: nat,
      id: BlockId)
    requires IsRun(run, actions) && i <= k < |run| && CanonicalAt(run[i].blocks, id)
    ensures CanonicalAt(run[k].blocks, id) <==> !OrphansBelow(actions, i, k, id.number)
    decreases k - i
  {
    if i < k {
      CanonicalUntilOrphaned(run, actions, i, k - 1, id);
      OrphansBelowStep(actions, i, k - 1, id.number);
      RunEvolves(run, actions, i, k - 1);
      StepKeepsRow(run, actions, k - 1, id);
    }
  }

  /** The only step that changes a recorded block is an orphaning above a lower fork. */
  lemma StepKeepsRow(run: seq<ChainStore>, actions: seq<Action>, m: nat, id: BlockId)
    requires IsRun(run, actions) && m < |actions| && id in run[m].blocks
    ensures CanonicalAt(run[m + 1].blocks, id) <==>
      CanonicalAt(run[m].blocks, id) && !(actions[m].Orphan? && actions[m].fork.number < id.number)
  {
    StepOf(run, actions, m);
    match actions[m]
    case Bootstrap(anchor) => UpsertAllRows(run[m].blocks, [anchor], id);
    case Advance(_, c, headers) => UpsertAllRows(run[m].blocks, NewHeaders(run[c].blocks, headers), id);
    case Orphan(_, _, fork) => LinkedHistory.OrphanRow(run[m], fork, id);
    case Rewind(_) =>
  }

  // ----- a late rewind -----

  /** While the version stands, only the fork point itself can be the canonical block at its height. */
  lemma TakenByFork(seen: ChainStore, now: ChainStore, fork: BlockId)
    requires OneCanonical(seen.blocks) && CanonicalAt(seen.blocks, fork)
    requires Evolves(seen, now) && VersionOf(seen) == VersionOf(now)
    ensures HeightTaken(now.blocks, fork.number) <==> CanonicalAt(now.blocks, fork)
  {
    if id :| id in now.blocks && id.number == fork.number && now.blocks[id].canonical {
      assert CanonicalAt(now.blocks, id) && CanonicalAt(seen.blocks, id);
    }
  }

  /**
   A rewind that still finds its version puts the cursor on the fork point; a canonical block
   stands there exactly if no other resolver has meanwhile orphaned above a lower fork.
   */
  lemma RewindStandsIff(run: seq<ChainStore>, actions: seq<Action>, o: nat, r: nat)
    requires IsRun(run, actions) && o < r < |actions| && actions[r] == Rewind(o) && actions[o].Orphan?
    requires VersionOf(run[r]) == VersionOf(run[actions[o].readAt])
    ensures run[r + 1].cursor.Some? && run[r + 1].cursor.value.lastProcessedBlock == actions[o].fork.number
    ensures HeightTaken(run[r + 1].blocks, actions[o].fork.number) <==>
      !OrphansBelow(actions, actions[o].seenAt, r, actions[o].fork.number)
  {
    StepOf(run, actions, o);
    StepOf(run, actions, r);
    var read, seen, fork := actions[o].readAt, actions[o].seenAt, actions[o].fork;
    RunEvolves(run, actions, read, seen);
    RunEvolves(run, actions, seen, r);
    RunKeepsStore(run, actions, seen);
    CanonicalUntilOrphaned(run, actions, seen, r, fork);
    TakenByFork(run[seen], run[r], fork);
  }

  /**
   A rewind whose version moved changes nothing. Each height above the fork then has a
   canonical block exactly if a batch committed since the orphaning brought a new one.
   */
  lemma LostRewindTakenIff(run: seq<ChainStore>, actions: seq<Action>, o: nat, r: nat, h: nat)
    requires IsRun(run, actions) && o < r < |actions| && actions[r] == Rewind(o) && actions[o].Orphan?
    requires VersionOf(run[r]) != VersionOf(run[actions[o].readAt]) && h > actions[o].fork.number
    ensures run[r + 1] == run[r]
    ensures HeightTaken(run[r + 1].blocks, h) <==> RecordedSince(run, actions, o, r, h)
  {
    StepOf(run, actions, r);
    HeightTakenIff(run, actions, r, h);
    forall m: nat | Keeps(run, actions, m, r, h) ensures m > o {
      assert actions[o].Orphan? && actions[o].fork.number < h;
    }
  }

  /** Some height above the fork and up to the cursor has no canonical block. */
  predicate HoleAbove(s: ChainStore, fork: nat) {
    s.cursor.Some? && exists h: nat :: fork < h <= s.cursor.value.lastProcessedBlock && !HeightTaken(s.blocks, h)
  }

  /**
   Orphaning checks no version. Whatever other instances do between a resolver's orphaning
   and its rewind, the cursor ends on a canonical block exactly if either the rewind still
   found its version and no other resolver orphaned above a lower fork, or it lost and the
   cursor's block was recorded as new and not orphaned since; and a hole remains above the
   fork exactly if the rewind lost and not every height up to the cursor was recorded anew.
   */
  lemma RewindCompletesIff(run: seq<ChainStore>, actions: seq<Action>, o: nat, r: nat)
    requires IsRun(run, actions) && o < r < |actions| && actions[r] == Rewind(o) && actions[o].Orphan?
    ensures run[r].cursor.Some? && run[r + 1].cursor.Some?
    ensures
      var fork, last := actions[o].fork.number, run[r].cursor.value.lastProcessedBlock;
      var stands := VersionOf(run[r]) == VersionOf(run[actions[o].readAt]);
      && (HeightTaken(run[r + 1].blocks, run[r + 1].cursor.value.lastProcessedBlock) <==>
          if stands then !OrphansBelow(actions, actions[o].seenAt, r, fork)
          else Recorded(run, actions, r, last))
      && (HoleAbove(run[r + 1], fork) <==>
          !stands && exists h: nat :: fork < h <= last && !RecordedSince(run, actions, o, r, h))
  {
    StepOf(run, actions, o);
    StepOf(run, actions, r);
    RunEvolves(run, actions, actions[o].readAt, r);
    if VersionOf(run[r]) == VersionOf(run[actions[o].readAt]) {
      RewindStandsIff(run, actions, o, r);
    } else {
      LostRewindHoleIff(run, actions, o, r);
      HeightTakenIff(run, actions, r, run[r].cursor.value.lastProcessedBlock);
    }
  }

  lemma LostRewindHoleIff(run: seq<ChainStore>, actions: seq<Action>, o: nat, r: nat)
    requires IsRun(run, actions) && o < r < |actions| && actions[r] == Rewind(o) && actions[o].Orphan?
    requires run[r].cursor.Some?
    requires VersionOf(run[r]) != VersionOf(run[actions[o].readAt])
    ensures run[r + 1] == run[r]
    ensures HoleAbove(run[r + 1], actions[o].fork.number) <==>
      exists h: nat :: actions[o].fork.number < h <= run[r].cursor.value.lastProcessedBlock
                       && !RecordedSince(run, actions, o, r, h)
  {
    StepOf(run, actions, r);
    forall h: nat | h > actions[o].fork.number
      ensures HeightTaken(run[r + 1].blocks, h) <==> RecordedSince(run, actions, o, r, h)
    {
      LostRewindTakenIff(run, actions, o, r, h);
    }
    var fork, last := actions[o].fork.number, run[r].cursor.value.lastProcessedBlock;
    var after := run[r + 1].blocks;
    if h: nat :| fork < h <= last && !HeightTaken(after, h) {
      assert !RecordedSince(run, actions, o, r, h);
    }
    if h: nat :| fork < h <= last && !RecordedSince(run, actions, o, r, h) {
      assert !HeightTaken(after, h);
    }
  }
}
