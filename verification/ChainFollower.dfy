/**
 Any number of watcher instances following one chain. A run is the sequence of committed
 stores; a cursor or block an instance read before its commit is read from an earlier
 store of the same run.
 */
module ChainFollower {
  import opened Common
  import opened CursorStorage

  datatype Action =
    | Bootstrap(anchor: Header)
    | Advance(readAt: nat, classifiedAt: nat, headers: seq<Header>)
    | Orphan(readAt: nat, seenAt: nat, fork: BlockId)
    | Rewind(orphanedAt: nat)

  /** A batch: the heights right above the cursor, each header naming its predecessor's hash. */
  predicate Extends(cursor: Cursor, headers: seq<Header>) {
    && |headers| > 0
    && headers[0].parentHash == cursor.lastProcessedBlockHash
    && (forall i :: 0 <= i < |headers| ==> headers[i].blockNumber == cursor.lastProcessedBlock + 1 + i)
    && (forall i :: 1 <= i < |headers| ==> headers[i].parentHash == headers[i - 1].blockHash)
  }

  predicate Enabled(past: seq<ChainStore>, done: seq<Action>, a: Action)
    requires |past| == |done| + 1
  {
    match a
    case Bootstrap(_) => true
    case Advance(r, c, headers) =>
      && r <= c < |past| && past[r].cursor.Some? && Extends(past[r].cursor.value, headers)
      && forall i :: 0 <= i < |headers| ==> !Conflicts(past[c].blocks, headers[i])
    case Orphan(r, s, fork) =>
      && r <= s < |past| && past[r].cursor.Some? && fork.number < past[r].cursor.value.lastProcessedBlock
      && CanonicalAt(past[s].blocks, fork)
    case Rewind(o) => o < |done| && done[o].Orphan? && done[o].readAt <= o && past[done[o].readAt].cursor.Some?
  }

  function Apply(past: seq<ChainStore>, done: seq<Action>, a: Action): ChainStore
    requires |past| == |done| + 1 && Enabled(past, done, a)
  {
    var cur := past[|past| - 1];
    match a
    case Bootstrap(anchor) => BootstrapCommit(cur, anchor)
    case Advance(r, c, headers) =>
      var tip := headers[|headers| - 1];
      AdvanceCommit(cur, past[r].cursor.value.version, tip.blockNumber, tip.blockHash,
          NewHeaders(past[c].blocks, headers))
    case Orphan(_, _, fork) => OrphanCommit(cur, fork.number)
    case Rewind(o) =>
      RewindCommit(cur, past[done[o].readAt].cursor.value.version, done[o].fork.number, done[o].fork.hash)
  }

  predicate IsRun(run: seq<ChainStore>, actions: seq<Action>) {
    && |run| == |actions| + 1 && run[0] == EMPTY
    && forall i :: 0 <= i < |actions| ==>
         Enabled(run[..i + 1], actions[..i], actions[i]) && run[i + 1] == Apply(run[..i + 1], actions[..i], actions[i])
  }

  // ----- what an earlier store says about every later one -----

  /** While the version stands the cursor stands and blocks are only ever flagged. */
  ghost predicate Evolves(a: ChainStore, b: ChainStore) {
    && VersionOf(a) <= VersionOf(b)
    && (VersionOf(a) == VersionOf(b) ==> a.cursor == b.cursor && a.blocks.Keys == b.blocks.Keys)
    && (forall id :: id in a.blocks ==> id in b.blocks && a.blocks[id].parentHash == b.blocks[id].parentHash)
    && (forall id :: id in a.blocks && CanonicalAt(b.blocks, id) ==> a.blocks[id].canonical)
  }

  lemma EvolvesTransitive(a: ChainStore, b: ChainStore, c: ChainStore)
    requires Evolves(a, b) && Evolves(b, c)
    ensures Evolves(a, c)
  {
  }

  lemma UpsertEvolves(blocks: map<BlockId, Observed>, headers: seq<Header>)
    ensures forall id :: id in blocks ==>
      id in UpsertAll(blocks, headers) && UpsertAll(blocks, headers)[id] == blocks[id]
  {
    forall id | id in blocks
      ensures id in UpsertAll(blocks, headers) && UpsertAll(blocks, headers)[id] == blocks[id]
    {
      UpsertAllRows(blocks, headers, id);
    }
  }

  lemma StepEvolves(past: seq<ChainStore>, done: seq<Action>, a: Action)
    requires |past| == |done| + 1 && Enabled(past, done, a)
    ensures Evolves(past[|past| - 1], Apply(past, done, a))
  {
    var cur := past[|past| - 1];
    match a
    case Bootstrap(anchor) => UpsertEvolves(cur.blocks, [anchor]);
    case Advance(r, c, headers) => UpsertEvolves(cur.blocks, NewHeaders(past[c].blocks, headers));
    case Orphan(_, _, _) =>
    case Rewind(_) =>
  }

  lemma {:induction false} RunEvolves(run: seq<ChainStore>, actions: seq<Action>, i: nat, j: nat)
    requires IsRun(run, actions) && i <= j < |run|
    ensures Evolves(run[i], run[j])
    decreases j - i
  {
    if i < j {
      RunEvolves(run, actions, i, j - 1);
      assert run[..j][|run[..j]| - 1] == run[j - 1];
      StepEvolves(run[..j], actions[..j - 1], actions[j - 1]);
      EvolvesTransitive(run[i], run[j - 1], run[j]);
    }
  }

  // ----- the invariant -----

  /** One canonical block a height, none above the cursor, the cursor's own block on record. */
  ghost predicate StoreOk(s: ChainStore) {
    && OneCanonical(s.blocks)
    && (s.cursor.None? ==> s.blocks == map[])
    && (s.cursor.Some? ==>
          && BlockId(s.cursor.value.lastProcessedBlock, s.cursor.value.lastProcessedBlockHash) in s.blocks
          && forall id :: CanonicalAt(s.blocks, id) ==> id.number <= s.cursor.value.lastProcessedBlock)
  }

  lemma BootstrapKeeps(s: ChainStore, anchor: Header)
    requires StoreOk(s)
    ensures StoreOk(BootstrapCommit(s, anchor))
  {
    if s.cursor.None? {
      assert UpsertAll(s.blocks, [anchor]) == map[IdOf(anchor) := Observed(anchor.parentHash, true)] by {
        assert [anchor][..0] == [];
      }
    }
  }

  /** Recording a batch above the cursor and moving the cursor to its last block. */
  lemma RecordingKeeps(s: ChainStore, cursor: Cursor, headers: seq<Header>)
    requires StoreOk(s) && s.cursor == Some(cursor) && Extends(cursor, headers)
    ensures
      var tip := headers[|headers| - 1];
      StoreOk(AdvanceCommit(s, cursor.version, tip.blockNumber, tip.blockHash, headers))
  {
    var after := UpsertAll(s.blocks, headers);
    forall id | CanonicalAt(after, id)
      ensures if id.number <= cursor.lastProcessedBlock then CanonicalAt(s.blocks, id)
              else id.number - cursor.lastProcessedBlock - 1 < |headers|
                   && id == IdOf(headers[id.number - cursor.lastProcessedBlock - 1])
    {
      UpsertAllRows(s.blocks, headers, id);
      assert CanonicalAt(s.blocks, id) ==> id.number <= cursor.lastProcessedBlock;
    }
    UpsertAllRows(s.blocks, headers, IdOf(headers[|headers| - 1]));
    assert OneCanonical(after);
  }

  /**
   The commit of a batch classified at an older store `seen`, while the version it was
   read at still stands.
   */
  lemma AdvanceKeeps(s: ChainStore, seen: ChainStore, cursor: Cursor, headers: seq<Header>)
    requires StoreOk(s) && StoreOk(seen) && s.cursor == Some(cursor) == seen.cursor && Extends(cursor, headers)
    ensures
      var tip := headers[|headers| - 1];
      StoreOk(AdvanceCommit(s, cursor.version, tip.blockNumber, tip.blockHash, NewHeaders(seen.blocks, headers)))
  {
    forall i | 0 <= i < |headers| ensures !HeightTaken(seen.blocks, headers[i].blockNumber) {
      assert forall id :: CanonicalAt(seen.blocks, id) ==> id.number <= cursor.lastProcessedBlock;
    }
    AllNew(seen.blocks, headers);
    RecordingKeeps(s, cursor, headers);
  }

  lemma RewindKeeps(s: ChainStore, orphaned: ChainStore, version: nat, fork: BlockId)
    requires StoreOk(s) && Evolves(orphaned, s) && fork in s.blocks
    requires VersionOf(s) == version ==> VersionOf(orphaned) == version
    requires forall id :: CanonicalAt(orphaned.blocks, id) ==> id.number <= fork.number
    ensures StoreOk(RewindCommit(s, version, fork.number, fork.hash))
  {
    if VersionOf(s) == version {
      forall id | CanonicalAt(s.blocks, id) ensures id.number <= fork.number {
        assert id in orphaned.blocks.Keys;
        assert CanonicalAt(orphaned.blocks, id);
      }
    }
  }

  /**
   However instances interleave bootstrap, advance, orphaning and rewind, every store has
   at most one canonical block a height and none above its cursor.
   */
  lemma {:induction false} RunKeepsStore(run: seq<ChainStore>, actions: seq<Action>, k: nat)
    requires IsRun(run, actions) && k < |run|
    ensures StoreOk(run[k])
    decreases k
  {
    if k > 0 {
      var j := k - 1;
      RunKeepsStore(run, actions, j);
      var past, done := run[..k], actions[..j];
      assert past[|past| - 1] == run[j];
      match actions[j]
      case Bootstrap(anchor) => BootstrapKeeps(run[j], anchor);
      case Advance(r, c, headers) =>
        if VersionOf(run[j]) == run[r].cursor.value.version {
          RunKeepsStore(run, actions, c);
          RunEvolves(run, actions, r, c);
          RunEvolves(run, actions, c, j);
          EvolvesTransitive(run[r], run[c], run[j]);
          AdvanceKeeps(run[j], run[c], run[r].cursor.value, headers);
        }
      case Orphan(_, _, fork) =>
        assert forall id :: CanonicalAt(run[k].blocks, id) ==> CanonicalAt(run[j].blocks, id);
      case Rewind(o) => RewindStepKeeps(run, actions, j, o);
    }
  }

  /** The store an orphaning commit left behind, as the later store of its rewind sees it. */
  lemma OrphanedSince(run: seq<ChainStore>, actions: seq<Action>, j: nat, o: nat)
    requires IsRun(run, actions) && o < j < |run| && actions[o].Orphan?
    ensures Evolves(run[o + 1], run[j]) && actions[o].fork in run[j].blocks
    ensures forall id :: CanonicalAt(run[o + 1].blocks, id) ==> id.number <= actions[o].fork.number
  {
    var a := actions[o];
    assert Enabled(run[..o + 1], actions[..o], a) && run[o + 1] == Apply(run[..o + 1], actions[..o], a);
    assert run[..o + 1][o] == run[o] && run[..o + 1][a.seenAt] == run[a.seenAt];
    RunEvolves(run, actions, a.seenAt, j);
    RunEvolves(run, actions, o + 1, j);
  }

  lemma RewindStepKeeps(run: seq<ChainStore>, actions: seq<Action>, j: nat, o: nat)
    requires IsRun(run, actions) && j < |actions| && actions[j] == Rewind(o) && StoreOk(run[j])
    ensures StoreOk(run[j + 1])
  {
    assert Enabled(run[..j + 1], actions[..j], actions[j]) && run[..j + 1][j] == run[j];
    var a := actions[o];
    assert run[..j + 1][a.readAt] == run[a.readAt];
    OrphanedSince(run, actions, j, o);
    RunEvolves(run, actions, a.readAt, o + 1);
    RewindKeeps(run[j], run[o + 1], run[a.readAt].cursor.value.version, a.fork);
  }

  // ----- versions -----

  /** Step `k` is the one that put version `v` in place. */
  predicate Commits(run: seq<ChainStore>, v: nat, k: nat) {
    k + 1 < |run| && run[k].cursor != run[k + 1].cursor && VersionOf(run[k + 1]) == v
  }

  lemma CommitRaisesVersion(run: seq<ChainStore>, actions: seq<Action>, k: nat)
    requires IsRun(run, actions) && k < |actions|
    ensures run[k].cursor != run[k + 1].cursor ==> VersionOf(run[k + 1]) == VersionOf(run[k]) + 1
    ensures run[k].cursor == run[k + 1].cursor ==> VersionOf(run[k + 1]) == VersionOf(run[k])
  {
    assert run[..k + 1][k] == run[k];
    match actions[k]
    case Bootstrap(_) => assert run[k + 1] == BootstrapCommit(run[k], actions[k].anchor);
    case Advance(_, _, _) =>
    case Orphan(_, _, _) =>
    case Rewind(_) =>
  }

  lemma {:induction false} VersionWasCommitted(run: seq<ChainStore>, actions: seq<Action>, v: nat, n: nat)
      returns (k: nat)
    requires IsRun(run, actions) && n < |run| && v <= VersionOf(run[n])
    ensures k < n && Commits(run, v, k)
  {
    CommitRaisesVersion(run, actions, n - 1);
    if v <= VersionOf(run[n - 1]) {
      k := VersionWasCommitted(run, actions, v, n - 1);
    } else {
      k := n - 1;
    }
  }

  /** Every version up to the current one was committed by exactly one step of one instance. */
  lemma EachVersionCommittedOnce(run: seq<ChainStore>, actions: seq<Action>, v: nat)
    requires IsRun(run, actions) && v <= VersionOf(run[|run| - 1])
    ensures exists k :: Commits(run, v, k)
    ensures forall j, k :: Commits(run, v, j) && Commits(run, v, k) ==> j == k
  {
    var k := VersionWasCommitted(run, actions, v, |run| - 1);
    forall i, j | Commits(run, v, i) && Commits(run, v, j) ensures i == j {
      var low, high := if i < j then i else j, if i < j then j else i;
      if low < high {
        CommitRaisesVersion(run, actions, high);
        RunEvolves(run, actions, low + 1, high);
      }
    }
  }

  /** Orphaned history is kept: no run deletes a recorded block or makes one canonical again. */
  lemma OrphansStayOrphaned(run: seq<ChainStore>, actions: seq<Action>, i: nat, j: nat, id: BlockId)
    requires IsRun(run, actions) && i <= j < |run| && id in run[i].blocks
    ensures id in run[j].blocks
    ensures !run[i].blocks[id].canonical ==> !run[j].blocks[id].canonical
  {
    RunEvolves(run, actions, i, j);
  }

  // ----- building runs -----

  lemma ExtendRun(run: seq<ChainStore>, actions: seq<Action>, a: Action)
    requires IsRun(run, actions) && Enabled(run, actions, a)
    ensures IsRun(run + [Apply(run, actions, a)], actions + [a])
  {
    var longer, more := run + [Apply(run, actions, a)], actions + [a];
    forall i | 0 <= i < |more|
      ensures Enabled(longer[..i + 1], more[..i], more[i])
      ensures longer[i + 1] == Apply(longer[..i + 1], more[..i], more[i])
    {
      if i < |actions| {
        assert longer[..i + 1] == run[..i + 1] && more[..i] == actions[..i];
      } else {
        assert longer[..i + 1] == run && more[..i] == actions;
      }
    }
  }
}
