/**
 The durable chain cursor and the observed blocks recorded with it
 (src/infrastructure/chain/mongo-cursor-storage.ts).
 */
module CursorStorage {
  import opened Common

  datatype Header = Header(blockNumber: nat, blockHash: string, parentHash: string)

  datatype Cursor = Cursor(lastProcessedBlock: nat, lastProcessedBlockHash: string, version: nat)

  /** The unique key of an observed block within its chain. */
  datatype BlockId = BlockId(number: nat, hash: string)

  datatype Observed = Observed(parentHash: string, canonical: bool)

  datatype ChainStore = ChainStore(cursor: Option<Cursor>, blocks: map<BlockId, Observed>)

  const EMPTY: ChainStore := ChainStore(None, map[])

  function IdOf(h: Header): BlockId {
    BlockId(h.blockNumber, h.blockHash)
  }

  predicate CanonicalAt(blocks: map<BlockId, Observed>, id: BlockId) {
    id in blocks && blocks[id].canonical
  }

  predicate HeightTaken(blocks: map<BlockId, Observed>, number: nat) {
    exists id :: id in blocks && id.number == number && blocks[id].canonical
  }

  ghost predicate OneCanonical(blocks: map<BlockId, Observed>) {
    forall a, b :: CanonicalAt(blocks, a) && CanonicalAt(blocks, b) && a.number == b.number ==> a == b
  }

  // ----- what each operation commits -----

  /** Upsert keyed on the block's identity: an existing row, canonical or not, is left as it is. */
  function UpsertAll(blocks: map<BlockId, Observed>, headers: seq<Header>): map<BlockId, Observed> {
    if headers == [] then blocks
    else
      var before, h := UpsertAll(blocks, headers[..|headers| - 1]), headers[|headers| - 1];
      if IdOf(h) in before then before else before[IdOf(h) := Observed(h.parentHash, true)]
  }

  predicate Listed(headers: seq<Header>, id: BlockId) {
    exists i :: 0 <= i < |headers| && IdOf(headers[i]) == id
  }

  lemma {:induction false} UpsertAllRows(blocks: map<BlockId, Observed>, headers: seq<Header>, id: BlockId)
    ensures id in UpsertAll(blocks, headers) <==> id in blocks || Listed(headers, id)
    ensures id in blocks ==> UpsertAll(blocks, headers)[id] == blocks[id]
    ensures id in UpsertAll(blocks, headers) && id !in blocks ==>
      exists i ::
        0 <= i < |headers| && IdOf(headers[i]) == id
          && UpsertAll(blocks, headers)[id] == Observed(headers[i].parentHash, true)
  {
    if headers != [] {
      var n := |headers| - 1;
      var front := headers[..n];
      UpsertAllRows(blocks, front, id);
      assert headers == front + [headers[n]];
      if id in UpsertAll(blocks, front) && id !in blocks {
        var i :| 0 <= i < |front| && IdOf(front[i]) == id
          && UpsertAll(blocks, front)[id] == Observed(front[i].parentHash, true);
        assert headers[i] == front[i];
      }
      if i :| 0 <= i < |headers| && IdOf(headers[i]) == id {
        assert i < n ==> front[i] == headers[i];
      }
    }
  }

  /** A canonical block of another hash already stands at the header's height. */
  predicate Conflicts(blocks: map<BlockId, Observed>, h: Header) {
    exists id :: id in blocks && id.number == h.blockNumber && blocks[id].canonical && id.hash != h.blockHash
  }

  /** The headers with no canonical block at their height. */
  function NewHeaders(blocks: map<BlockId, Observed>, headers: seq<Header>): seq<Header> {
    if headers == [] then []
    else
      var front, h := NewHeaders(blocks, headers[..|headers| - 1]), headers[|headers| - 1];
      if HeightTaken(blocks, h.blockNumber) then front else front + [h]
  }

  lemma {:induction false} NewHeadersAre(blocks: map<BlockId, Observed>, headers: seq<Header>, h: Header)
    ensures h in NewHeaders(blocks, headers) <==> h in headers && !HeightTaken(blocks, h.blockNumber)
  {
    if headers != [] {
      NewHeadersAre(blocks, headers[..|headers| - 1], h);
      assert headers == headers[..|headers| - 1] + [headers[|headers| - 1]];
    }
  }

  lemma {:induction false} AllNew(blocks: map<BlockId, Observed>, headers: seq<Header>)
    requires forall i :: 0 <= i < |headers| ==> !HeightTaken(blocks, headers[i].blockNumber)
    ensures NewHeaders(blocks, headers) == headers
  {
    if headers != [] {
      AllNew(blocks, headers[..|headers| - 1]);
      assert headers == headers[..|headers| - 1] + [headers[|headers| - 1]];
    }
  }

  function VersionOf(s: ChainStore): int {
    if s.cursor.None? then -1 else s.cursor.value.version
  }

  function BootstrapCommit(s: ChainStore, anchor: Header): ChainStore {
    if s.cursor.Some? then s
    else ChainStore(Some(Cursor(anchor.blockNumber, anchor.blockHash, 0)), UpsertAll(s.blocks, [anchor]))
  }

  /** Rows and cursor move together or not at all; a lost version check aborts both. */
  function AdvanceCommit(s: ChainStore, expectedVersion: nat, last: nat, lastHash: string,
      headers: seq<Header>): ChainStore {
    if VersionOf(s) != expectedVersion then s
    else ChainStore(Some(Cursor(last, lastHash, expectedVersion + 1)), UpsertAll(s.blocks, headers))
  }

  function RewindCommit(s: ChainStore, expectedVersion: nat, last: nat, lastHash: string): ChainStore {
    if VersionOf(s) != expectedVersion then s
    else s.(cursor := Some(Cursor(last, lastHash, expectedVersion + 1)))
  }

  /** Reorg resolution's orphaning commit: flags, never deletes, and checks no version. */
  function OrphanCommit(s: ChainStore, forkPoint: nat): ChainStore {
    s.(blocks := map id | id in s.blocks ::
      if id.number > forkPoint then s.blocks[id].(canonical := false) else s.blocks[id])
  }

  // ----- the storage object -----

  datatype AdvanceError = ChainDiscontinuity | CursorConflict

  class MongoChainCursorStorage {
    var cursor: Option<Cursor>
    var blocks: map<BlockId, Observed>

    ghost function Store(): ChainStore
      reads this
    {
      ChainStore(cursor, blocks)
    }

    constructor ()
      ensures Store() == EMPTY
    {
      cursor, blocks := None, map[];
    }

    method InsertObservedBlocks(headers: seq<Header>)
      modifies this`blocks
      ensures blocks == UpsertAll(old(blocks), headers)
    {
      for i := 0 to |headers|
        invariant blocks == UpsertAll(old(blocks), headers[..i])
      {
        assert headers[..i + 1][..i] == headers[..i];
        if IdOf(headers[i]) !in blocks {
          blocks := blocks[IdOf(headers[i]) := Observed(headers[i].parentHash, true)];
        }
      }
      assert headers[..|headers|] == headers;
    }

    method Bootstrap(anchor: Header) returns (current: Cursor)
      modifies this
      ensures Store() == BootstrapCommit(old(Store()), anchor)
      ensures Some(current) == cursor
    {
      if cursor.None? {
        cursor := Some(Cursor(anchor.blockNumber, anchor.blockHash, 0));
        InsertObservedBlocks([anchor]);
      }
      current := cursor.value;
    }

    /** Some header stands against recorded history, or exactly the unrecorded headers in order. */
    method ClassifyObservedBlocks(headers: seq<Header>) returns (r: Result<seq<Header>, AdvanceError>)
      requires OneCanonical(blocks)
      ensures r.Err? <==> exists i :: 0 <= i < |headers| && Conflicts(blocks, headers[i])
      ensures r.Err? ==> r.error == ChainDiscontinuity
      ensures r.Ok? ==> r.value == NewHeaders(blocks, headers)
    {
      var newHeaders := [];
      for i := 0 to |headers|
        invariant newHeaders == NewHeaders(blocks, headers[..i])
        invariant forall j :: 0 <= j < i ==> !Conflicts(blocks, headers[j])
      {
        var header := headers[i];
        assert headers[..i + 1][..i] == headers[..i];
        if recorded :| recorded in blocks && recorded.number == header.blockNumber && blocks[recorded].canonical {
          if recorded.hash != header.blockHash {
            return Err(ChainDiscontinuity);
          }
          forall id | id in blocks && id.number == header.blockNumber && blocks[id].canonical ensures id == recorded {
            assert CanonicalAt(blocks, id) && CanonicalAt(blocks, recorded);
          }
        } else {
          newHeaders := newHeaders + [header];
        }
      }
      assert headers[..|headers|] == headers;
      r := Ok(newHeaders);
    }

    /** The transaction of `advance`, run on headers classified before it opened. */
    method CommitAdvance(expectedVersion: nat, last: nat, lastHash: string, newHeaders: seq<Header>)
      returns (conflict: bool)
      modifies this
      ensures Store() == AdvanceCommit(old(Store()), expectedVersion, last, lastHash, newHeaders)
      ensures conflict <==> VersionOf(old(Store())) != expectedVersion
    {
      var snapshot := blocks;
      InsertObservedBlocks(newHeaders);
      if cursor.None? || cursor.value.version != expectedVersion {
        blocks := snapshot;
        return true;
      }
      cursor := Some(Cursor(last, lastHash, expectedVersion + 1));
      return false;
    }

    method Rewind(expectedVersion: nat, last: nat, lastHash: string) returns (rewound: bool)
      modifies this
      ensures Store() == RewindCommit(old(Store()), expectedVersion, last, lastHash)
      ensures rewound <==> VersionOf(old(Store())) == expectedVersion
    {
      rewound := cursor.Some? && cursor.value.version == expectedVersion;
      if rewound {
        cursor := Some(Cursor(last, lastHash, expectedVersion + 1));
      }
    }

    method MarkOrphaned(forkPoint: nat)
      modifies this`blocks
      ensures Store() == OrphanCommit(old(Store()), forkPoint)
    {
      blocks := map id | id in blocks ::
        if id.number > forkPoint then blocks[id].(canonical := false) else blocks[id];
    }
  }
}
