/**
 The bounded downward search for a fork point
 (src/application/watcher/reorg-resolution-service.ts).
 */
module ForkSearch {
  import opened Common
  import opened CursorStorage
  import opened LinkedHistory

  datatype Corroboration = Agreeing | Disagreement | Unavailable

  /** What asking for the live header of one height, and corroborating it, came to. */
  datatype Probe = Throws | Answer(live: Header, corroboration: Corroboration)

  datatype Scan = Found(fork: Header) | NoForkPoint | Uncorroborated | Crashed

  // ----- the two verdicts on a height -----

  /** A canonical block stands at the height and a corroborated live header was read for it. */
  ghost predicate Compared(blocks: map<BlockId, Observed>, live: nat -> Probe, n: nat) {
    HeightTaken(blocks, n) && live(n).Answer? && live(n).live.blockNumber == n && live(n).corroboration.Agreeing?
  }

  predicate OnLiveChain(live: nat -> Probe, id: BlockId) {
    live(id.number).Answer? && Lower(live(id.number).live.blockHash) == Lower(id.hash)
  }

  ghost predicate Differs(blocks: map<BlockId, Observed>, live: nat -> Probe, n: nat) {
    Compared(blocks, live, n) && forall id :: CanonicalAt(blocks, id) && id.number == n ==> !OnLiveChain(live, id)
  }

  /** Every height from `top` down to just above `n` was compared and found different. */
  ghost predicate AllDiffer(blocks: map<BlockId, Observed>, live: nat -> Probe, n: int, top: int) {
    forall m: nat :: n < m <= top ==> Differs(blocks, live, m)
  }

  /** The block the search may report: stored as canonical at a height whose live hash agrees. */
  predicate IsForkBlock(blocks: map<BlockId, Observed>, live: nat -> Probe, f: Header) {
    && CanonicalAt(blocks, IdOf(f)) && blocks[IdOf(f)].parentHash == f.parentHash
    && OnLiveChain(live, IdOf(f))
  }

  /** Where an unsuccessful search stopped, and why that height ended it. */
  ghost predicate StopsAt(blocks: map<BlockId, Observed>, live: nat -> Probe, n: int, top: int, budget: nat, r: Scan) {
    match r
    case Found(_) => false
    case NoForkPoint =>
      n < 0 || top - n >= budget || !HeightTaken(blocks, n) || (live(n).Answer? && live(n).live.blockNumber != n)
    case Crashed => n >= 0 && top - n < budget && HeightTaken(blocks, n) && live(n).Throws?
    case Uncorroborated =>
      n >= 0 && top - n < budget && HeightTaken(blocks, n) && live(n).Answer? && live(n).live.blockNumber == n
          && !live(n).corroboration.Agreeing?
  }

  /** What the search returns, without saying how: the highest agreement, or the height that ended it. */
  ghost predicate IsScan(blocks: map<BlockId, Observed>, live: nat -> Probe, top: nat, budget: nat, r: Scan) {
    if r.Found? then
      && r.fork.blockNumber <= top && top - r.fork.blockNumber < budget
      && Compared(blocks, live, r.fork.blockNumber) && IsForkBlock(blocks, live, r.fork)
      && AllDiffer(blocks, live, r.fork.blockNumber, top)
    else
      exists n: int ::
        -1 <= n <= top && top - n <= budget && AllDiffer(blocks, live, n, top)
          && StopsAt(blocks, live, n, top, budget, r)
  }

  method FindFork(blocks: map<BlockId, Observed>, live: nat -> Probe, top: nat, maxScan: nat) returns (r: Scan)
    requires OneCanonical(blocks)
    ensures IsScan(blocks, live, top, maxScan, r)
  {
    var height: int, scanned := top, 0;
    while height >= 0 && scanned < maxScan
      invariant -1 <= height <= top && scanned == top - height && scanned <= maxScan
      invariant AllDiffer(blocks, live, height, top)
      decreases height
    {
      if stored :| stored in blocks && stored.number == height && blocks[stored].canonical {
        var probe := live(height);
        if probe.Throws? {
          return Crashed;
        }
        if probe.live.blockNumber != height {
          assert StopsAt(blocks, live, height, top, maxScan, NoForkPoint);
          return NoForkPoint;
        }
        if !probe.corroboration.Agreeing? {
          return Uncorroborated;
        }
        if Lower(probe.live.blockHash) == Lower(stored.hash) {
          return Found(Header(height, stored.hash, blocks[stored].parentHash));
        }
        assert Differs(blocks, live, height) by {
          forall id | CanonicalAt(blocks, id) && id.number == height ensures !OnLiveChain(live, id) {
            assert CanonicalAt(blocks, stored);
          }
        }
      } else {
        assert StopsAt(blocks, live, height, top, maxScan, NoForkPoint);
        return NoForkPoint;
      }
      height, scanned := height - 1, scanned + 1;
    }
    assert StopsAt(blocks, live, height, top, maxScan, NoForkPoint);
    return NoForkPoint;
  }

  /** The search has only one possible result, so `IsScan` is the whole of it. */
  lemma ScanIsUnique(blocks: map<BlockId, Observed>, live: nat -> Probe, top: nat, budget: nat, r: Scan, r': Scan)
    requires OneCanonical(blocks)
    requires IsScan(blocks, live, top, budget, r) && IsScan(blocks, live, top, budget, r')
    ensures r == r'
  {
    if r.Found? && r'.Found? {
      assert r.fork.blockNumber < r'.fork.blockNumber ==> Differs(blocks, live, r'.fork.blockNumber);
      assert r'.fork.blockNumber < r.fork.blockNumber ==> Differs(blocks, live, r.fork.blockNumber);
      assert CanonicalAt(blocks, IdOf(r.fork)) && CanonicalAt(blocks, IdOf(r'.fork));
    } else if r.Found? {
      FoundOrStopped(blocks, live, top, budget, r, r');
    } else if r'.Found? {
      FoundOrStopped(blocks, live, top, budget, r', r);
    } else {
      var n: int :| -1 <= n <= top && top - n <= budget && AllDiffer(blocks, live, n, top)
        && StopsAt(blocks, live, n, top, budget, r);
      var m: int :| -1 <= m <= top && top - m <= budget && AllDiffer(blocks, live, m, top)
        && StopsAt(blocks, live, m, top, budget, r');
      assert n < m ==> Differs(blocks, live, m);
      assert m < n ==> Differs(blocks, live, n);
    }
  }

  lemma FoundOrStopped(blocks: map<BlockId, Observed>, live: nat -> Probe, top: nat, budget: nat, r: Scan, r': Scan)
    requires r.Found? && IsScan(blocks, live, top, budget, r)
    ensures r'.Found? || !IsScan(blocks, live, top, budget, r')
  {
    var f := r.fork.blockNumber;
    var agreed := Differs(blocks, live, f);
    forall n: int | !r'.Found? && -1 <= n <= top && top - n <= budget && AllDiffer(blocks, live, n, top)
      ensures !StopsAt(blocks, live, n, top, budget, r')
    {
      var stopped := n >= 0 && Differs(blocks, live, n);
    }
  }

  // ----- against hash-linked chains -----

  /** Headers in which, up to letter case, a block's hash determines its parent's. */
  ghost predicate DeterminesParent(parentOf: string -> string, hash: string, parentHash: string) {
    Lower(parentHash) == parentOf(Lower(hash))
  }

  /** One fixed live chain over these heights, every header of it read and corroborated. */
  ghost predicate LiveChain(parentOf: string -> string, live: nat -> Probe, low: nat, high: nat) {
    && (forall n :: low <= n <= high ==>
          && live(n).Answer? && live(n).live.blockNumber == n && live(n).corroboration.Agreeing?
          && DeterminesParent(parentOf, live(n).live.blockHash, live(n).live.parentHash))
    && (forall n :: low < n <= high ==> Lower(live(n).live.parentHash) == Lower(live(n - 1).live.blockHash))
  }

  ghost predicate StoredChain(parentOf: string -> string, blocks: map<BlockId, Observed>, anchor: nat,
      chain: seq<string>) {
    && LinkedBy(blocks, anchor, chain)
    && forall i :: 0 <= i < |chain| ==>
         DeterminesParent(parentOf, chain[i], blocks[BlockId(anchor + i, chain[i])].parentHash)
  }

  predicate Shared(live: nat -> Probe, anchor: nat, chain: seq<string>, n: nat) {
    anchor <= n < anchor + |chain| && OnLiveChain(live, BlockId(n, chain[n - anchor]))
  }

  /** Two hash-linked chains that share a block share everything below it. */
  lemma {:induction false} SharedBelow(parentOf: string -> string, blocks: map<BlockId, Observed>, live: nat -> Probe,
      anchor: nat, chain: seq<string>, m: nat, n: nat)
    requires StoredChain(parentOf, blocks, anchor, chain) && LiveChain(parentOf, live, anchor, anchor + |chain| - 1)
    requires anchor <= m <= n && Shared(live, anchor, chain, n)
    ensures Shared(live, anchor, chain, m)
    decreases n - m
  {
    if m < n {
      SharedBelow(parentOf, blocks, live, anchor, chain, m + 1, n);
      var i := m + 1 - anchor;
      assert blocks[BlockId(anchor + i, chain[i])].parentHash == chain[i - 1];
      assert Lower(live(m + 1).live.parentHash) == Lower(live(m).live.blockHash);
    }
  }

  lemma SharedIsAgreement(parentOf: string -> string, blocks: map<BlockId, Observed>, live: nat -> Probe, anchor: nat,
      chain: seq<string>, n: nat)
    requires StoredChain(parentOf, blocks, anchor, chain) && LiveChain(parentOf, live, anchor, anchor + |chain| - 1)
    requires anchor <= n < anchor + |chain|
    ensures HeightTaken(blocks, n) && Compared(blocks, live, n)
    ensures Shared(live, anchor, chain, n) ==> !Differs(blocks, live, n)
    ensures forall id :: CanonicalAt(blocks, id) && id.number == n ==> id.hash == chain[n - anchor]
  {
    var id := BlockId(anchor + (n - anchor), chain[n - anchor]);
    assert CanonicalAt(blocks, id);
  }

  /**
   On a hash-linked store and a fixed hash-linked live chain the search finds a fork point
   exactly if some block within the bound is on the live chain; then the kept blocks are
   on the live chain and the orphaned ones are not.
   */
  lemma ForkPointIsExact(parentOf: string -> string, blocks: map<BlockId, Observed>, live: nat -> Probe, anchor: nat,
      chain: seq<string>, budget: nat, r: Scan)
    requires StoredChain(parentOf, blocks, anchor, chain) && LiveChain(parentOf, live, anchor, anchor + |chain| - 1)
    requires IsScan(blocks, live, anchor + |chain| - 1, budget, r)
    ensures r.Found? || r.NoForkPoint?
    ensures r.Found? <==> exists n: nat :: Shared(live, anchor, chain, n) && anchor + |chain| - 1 - n < budget
    ensures r.Found? ==> forall id :: CanonicalAt(blocks, id) ==>
      (id.number <= r.fork.blockNumber <==> OnLiveChain(live, id))
  {
    var top := anchor + |chain| - 1;
    if r.Found? {
      var f := r.fork.blockNumber;
      assert CanonicalAt(blocks, IdOf(r.fork));
      assert Shared(live, anchor, chain, f);
      forall id | CanonicalAt(blocks, id) ensures id.number <= f <==> OnLiveChain(live, id) {
        SharedIsAgreement(parentOf, blocks, live, anchor, chain, id.number);
        if id.number <= f {
          SharedBelow(parentOf, blocks, live, anchor, chain, id.number, f);
        } else {
          assert Differs(blocks, live, id.number);
        }
      }
    } else {
      NoForkMeansNoneShared(parentOf, blocks, live, anchor, chain, budget, r);
    }
  }

  lemma NoForkMeansNoneShared(parentOf: string -> string, blocks: map<BlockId, Observed>, live: nat -> Probe,
      anchor: nat, chain: seq<string>, budget: nat, r: Scan)
    requires StoredChain(parentOf, blocks, anchor, chain) && LiveChain(parentOf, live, anchor, anchor + |chain| - 1)
    requires IsScan(blocks, live, anchor + |chain| - 1, budget, r) && !r.Found?
    ensures r.NoForkPoint?
    ensures forall n: nat :: Shared(live, anchor, chain, n) ==> anchor + |chain| - 1 - n >= budget
  {
    var top := anchor + |chain| - 1;
    var stop: int :| -1 <= stop <= top && top - stop <= budget && AllDiffer(blocks, live, stop, top)
      && StopsAt(blocks, live, stop, top, budget, r);
    if anchor <= stop {
      SharedIsAgreement(parentOf, blocks, live, anchor, chain, stop);
    }
    forall n: nat | Shared(live, anchor, chain, n) ensures top - n >= budget {
      SharedIsAgreement(parentOf, blocks, live, anchor, chain, n);
      assert n > stop ==> Differs(blocks, live, n);
    }
  }

  /**
   Where canonical history has no block at the cursor's own height, no live chain lets the
   search find a fork point: the chain halts for good.
   */
  lemma HoleAtCursorHalts(blocks: map<BlockId, Observed>, live: nat -> Probe, top: nat, budget: nat, r: Scan)
    requires !HeightTaken(blocks, top) && IsScan(blocks, live, top, budget, r)
    ensures r == NoForkPoint
  {
    var here := Differs(blocks, live, top);
    if !r.Found? {
      var n: int :| -1 <= n <= top && top - n <= budget && AllDiffer(blocks, live, n, top)
        && StopsAt(blocks, live, n, top, budget, r);
      assert n < top ==> Differs(blocks, live, top);
    }
  }

  function HashAt(blocks: map<BlockId, Observed>, n: nat): string
    requires OneCanonical(blocks)
  {
    if HeightTaken(blocks, n) then StoredAt(blocks, n).hash else ""
  }

  function StoredAt(blocks: map<BlockId, Observed>, n: nat): (id: BlockId)
    requires OneCanonical(blocks) && HeightTaken(blocks, n)
    ensures CanonicalAt(blocks, id) && id.number == n
  {
    assert forall a, b :: CanonicalAt(blocks, a) && CanonicalAt(blocks, b) && a.number == b.number ==> a == b;
    var id :| id in blocks && id.number == n && blocks[id].canonical;
    id
  }

  /**
   `Scannable`, the guard of the orphaning step, admits exactly the fork points below the
   cursor that some view of the live chain makes the search report.
   */
  lemma ScannableIffFound(s: ChainStore, fork: BlockId)
    requires OneCanonical(s.blocks) && s.cursor.Some? && fork.number < s.cursor.value.lastProcessedBlock
    ensures Scannable(s, fork) <==>
      exists live, budget, r ::
        IsScan(s.blocks, live, s.cursor.value.lastProcessedBlock, budget, r) && r.Found? && IdOf(r.fork) == fork
  {
    var top := s.cursor.value.lastProcessedBlock;
    if Scannable(s, fork) {
      var live := (n: nat) =>
        Answer(Header(n, if n == fork.number then fork.hash else HashAt(s.blocks, n) + "x", ""), Agreeing);
      var r := Found(Header(fork.number, fork.hash, s.blocks[fork].parentHash));
      forall m: nat | fork.number < m <= top ensures Differs(s.blocks, live, m) {
        forall id | CanonicalAt(s.blocks, id) && id.number == m ensures !OnLiveChain(live, id) {
          assert id == StoredAt(s.blocks, m);
          assert |Lower(live(m).live.blockHash)| == |id.hash| + 1;
        }
      }
      assert HeightTaken(s.blocks, fork.number);
      assert IsScan(s.blocks, live, top, top + 1, r);
    } else if live, budget, r :| IsScan(s.blocks, live, top, budget, r) && r.Found? && IdOf(r.fork) == fork {
      forall n | fork.number <= n <= top ensures HeightTaken(s.blocks, n) {
        assert n > fork.number ==> Differs(s.blocks, live, n);
      }
    }
  }
}
