/**
 Provider failover (src/infrastructure/chain/evm-chain-adapter.ts): calls that run
 interleaved over one pool of providers, their failures, and recovery probes.
 */
module Failover {
  import opened Common
  import opened ForkSearch

  const MAXIMUM_CONSECUTIVE_FAILURES := 2

  /** The adapter's mutable state. */
  datatype Pool = Pool(failures: seq<nat>, healthy: seq<bool>, active: nat, failovers: nat)

  /** What one provider's answer, or a probe of it, does to the pool. */
  datatype Event = Succeeded(provider: nat) | Failed(provider: nat) | Recovered(provider: nat)

  predicate Shaped(p: Pool) {
    |p.failures| == |p.healthy| && p.active < |p.healthy|
  }

  /** A healthy provider has not reached the failure threshold. */
  predicate Inv(p: Pool) {
    Shaped(p) && forall i :: 0 <= i < |p.healthy| && p.healthy[i] ==> p.failures[i] < MAXIMUM_CONSECUTIVE_FAILURES
  }

  // ----- the next provider -----

  function At(start: nat, offset: nat, n: nat): (i: nat)
    requires n > 0
    ensures i < n
  {
    (start + offset) % n
  }

  /** The first healthy provider after `active` in cyclic order, `active` itself last; unchanged if none is healthy. */
  predicate IsNext(healthy: seq<bool>, active: nat, r: nat)
    requires active < |healthy|
  {
    if exists i :: 0 <= i < |healthy| && healthy[i] then
      exists offset :: 1 <= offset <= |healthy| && r == At(active, offset, |healthy|) && healthy[r]
                       && forall o :: 1 <= o < offset ==> !healthy[At(active, o, |healthy|)]
    else r == active
  }

  function SearchFrom(healthy: seq<bool>, active: nat, offset: nat): (r: nat)
    requires active < |healthy|
    ensures r < |healthy|
    decreases |healthy| + 1 - offset
  {
    if offset > |healthy| then active
    else if healthy[At(active, offset, |healthy|)] then At(active, offset, |healthy|)
    else SearchFrom(healthy, active, offset + 1)
  }

  /** Every index is some offset away. */
  lemma OffsetOf(active: nat, i: nat, n: nat) returns (offset: nat)
    requires active < n && i < n
    ensures 1 <= offset <= n && At(active, offset, n) == i
  {
    offset := if i > active then i - active else i - active + n;
    WrapsOnce(active + offset, n);
  }

  lemma NoneHealthy(healthy: seq<bool>, active: nat)
    requires active < |healthy| && forall o :: 1 <= o <= |healthy| ==> !healthy[At(active, o, |healthy|)]
    ensures forall i :: 0 <= i < |healthy| ==> !healthy[i]
  {
    forall i | 0 <= i < |healthy| ensures !healthy[i] {
      var o := OffsetOf(active, i, |healthy|);
    }
  }

  lemma {:induction false} SearchIsNext(healthy: seq<bool>, active: nat, offset: nat)
    requires active < |healthy| && 1 <= offset
    requires forall o :: 1 <= o < offset && o <= |healthy| ==> !healthy[At(active, o, |healthy|)]
    ensures IsNext(healthy, active, SearchFrom(healthy, active, offset))
    decreases |healthy| + 1 - offset
  {
    if offset > |healthy| {
      NoneHealthy(healthy, active);
    } else if healthy[At(active, offset, |healthy|)] {
      var r := At(active, offset, |healthy|);
      assert healthy[r];
    } else {
      SearchIsNext(healthy, active, offset + 1);
    }
  }

  // ----- events -----

  function Handle(p: Pool, e: Event): (r: Pool)
    requires Shaped(p) && e.provider < |p.healthy|
    ensures Shaped(r) && |r.healthy| == |p.healthy|
  {
    match e
    case Succeeded(i) => p.(failures := p.failures[i := 0])
    case Recovered(i) => p.(failures := p.failures[i := 0], healthy := p.healthy[i := true])
    case Failed(i) =>
      var count := p.failures[i] + 1;
      var counted := p.(failures := p.failures[i := count]);
      if count < MAXIMUM_CONSECUTIVE_FAILURES then counted
      else
        var healthy := p.healthy[i := false];
        counted.(healthy := healthy, active := SearchFrom(healthy, p.active, 1), failovers := p.failovers + 1)
  }

  /** In every interleaving: the index stays in range and a healthy provider stays below the threshold. */
  lemma HandleKeeps(p: Pool, e: Event)
    requires Inv(p) && e.provider < |p.healthy|
    ensures Inv(Handle(p, e))
  {
  }

  predicate InPool(trace: seq<Event>, n: nat) {
    forall i :: 0 <= i < |trace| ==> trace[i].provider < n
  }

  function After(p: Pool, trace: seq<Event>): (r: Pool)
    requires Inv(p) && InPool(trace, |p.healthy|)
    ensures Inv(r) && |r.healthy| == |p.healthy|
  {
    if trace == [] then p
    else
      var before := After(p, trace[..|trace| - 1]);
      HandleKeeps(before, trace[|trace| - 1]);
      Handle(before, trace[|trace| - 1])
  }

  /** How many failures of a provider came last in a trace, with no success or recovery of it in between. */
  function Streak(trace: seq<Event>, i: nat, before: nat): nat {
    if trace == [] then before
    else
      match trace[|trace| - 1]
      case Failed(j) => Streak(trace[..|trace| - 1], i, before) + if i == j then 1 else 0
      case _ => if trace[|trace| - 1].provider == i then 0 else Streak(trace[..|trace| - 1], i, before)
  }

  lemma {:induction false} FailuresAreStreak(p: Pool, trace: seq<Event>, i: nat)
    requires Inv(p) && InPool(trace, |p.healthy|) && i < |p.healthy|
    ensures After(p, trace).failures[i] == Streak(trace, i, p.failures[i])
  {
    if trace != [] {
      FailuresAreStreak(p, trace[..|trace| - 1], i);
    }
  }

  predicate RecoversFrom(trace: seq<Event>, i: nat, k: nat) {
    exists j :: k <= j < |trace| && trace[j] == Recovered(i)
  }

  /** The k-th event is a failure of the provider that completes a streak of the threshold's length. */
  predicate Trips(trace: seq<Event>, i: nat, before: nat, k: nat) {
    k < |trace| && trace[k] == Failed(i) && Streak(trace[..k + 1], i, before) >= MAXIMUM_CONSECUTIVE_FAILURES
  }

  /**
   In every interleaving a provider is out of the pool exactly if some failure of it completed
   a streak of the threshold's length, or it was out to begin with, and no probe of it
   recovered since.
   */
  lemma {:induction false} OutOfPoolIff(p: Pool, trace: seq<Event>, i: nat)
    requires Inv(p) && InPool(trace, |p.healthy|) && i < |p.healthy|
    ensures !After(p, trace).healthy[i] <==>
      || (!p.healthy[i] && !RecoversFrom(trace, i, 0))
      || exists k: nat :: Trips(trace, i, p.failures[i], k) && !RecoversFrom(trace, i, k)
  {
    if trace != [] {
      var n := |trace| - 1;
      var front := trace[..n];
      OutOfPoolIff(p, front, i);
      FailuresAreStreak(p, trace, i);
      FailuresAreStreak(p, front, i);
      assert trace[..n + 1] == trace;
      forall k: nat | k < n
        ensures Trips(trace, i, p.failures[i], k) <==> Trips(front, i, p.failures[i], k)
      {
        assert trace[..k + 1] == front[..k + 1];
      }
      forall k: nat | k <= n
        ensures RecoversFrom(trace, i, k) <==> RecoversFrom(front, i, k) || trace[n] == Recovered(i)
      {
        if RecoversFrom(front, i, k) {
          var j :| k <= j < |front| && front[j] == Recovered(i);
          assert trace[j] == Recovered(i);
        }
        if RecoversFrom(trace, i, k) && trace[n] != Recovered(i) {
          var j :| k <= j < |trace| && trace[j] == Recovered(i);
          assert front[j] == Recovered(i);
        }
      }
      assert Trips(trace, i, p.failures[i], n) <==>
        trace[n] == Failed(i) && After(p, trace).failures[i] >= MAXIMUM_CONSECUTIVE_FAILURES;
      assert !RecoversFrom(front, i, n);
    }
  }

  /**
   What a failure does: at the threshold the provider goes out of the pool and the next
   healthy one in cyclic order after the active index takes over; below it nothing moves.
   */
  lemma FailureMovesOn(p: Pool, i: nat)
    requires Inv(p) && i < |p.healthy|
    ensures
      var after := Handle(p, Failed(i));
      if p.failures[i] + 1 < MAXIMUM_CONSECUTIVE_FAILURES then
        after.healthy == p.healthy && after.active == p.active && after.failovers == p.failovers
      else
        && !after.healthy[i] && after.failovers == p.failovers + 1
        && IsNext(after.healthy, p.active, after.active)
  {
    SearchIsNext(p.healthy[i := false], p.active, 1);
  }

  /**
   A failure that arrives for a provider already replaced moves the index too, off a healthy
   active provider exactly when there is a third one to move to.
   */
  lemma LateFailureMovesIff(p: Pool, i: nat)
    requires Inv(p) && i < |p.healthy| && i != p.active && p.healthy[p.active]
    requires p.failures[i] + 1 >= MAXIMUM_CONSECUTIVE_FAILURES
    ensures Handle(p, Failed(i)).active != p.active <==>
      exists j :: 0 <= j < |p.healthy| && p.healthy[j] && j != p.active && j != i
  {
    var after := Handle(p, Failed(i));
    var n := |p.healthy|;
    FailureMovesOn(p, i);
    if j :| 0 <= j < n && p.healthy[j] && j != p.active && j != i {
      var o := OffsetOf(p.active, j, n);
      assert after.healthy[j] && after.healthy[At(p.active, o, n)];
      var offset :| 1 <= offset <= n && after.active == At(p.active, offset, n) && after.healthy[after.active]
                    && forall o :: 1 <= o < offset ==> !after.healthy[At(p.active, o, n)];
      assert offset <= o;
      if after.active == p.active {
        FullCircle(p.active, offset, n);
      }
    }
  }

  lemma WrapsOnce(x: nat, n: nat)
    requires x < 2 * n
    ensures x % n == if x < n then x else x - n
  {
  }

  lemma FullCircle(active: nat, offset: nat, n: nat)
    requires active < n && 1 <= offset <= n && At(active, offset, n) == active
    ensures offset == n
  {
    WrapsOnce(active + offset, n);
  }

  // ----- a stuck adapter -----

  /** Nothing but its own recovery, or a failure still in flight, takes the index off an unhealthy active provider. */
  lemma {:induction false} StaysOnUnhealthyActive(p: Pool, trace: seq<Event>)
    requires Inv(p) && InPool(trace, |p.healthy|) && !p.healthy[p.active]
    requires forall i :: 0 <= i < |trace| ==> !trace[i].Failed? && trace[i] != Recovered(p.active)
    ensures After(p, trace).active == p.active && !After(p, trace).healthy[p.active]
  {
    if trace != [] {
      StaysOnUnhealthyActive(p, trace[..|trace| - 1]);
    }
  }

  // ----- the adapter -----

  class EvmChainAdapter {
    const consecutiveFailures: array<nat>
    const healthy: array<bool>
    var activeIndex: nat
    var failoverCount: nat

    ghost function Contents(): Pool
      reads this, consecutiveFailures, healthy
    {
      Pool(consecutiveFailures[..], healthy[..], activeIndex, failoverCount)
    }

    ghost predicate Valid()
      reads this, consecutiveFailures, healthy
    {
      Inv(Contents())
    }

    constructor (providers: nat)
      requires providers >= 2
      ensures Valid() && fresh(consecutiveFailures) && fresh(healthy)
      ensures Contents() == Pool(seq(providers, _ => 0), seq(providers, _ => true), 0, 0)
    {
      consecutiveFailures, healthy := new nat[providers](_ => 0), new bool[providers](_ => true);
      activeIndex, failoverCount := 0, 0;
      new;
      assert consecutiveFailures[..] == seq(providers, _ => 0);
      assert healthy[..] == seq(providers, _ => true);
    }

    method NextHealthyIndex() returns (index: nat)
      requires Shaped(Contents())
      ensures index == SearchFrom(healthy[..], activeIndex, 1)
      ensures IsNext(healthy[..], activeIndex, index)
    {
      SearchIsNext(healthy[..], activeIndex, 1);
      for offset := 1 to healthy.Length + 1
        invariant SearchFrom(healthy[..], activeIndex, 1) == SearchFrom(healthy[..], activeIndex, offset)
      {
        var candidate := (activeIndex + offset) % healthy.Length;
        if healthy[candidate] {
          return candidate;
        }
      }
      return activeIndex;
    }

    /** The bookkeeping after an operation on, or a probe of, one provider. */
    method Record(e: Event)
      requires Valid() && e.provider < healthy.Length
      modifies this, consecutiveFailures, healthy
      ensures Valid() && Contents() == Handle(old(Contents()), e)
    {
      HandleKeeps(Contents(), e);
      var i := e.provider;
      match e {
        case Succeeded(_) =>
          consecutiveFailures[i] := 0;
        case Recovered(_) =>
          healthy[i] := true;
          consecutiveFailures[i] := 0;
        case Failed(_) =>
          consecutiveFailures[i] := consecutiveFailures[i] + 1;
          if consecutiveFailures[i] >= MAXIMUM_CONSECUTIVE_FAILURES {
            healthy[i] := false;
            failoverCount := failoverCount + 1;
            activeIndex := NextHealthyIndex();
          }
      }
    }

    /** Other calls and probes that complete while this one waits. */
    method Interleave(events: seq<Event>)
      requires Valid() && InPool(events, healthy.Length)
      modifies this, consecutiveFailures, healthy
      ensures Valid() && Contents() == After(old(Contents()), events)
    {
      for i := 0 to |events|
        invariant Valid() && |Contents().healthy| == |old(Contents()).healthy|
        invariant Contents() == After(old(Contents()), events[..i])
      {
        assert events[..i + 1][..i] == events[..i];
        Record(events[i]);
      }
      assert events[..|events|] == events;
    }

    /** One attempt on the active provider, with whatever else completes while its operation runs. */
    method Attempt(succeeds: bool, others: seq<Event>) returns (provider: nat)
      requires Valid() && InPool(others, healthy.Length)
      modifies this, consecutiveFailures, healthy
      ensures provider == old(activeIndex) < healthy.Length
      ensures Valid() && Contents() == After(old(Contents()), others + [OutcomeOf(provider, succeeds)])
    {
      provider := activeIndex;
      Interleave(others);
      AfterAppend(old(Contents()), others, [OutcomeOf(provider, succeeds)]);
      AfterOne(Contents(), OutcomeOf(provider, succeeds));
      Record(OutcomeOf(provider, succeeds));
    }

    /**
     One call. `succeeds(k)` says how its k-th operation turns out and `others(k)` what else
     completes meanwhile. It makes at most as many attempts as there are providers, each on
     the provider then active and healthy, and none exactly when the active one is not
     healthy.
     */
    method WithFailover(succeeds: nat -> bool, others: nat -> seq<Event>) returns (success: bool, attempted: seq<nat>)
      requires Valid() && forall k :: InPool(others(k), healthy.Length)
      modifies this, consecutiveFailures, healthy
      ensures Valid() && IsCall(old(Contents()), Contents(), succeeds, others, attempted, success)
    {
      ghost var start := Contents();
      attempted, success := [], false;
      while |attempted| < healthy.Length
        invariant Valid() && !success && |start.healthy| == healthy.Length
        invariant Trying(start, Contents(), succeeds, others, attempted)
        decreases healthy.Length - |attempted|
      {
        if !healthy[activeIndex] {
          GivesUp(start, Contents(), succeeds, others, attempted);
          return;
        }
        ghost var before := Contents();
        var k := |attempted|;
        var provider := Attempt(succeeds(k), others(k));
        AttemptEnds(start, before, Contents(), succeeds, others, attempted, provider);
        attempted := attempted + [provider];
        if succeeds(k) {
          success := true;
          return;
        }
      }
      GivesUp(start, Contents(), succeeds, others, attempted);
    }

    /** Agreement needs the header's own hash from a healthy provider other than the active one. */
    method CorroborateBlockHeader(blockHash: string, answers: nat -> Option<string>) returns (r: Corroboration)
      requires Valid()
      ensures r.Agreeing? <==> exists i :: Independent(i) && answers(i) == Some(blockHash)
      ensures r.Disagreement? <==>
        (exists i :: Independent(i) && answers(i).Some?) && forall i :: Independent(i) ==> answers(i) != Some(blockHash)
      ensures r.Unavailable? <==> forall i :: Independent(i) ==> answers(i).None?
    {
      var sawDisagreement := false;
      for i := 0 to healthy.Length
        invariant forall j :: 0 <= j < i && Independent(j) ==> answers(j) != Some(blockHash)
        invariant sawDisagreement <==> exists j :: 0 <= j < i && Independent(j) && answers(j).Some?
      {
        if i != activeIndex && healthy[i] {
          assert Independent(i);
          if answers(i) == Some(blockHash) {
            return Agreeing;
          }
          if answers(i).Some? {
            sawDisagreement := true;
          }
        }
      }
      return if sawDisagreement then Disagreement else Unavailable;
    }

    ghost predicate Independent(i: nat)
      reads this, consecutiveFailures, healthy
    {
      IndependentIn(Contents(), i)
    }
  }

  /** Corroboration asks every healthy provider but the one active at the time. */
  predicate IndependentIn(p: Pool, i: nat) {
    i < |p.healthy| && i != p.active && p.healthy[i]
  }

  lemma {:induction false} AfterAppend(p: Pool, a: seq<Event>, b: seq<Event>)
    requires Inv(p) && InPool(a, |p.healthy|) && InPool(b, |p.healthy|)
    ensures InPool(a + b, |p.healthy|) && After(p, a + b) == After(After(p, a), b)
  {
    if b == [] {
      assert a + b == a;
    } else {
      AfterAppend(p, a, b[..|b| - 1]);
      assert (a + b)[..|a + b| - 1] == a + b[..|b| - 1];
    }
  }

  function OutcomeOf(provider: nat, succeeds: bool): Event {
    if succeeds then Succeeded(provider) else Failed(provider)
  }

  /** Everything that completed during a call, up to and including these attempts of it. */
  function TraceOf(attempted: seq<nat>, succeeds: nat -> bool, others: nat -> seq<Event>): seq<Event> {
    if attempted == [] then []
    else
      var k := |attempted| - 1;
      TraceOf(attempted[..k], succeeds, others) + (others(k) + [OutcomeOf(attempted[k], succeeds(k))])
  }

  predicate AtOnce(p: Pool, provider: nat)
    requires Shaped(p)
  {
    p.active == provider && p.healthy[provider]
  }

  /** Attempt `k` went to the provider active and healthy once all before it had completed. */
  predicate BeganOnActive(start: Pool, succeeds: nat -> bool, others: nat -> seq<Event>, attempted: seq<nat>, k: nat)
    requires Inv(start) && k < |attempted|
  {
    var trace := TraceOf(attempted[..k], succeeds, others);
    InPool(trace, |start.healthy|) && AtOnce(After(start, trace), attempted[k])
  }

  /** A call under way: what completed so far led from `start` to `now`, each attempt on the provider then active. */
  ghost predicate Along(start: Pool, now: Pool, succeeds: nat -> bool, others: nat -> seq<Event>, attempted: seq<nat>) {
    var trace := TraceOf(attempted, succeeds, others);
    && Inv(start) && InPool(trace, |start.healthy|) && now == After(start, trace)
    && forall k :: 0 <= k < |attempted| ==> BeganOnActive(start, succeeds, others, attempted, k)
  }

  /** A call from beginning to end. */
  ghost predicate IsCall(start: Pool, end: Pool, succeeds: nat -> bool, others: nat -> seq<Event>,
      attempted: seq<nat>, success: bool) {
    && Along(start, end, succeeds, others, attempted) && |attempted| <= |start.healthy|
    && (attempted == [] <==> !start.healthy[start.active])
    && (success <==> attempted != [] && succeeds(|attempted| - 1))
    && (!success ==> |attempted| == |start.healthy| || !end.healthy[end.active])
    && forall k :: 0 <= k < |attempted| - 1 ==> !succeeds(k)
  }

  lemma Extend(start: Pool, before: Pool, now: Pool, succeeds: nat -> bool, others: nat -> seq<Event>,
      attempted: seq<nat>, provider: nat)
    requires Along(start, before, succeeds, others, attempted)
    requires before.active == provider && before.healthy[provider] && InPool(others(|attempted|), |start.healthy|)
    requires now == After(before, others(|attempted|) + [OutcomeOf(provider, succeeds(|attempted|))])
    ensures Along(start, now, succeeds, others, attempted + [provider])
  {
    var longer := attempted + [provider];
    assert longer[..|attempted|] == attempted;
    AfterAppend(start, TraceOf(attempted, succeeds, others),
                others(|attempted|) + [OutcomeOf(provider, succeeds(|attempted|))]);
    forall k | 0 <= k < |longer| ensures BeganOnActive(start, succeeds, others, longer, k) {
      if k < |attempted| {
        assert longer[..k] == attempted[..k] && BeganOnActive(start, succeeds, others, attempted, k);
      }
    }
  }

  /** A call that has only failed so far. */
  ghost predicate Trying(start: Pool, now: Pool, succeeds: nat -> bool, others: nat -> seq<Event>,
      attempted: seq<nat>) {
    && Along(start, now, succeeds, others, attempted) && |attempted| <= |start.healthy|
    && forall k :: 0 <= k < |attempted| ==> !succeeds(k)
  }

  lemma GivesUp(start: Pool, now: Pool, succeeds: nat -> bool, others: nat -> seq<Event>, attempted: seq<nat>)
    requires Trying(start, now, succeeds, others, attempted)
    requires |attempted| == |start.healthy| || !now.healthy[now.active]
    ensures IsCall(start, now, succeeds, others, attempted, false)
  {
    if attempted != [] {
      assert BeganOnActive(start, succeeds, others, attempted, 0);
    }
  }

  lemma AttemptEnds(start: Pool, before: Pool, now: Pool, succeeds: nat -> bool, others: nat -> seq<Event>,
      attempted: seq<nat>, provider: nat)
    requires Trying(start, before, succeeds, others, attempted) && |attempted| < |start.healthy|
    requires before.active == provider && before.healthy[provider] && InPool(others(|attempted|), |start.healthy|)
    requires now == After(before, others(|attempted|) + [OutcomeOf(provider, succeeds(|attempted|))])
    ensures !succeeds(|attempted|) ==> Trying(start, now, succeeds, others, attempted + [provider])
    ensures succeeds(|attempted|) ==> IsCall(start, now, succeeds, others, attempted + [provider], true)
  {
    Extend(start, before, now, succeeds, others, attempted, provider);
    assert BeganOnActive(start, succeeds, others, attempted + [provider], 0);
  }

  // ----- who corroborates a header -----

  /** Some provider asked, the one that served the header excepted or not, has the header's hash. */
  ghost predicate Agreed(p: Pool, answers: nat -> Option<string>, blockHash: string, excepted: Option<nat>) {
    exists i: nat :: IndependentIn(p, i) && Some(i) != excepted && answers(i) == Some(blockHash)
  }

  /**
   Corroboration leaves out the provider active when it runs, which need not be the one that
   served the header. Whatever the providers answer, an agreement includes another provider's
   exactly if the server is still active, or out of the pool.
   */
  lemma AgreementIsIndependentIff(p: Pool, served: nat, blockHash: string)
    requires Shaped(p) && served < |p.healthy|
    ensures
      (forall answers :: Agreed(p, answers, blockHash, None) ==> Agreed(p, answers, blockHash, Some(served))) <==>
      p.active == served || !p.healthy[served]
  {
    if IndependentIn(p, served) {
      var answers := (i: nat) => if i == served then Some(blockHash) else None;
      assert answers(served) == Some(blockHash);
      assert Agreed(p, answers, blockHash, None) && !Agreed(p, answers, blockHash, Some(served));
    }
  }

  /** The index moves only with a failover, so without one in between agreement is independent of the server. */
  lemma {:induction false} NoFailoverNoMove(p: Pool, trace: seq<Event>)
    requires Inv(p) && InPool(trace, |p.healthy|)
    ensures p.failovers <= After(p, trace).failovers
    ensures After(p, trace).failovers == p.failovers ==> After(p, trace).active == p.active
  {
    if trace != [] {
      NoFailoverNoMove(p, trace[..|trace| - 1]);
    }
  }

  lemma AfterThree(p: Pool, a: Event, b: Event, c: Event)
    requires Inv(p) && InPool([a, b, c], |p.healthy|)
    ensures [a, b, c][0].provider < |p.healthy| && [a, b, c][1].provider < |p.healthy|
    ensures [a, b, c][2].provider < |p.healthy|
    ensures After(p, [a, b, c]) == Handle(Handle(Handle(p, a), b), c)
  {
    var trace := [a, b, c];
    assert a == trace[0] && b == trace[1] && c == trace[2];
    assert trace == [a] + [b] + [c];
    AfterOne(p, a);
    AfterAppend(p, [a], [b]);
    AfterOne(After(p, [a]), b);
    AfterAppend(p, [a] + [b], [c]);
    AfterOne(After(p, [a] + [b]), c);
  }

  /** Two failures take the active provider out, and its recovery puts it back beside the new one. */
  lemma FailsOverAndRecovers(p: Pool, other: nat)
    requires Inv(p) && p.healthy[p.active] && p.failures[p.active] == 0
    requires other < |p.healthy| && other != p.active && p.healthy[other]
    ensures
      var after := Handle(Handle(Handle(p, Failed(p.active)), Failed(p.active)), Recovered(p.active));
      |after.healthy| == |p.healthy| && after.healthy[p.active] && after.active != p.active
  {
    var once := Handle(p, Failed(p.active));
    FailureMovesOn(once, p.active);
    assert Handle(once, Failed(p.active)).healthy[other];
  }

  /**
   A header is served, its provider fails over to another and recovers, all before the header
   is corroborated: the provider that served it can now vouch for it alone.
   */
  lemma ServerVouchesForItself(p: Pool, other: nat, blockHash: string)
    requires Inv(p) && p.healthy[p.active] && p.failures[p.active] == 0
    requires other < |p.healthy| && other != p.active && p.healthy[other]
    ensures
      var trace := [Failed(p.active), Failed(p.active), Recovered(p.active)];
      && InPool(trace, |p.healthy|)
      && exists answers :: Agreed(After(p, trace), answers, blockHash, None)
                           && !Agreed(After(p, trace), answers, blockHash, Some(p.active))
  {
    var trace := [Failed(p.active), Failed(p.active), Recovered(p.active)];
    AfterThree(p, trace[0], trace[1], trace[2]);
    FailsOverAndRecovers(p, other);
    AgreementIsIndependentIff(After(p, trace), p.active, blockHash);
  }

  lemma AfterOne(p: Pool, e: Event)
    requires Inv(p) && e.provider < |p.healthy|
    ensures After(p, [e]) == Handle(p, e)
  {
    assert [e][..0] == [];
  }

  // ----- how far one call gets -----

  predicate Unused(p: Pool) {
    Inv(p) && forall i :: 0 <= i < |p.healthy| ==> p.healthy[i] && p.failures[i] == 0
  }

  /** `k` failures in a row, each of the provider then active, with nothing in between. */
  function FailuresInARow(p: Pool, k: nat): (r: Pool)
    requires Inv(p)
    ensures Inv(r) && |r.healthy| == |p.healthy|
  {
    if k == 0 then p
    else
      var q := FailuresInARow(p, k - 1);
      HandleKeeps(q, Failed(q.active));
      Handle(q, Failed(q.active))
  }

  lemma AtDistinct(a: nat, o: nat, o': nat, n: nat)
    requires a < n && o < n && o' < n && o != o'
    ensures At(a, o, n) != At(a, o', n)
  {
    WrapsOnce(a + o, n);
    WrapsOnce(a + o', n);
  }

  lemma AtAgain(a: nat, o: nat, d: nat, n: nat)
    requires a < n && o + d < n
    ensures At(At(a, o, n), d, n) == At(a, o + d, n)
  {
    WrapsOnce(a + o, n);
    WrapsOnce(a + o + d, n);
    WrapsOnce(At(a, o, n) + d, n);
  }

  /** The provider `o` places on. */
  function Place(p: Pool, o: nat): (i: nat)
    requires Shaped(p)
    ensures i < |p.healthy|
  {
    At(p.active, o, |p.healthy|)
  }

  /** How many failures take the first `o` providers, from the active one on, out of the pool. */
  function Budget(p: Pool, o: nat): nat
    requires Inv(p)
  {
    if o == 0 then 0
    else
      var i := Place(p, o - 1);
      Budget(p, o - 1) + if p.healthy[i] then MAXIMUM_CONSECUTIVE_FAILURES - p.failures[i] else 0
  }

  lemma {:induction false} BudgetGrows(p: Pool, low: nat, high: nat)
    requires Inv(p) && low <= high
    ensures Budget(p, low) <= Budget(p, high)
  {
    if low < high {
      BudgetGrows(p, low, high - 1);
    }
  }

  /** The first healthy provider from `from` on, where the budget says there is one. */
  lemma {:induction false} FirstHealthy(p: Pool, from: nat, n: nat) returns (o: nat)
    requires Inv(p) && from <= n && Budget(p, from) < Budget(p, n)
    ensures from <= o < n && p.healthy[Place(p, o)] && Budget(p, o) == Budget(p, from)
    ensures forall x :: from <= x < o ==> !p.healthy[Place(p, x)]
    decreases n - from
  {
    if p.healthy[Place(p, from)] {
      o := from;
    } else {
      o := FirstHealthy(p, from + 1, n);
    }
  }

  lemma {:induction false} SearchFinds(healthy: seq<bool>, active: nat, from: nat, offset: nat)
    requires active < |healthy| && 1 <= from <= offset <= |healthy| && healthy[At(active, offset, |healthy|)]
    requires forall x :: from <= x < offset ==> !healthy[At(active, x, |healthy|)]
    ensures SearchFrom(healthy, active, from) == At(active, offset, |healthy|)
    decreases offset - from
  {
    if from < offset {
      SearchFinds(healthy, active, from + 1, offset);
    }
  }

  /** What `k` failures in a row leave of the provider `o` places on. */
  predicate WornAt(p: Pool, q: Pool, k: nat, o: nat)
    requires Inv(p) && Shaped(q) && |q.healthy| == |p.healthy|
  {
    var i := Place(p, o);
    && (q.healthy[i] <==> p.healthy[i] && k < Budget(p, o + 1))
    && (q.healthy[i] ==> q.failures[i] == p.failures[i] + if k <= Budget(p, o) then 0 else k - Budget(p, o))
  }

  /** The k-th failure in a row falls to the provider `o` places on. */
  predicate FallsTo(p: Pool, k: nat, o: nat)
    requires Inv(p)
  {
    Budget(p, o) <= k < Budget(p, o + 1)
  }

  ghost predicate AllWorn(p: Pool, q: Pool, k: nat)
    requires Inv(p) && Shaped(q) && |q.healthy| == |p.healthy|
  {
    forall o :: 0 <= o < |p.healthy| ==> WornAt(p, q, k, o)
  }

  ghost predicate Worn(p: Pool, q: Pool, k: nat)
    requires Inv(p) && Shaped(q) && |q.healthy| == |p.healthy|
  {
    && AllWorn(p, q, k)
    && (k < Budget(p, |p.healthy|) ==> exists o :: 0 <= o < |p.healthy| && FallsTo(p, k, o) && q.active == Place(p, o))
  }

  lemma OthersWear(p: Pool, q: Pool, r: Pool, k: nat, j: nat, o: nat)
    requires Inv(p) && Shaped(q) && Shaped(r) && |q.healthy| == |p.healthy| == |r.healthy|
    requires WornAt(p, q, k, o) && FallsTo(p, k, j) && o != j
    requires r.healthy[Place(p, o)] == q.healthy[Place(p, o)] && r.failures[Place(p, o)] == q.failures[Place(p, o)]
    ensures WornAt(p, r, k + 1, o)
  {
    if o < j {
      BudgetGrows(p, o + 1, j);
    } else {
      BudgetGrows(p, j + 1, o);
    }
  }

  lemma FailureWears(p: Pool, q: Pool, k: nat, j: nat)
    requires Inv(p) && Inv(q) && |q.healthy| == |p.healthy| && j < |p.healthy| && FallsTo(p, k, j)
    requires q.active == Place(p, j) && AllWorn(p, q, k)
    ensures AllWorn(p, Handle(q, Failed(q.active)), k + 1)
  {
    var r, next := Handle(q, Failed(q.active)), k + 1;
    assert WornAt(p, q, k, j);
    forall o | 0 <= o < |p.healthy| ensures WornAt(p, r, next, o) {
      if o != j {
        AtDistinct(p.active, o, j, |p.healthy|);
        OthersWear(p, q, r, k, j, o);
      }
    }
  }

  lemma NextTakesOver(p: Pool, q: Pool, r: Pool, k: nat, j: nat) returns (o: nat)
    requires Inv(p) && Inv(q) && Shaped(r) && |q.healthy| == |p.healthy| == |r.healthy| && j < |p.healthy|
    requires q.active == Place(p, j) && Budget(p, j + 1) == k + 1 < Budget(p, |p.healthy|)
    requires AllWorn(p, r, k + 1)
    ensures o < |p.healthy| && FallsTo(p, k + 1, o)
    ensures SearchFrom(r.healthy, q.active, 1) == Place(p, o)
  {
    var next := k + 1;
    o := FirstHealthy(p, j + 1, |p.healthy|);
    assert WornAt(p, r, next, o);
    AtAgain(p.active, j, o - j, |p.healthy|);
    forall x | 1 <= x < o - j ensures !r.healthy[At(q.active, x, |r.healthy|)] {
      AtAgain(p.active, j, x, |p.healthy|);
      assert WornAt(p, r, next, j + x);
    }
    SearchFinds(r.healthy, q.active, 1, o - j);
  }

  lemma OneMoreFailure(p: Pool, q: Pool, k: nat)
    requires Inv(p) && Inv(q) && |q.healthy| == |p.healthy| && k < Budget(p, |p.healthy|) && Worn(p, q, k)
    ensures Worn(p, Handle(q, Failed(q.active)), k + 1)
  {
    var n, r := |p.healthy|, Handle(q, Failed(q.active));
    var j :| 0 <= j < n && FallsTo(p, k, j) && q.active == Place(p, j);
    assert WornAt(p, q, k, j);
    FailureWears(p, q, k, j);
    if k + 1 < Budget(p, j + 1) {
      assert FallsTo(p, k + 1, j) && r.active == Place(p, j);
    } else if k + 1 < Budget(p, n) {
      var o := NextTakesOver(p, q, r, k, j);
      assert r.active == Place(p, o);
    }
  }

  lemma {:induction false} FailuresWear(p: Pool, k: nat)
    requires Inv(p) && p.healthy[p.active] && k <= Budget(p, |p.healthy|)
    ensures Worn(p, FailuresInARow(p, k), k)
  {
    if k == 0 {
      WrapsOnce(p.active, |p.healthy|);
      assert FallsTo(p, 0, 0);
    } else {
      FailuresWear(p, k - 1);
      OneMoreFailure(p, FailuresInARow(p, k - 1), k - 1);
    }
  }

  /** The first `k` attempts of a serial call were `k` failures in a row. */
  ghost predicate InARow(start: Pool, succeeds: nat -> bool, others: nat -> seq<Event>, attempted: seq<nat>, k: nat)
    requires Inv(start) && k <= |attempted|
  {
    var trace := TraceOf(attempted[..k], succeeds, others);
    InPool(trace, |start.healthy|) && After(start, trace) == FailuresInARow(start, k)
  }

  lemma TraceSnoc(succeeds: nat -> bool, others: nat -> seq<Event>, attempted: seq<nat>, k: nat)
    requires k < |attempted| && !succeeds(k) && others(k) == []
    ensures TraceOf(attempted[..k + 1], succeeds, others) ==
            TraceOf(attempted[..k], succeeds, others) + [Failed(attempted[k])]
  {
    assert attempted[..k + 1][..k] == attempted[..k];
  }

  lemma OneMoreInARow(start: Pool, succeeds: nat -> bool, others: nat -> seq<Event>, attempted: seq<nat>, k: nat)
    requires Inv(start) && k < |attempted| && !succeeds(k) && others(k) == []
    requires InARow(start, succeeds, others, attempted, k) && BeganOnActive(start, succeeds, others, attempted, k)
    ensures InARow(start, succeeds, others, attempted, k + 1)
  {
    var trace := TraceOf(attempted[..k], succeeds, others);
    TraceSnoc(succeeds, others, attempted, k);
    AfterAppend(start, trace, [Failed(attempted[k])]);
    AfterOne(After(start, trace), Failed(attempted[k]));
  }

  /** A serial call that keeps failing runs through failures in a row. */
  lemma {:induction false} SerialAttempts(start: Pool, now: Pool, succeeds: nat -> bool, others: nat -> seq<Event>,
      attempted: seq<nat>, k: nat)
    requires Along(start, now, succeeds, others, attempted) && k <= |attempted|
    requires forall i :: 0 <= i < |attempted| ==> !succeeds(i) && others(i) == []
    ensures InARow(start, succeeds, others, attempted, k)
  {
    if k > 0 {
      SerialAttempts(start, now, succeeds, others, attempted, k - 1);
      OneMoreInARow(start, succeeds, others, attempted, k - 1);
    }
  }

  lemma FallsToOne(p: Pool, k: nat, o: nat, o': nat)
    requires Inv(p) && FallsTo(p, k, o) && FallsTo(p, k, o')
    ensures o == o'
  {
    if o < o' {
      BudgetGrows(p, o + 1, o');
    } else if o' < o {
      BudgetGrows(p, o' + 1, o);
    }
  }

  /** Attempt k goes to the provider whose share of the failures k falls in. */
  ghost predicate Shares(start: Pool, attempted: seq<nat>)
    requires Inv(start)
  {
    forall k, o :: 0 <= k < |attempted| && 0 <= o < |start.healthy| ==>
      (attempted[k] == Place(start, o) <==> FallsTo(start, k, o))
  }

  lemma AttemptStands(start: Pool, attempted: seq<nat>, k: nat)
    requires Inv(start) && start.healthy[start.active] && k < |attempted| && k <= Budget(start, |start.healthy|)
    requires AtOnce(FailuresInARow(start, k), attempted[k])
    ensures k < Budget(start, |start.healthy|)
    ensures forall o :: 0 <= o < |start.healthy| ==> (attempted[k] == Place(start, o) <==> FallsTo(start, k, o))
  {
    if k == Budget(start, |start.healthy|) {
      AllOut(start, k);
    } else {
      var at := ActiveStands(start, k);
      forall o | 0 <= o < |start.healthy| ensures attempted[k] == Place(start, o) <==> FallsTo(start, k, o) {
        if FallsTo(start, k, o) {
          FallsToOne(start, k, o, at);
        } else {
          AtDistinct(start.active, o, at, |start.healthy|);
        }
      }
    }
  }

  /**
   Which provider every attempt of a failing call goes to, on any pool and with nothing else
   going on. The call gives up after one attempt for each provider, or once no healthy one
   is left.
   */
  lemma FailingCallAttempts(start: Pool, end: Pool, succeeds: nat -> bool, others: nat -> seq<Event>,
      attempted: seq<nat>, success: bool)
    requires IsCall(start, end, succeeds, others, attempted, success) && start.healthy[start.active]
    requires forall k :: 0 <= k < |start.healthy| ==> !succeeds(k) && others(k) == []
    ensures |attempted| == Min(|start.healthy|, Budget(start, |start.healthy|))
    ensures Shares(start, attempted)
  {
    var n := |start.healthy|;
    forall k | 0 <= k < |attempted| ensures AtOnce(FailuresInARow(start, k), attempted[k]) {
      SerialAttempts(start, end, succeeds, others, attempted, k);
      assert BeganOnActive(start, succeeds, others, attempted, k);
    }
    SerialAttempts(start, end, succeeds, others, attempted, |attempted|);
    assert attempted[..|attempted|] == attempted;
    if Budget(start, n) < |attempted| {
      AttemptStands(start, attempted, Budget(start, n));
    }
    if |attempted| < Min(n, Budget(start, n)) {
      var _ := ActiveStands(start, |attempted|);
    }
    forall k | 0 <= k < |attempted|
      ensures forall o :: 0 <= o < n ==> (attempted[k] == Place(start, o) <==> FallsTo(start, k, o))
    {
      AttemptStands(start, attempted, k);
    }
  }

  function Min(a: nat, b: nat): nat {
    if a < b then a else b
  }

  lemma AllOut(p: Pool, k: nat)
    requires Inv(p) && p.healthy[p.active] && k == Budget(p, |p.healthy|)
    ensures forall i :: 0 <= i < |p.healthy| ==> !FailuresInARow(p, k).healthy[i]
  {
    FailuresWear(p, k);
    var n := |p.healthy|;
    forall i | 0 <= i < n ensures !FailuresInARow(p, k).healthy[i] {
      var o := PlaceOf(p, i);
      assert WornAt(p, FailuresInARow(p, k), k, o);
      BudgetGrows(p, o + 1, n);
    }
  }

  lemma PlaceOf(p: Pool, i: nat) returns (o: nat)
    requires Shaped(p) && i < |p.healthy|
    ensures o < |p.healthy| && Place(p, o) == i
  {
    o := if i >= p.active then i - p.active else i - p.active + |p.healthy|;
    WrapsOnce(p.active + o, |p.healthy|);
  }

  lemma ActiveStands(p: Pool, k: nat) returns (o: nat)
    requires Inv(p) && p.healthy[p.active] && k < Budget(p, |p.healthy|)
    ensures o < |p.healthy| && FallsTo(p, k, o) && FailuresInARow(p, k).active == Place(p, o)
    ensures FailuresInARow(p, k).healthy[Place(p, o)]
  {
    FailuresWear(p, k);
    o :| 0 <= o < |p.healthy| && FallsTo(p, k, o) && FailuresInARow(p, k).active == Place(p, o);
    assert WornAt(p, FailuresInARow(p, k), k, o);
  }

  /**
   So a failing call reaches a healthy provider exactly if the failures it takes to remove
   the healthy ones before it are fewer than the providers.
   */
  lemma ReachedIff(start: Pool, end: Pool, succeeds: nat -> bool, others: nat -> seq<Event>, attempted: seq<nat>,
      success: bool, o: nat)
    requires IsCall(start, end, succeeds, others, attempted, success) && start.healthy[start.active]
    requires forall k :: 0 <= k < |start.healthy| ==> !succeeds(k) && others(k) == []
    requires o < |start.healthy| && start.healthy[Place(start, o)]
    ensures Place(start, o) in attempted <==> Budget(start, o) < |start.healthy|
  {
    FailingCallAttempts(start, end, succeeds, others, attempted, success);
    SharedOut(start, attempted, o);
  }

  lemma SharedOut(start: Pool, attempted: seq<nat>, o: nat)
    requires Inv(start) && Shares(start, attempted) && o < |start.healthy| && start.healthy[Place(start, o)]
    requires |attempted| == Min(|start.healthy|, Budget(start, |start.healthy|))
    ensures Place(start, o) in attempted <==> Budget(start, o) < |start.healthy|
  {
    BudgetGrows(start, o + 1, |start.healthy|);
    var k := Budget(start, o);
    assert FallsTo(start, k, o);
    if k < |start.healthy| {
      assert attempted[k] == Place(start, o);
    }
    if x :| 0 <= x < |attempted| && attempted[x] == Place(start, o) {
      assert FallsTo(start, x, o);
    }
  }

  lemma {:induction false} UnusedBudget(p: Pool, o: nat)
    requires Unused(p)
    ensures Budget(p, o) == 2 * o
  {
    if o > 0 {
      UnusedBudget(p, o - 1);
    }
  }

  /**
   On an unused pool attempt k goes to the provider k / 2 places on: a call that keeps
   failing never reaches the second half of the pool, and with two providers never the
   second one.
   */
  lemma AttemptsReachHalf(start: Pool, end: Pool, succeeds: nat -> bool, others: nat -> seq<Event>,
      attempted: seq<nat>, success: bool)
    requires IsCall(start, end, succeeds, others, attempted, success) && Unused(start)
    requires forall k :: 0 <= k < |start.healthy| ==> !succeeds(k) && others(k) == []
    ensures |attempted| == |start.healthy|
    ensures forall k :: 0 <= k < |attempted| ==> attempted[k] == Place(start, k / 2)
    ensures forall o :: 0 <= o < |start.healthy| ==> (Place(start, o) in attempted <==> 2 * o < |start.healthy|)
  {
    FailingCallAttempts(start, end, succeeds, others, attempted, success);
    UnusedBudget(start, |start.healthy|);
    forall k | 0 <= k < |attempted| ensures attempted[k] == Place(start, k / 2) {
      UnusedBudget(start, k / 2);
      UnusedBudget(start, k / 2 + 1);
      assert FallsTo(start, k, k / 2);
    }
    forall o | 0 <= o < |start.healthy| ensures Place(start, o) in attempted <==> 2 * o < |start.healthy| {
      ReachedIff(start, end, succeeds, others, attempted, success, o);
      UnusedBudget(start, o);
    }
  }
}
