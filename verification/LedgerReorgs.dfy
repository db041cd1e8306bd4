/**
 Reorgs over runs of the ledger: what one resolution's writes are as steps of a run, which of
 them take effect, and what a payment confirmed beside one rests on.
 */
module LedgerReorgs {
  import opened Common
  import opened StateMachine
  import opened Ledger
  import opened Commits
  import opened LedgerRuns
  import opened LedgerInvariants
  import opened LedgerSteps
  import opened LedgerTheorems
  import opened LedgerWorkers

  // ----- a resolution is a piece of a run -----

  /** What resolution reads of a payment: its row in one state of the run and the events of a later one. */
  function SightAt(run: seq<Database>, id: string, paymentAt: nat, eventsAt: nat): Sight
    requires paymentAt < |run| && eventsAt < |run|
  {
    Sight(if id in run[paymentAt].payments then Some(run[paymentAt].payments[id]) else None, run[eventsAt].events)
  }

  /** Step `o` orphans above the fork, and the payment owned an event captured above it before. */
  predicate AffectedBy(run: seq<Database>, actions: seq<Action>, c: nat, o: nat, id: string) {
    && c <= o < |actions| && |run| == |actions| + 1 && actions[o].OrphanEvents?
    && id in Affected(run[c].events, actions[o].chain, actions[o].forkPoint)
  }

  /** An affected payment owns a flagged event from the orphaning on. */
  lemma OwnsOrphan(cfg: Config, run: seq<Database>, actions: seq<Action>, c: nat, o: nat, n: nat, id: string)
    requires IsRun(cfg, run, actions) && AffectedBy(run, actions, c, o, id) && o < n < |run|
    ensures exists i :: 0 <= i < |run[n].events| && OrphanOf(run[n].events[i], id)
  {
    var chain, fork := actions[o].chain, actions[o].forkPoint;
    var i :| 0 <= i < |run[c].events| && Orphaned(run[c].events[i], chain, fork) && run[c].events[i].owner == Some(id);
    RunInvariant(cfg, run, actions, c, o);
    RunInvariant(cfg, run, actions, o + 1, n);
    assert EventEvolves(run[c].events[i], run[o].events[i]);
    assert Enabled(cfg, run[..o + 1], actions[o]) && run[o + 1] == Apply(cfg, run[..o + 1], actions[o]);
    assert run[..o + 1][o] == run[o];
    assert run[o + 1].events == OrphanAbove(run[o].events, chain, fork);
    assert EventEvolves(run[o + 1].events[i], run[n].events[i]);
    assert OrphanOf(run[n].events[i], id);
  }

  lemma HoldExtendsRun(cfg: Config, run: seq<Database>, actions: seq<Action>, id: string, paymentAt: nat)
    requires IsRun(cfg, run, actions) && paymentAt < |run| && id in run[paymentAt].payments
    requires run[paymentAt].payments[id].status.Confirmed?
    ensures IsRun(cfg, run + [HoldForIncident(run[|actions|], run[paymentAt].payments[id])],
                  actions + [Incident(paymentAt, id)])
  {
    ExtendRun(cfg, run, actions, Incident(paymentAt, id));
  }

  lemma RecomputeExtendsRun(cfg: Config, run: seq<Database>, actions: seq<Action>, id: string, paymentAt: nat,
      eventsAt: nat)
    requires IsRun(cfg, run, actions) && paymentAt <= eventsAt < |run| && id in run[paymentAt].payments
    requires exists i :: 0 <= i < |run[paymentAt].events| && OrphanOf(run[paymentAt].events[i], id)
    ensures
      var total := Total(CanonicalRaw, id, run[eventsAt].events);
      IsRun(cfg, run + [RecomputePartial(run[|actions|], run[paymentAt].payments[id], total)],
            actions + [Recompute(paymentAt, eventsAt, id)])
  {
    ExtendRun(cfg, run, actions, Recompute(paymentAt, eventsAt, id));
  }

  /**
   The first write for an affected payment, however long after its reads and whatever else
   was committed between, is at most one step of the run.
   */
  lemma TouchExtendsRun(cfg: Config, run: seq<Database>, actions: seq<Action>, c: nat, o: nat, id: string,
      paymentAt: nat, eventsAt: nat) returns (longer: seq<Database>, more: seq<Action>)
    requires IsRun(cfg, run, actions) && AffectedBy(run, actions, c, o, id)
    requires o < paymentAt <= eventsAt < |run|
    ensures IsRun(cfg, longer, more) && run <= longer && actions <= more && |more| <= |actions| + 1
    ensures longer[|more|] == TouchOn(run[|actions|], id, SightAt(run, id, paymentAt, eventsAt))
  {
    longer, more := run, actions;
    if id in run[paymentAt].payments {
      var read, cur := run[paymentAt].payments[id], run[|actions|];
      if read.status.Confirmed? {
        HoldExtendsRun(cfg, run, actions, id, paymentAt);
        longer, more := run + [HoldForIncident(cur, read)], actions + [Incident(paymentAt, id)];
      } else if read.status.Pending? {
        OwnsOrphan(cfg, run, actions, c, o, paymentAt, id);
        RecomputeExtendsRun(cfg, run, actions, id, paymentAt, eventsAt);
        longer := run + [RecomputePartial(cur, read, Total(CanonicalRaw, id, run[eventsAt].events))];
        more := actions + [Recompute(paymentAt, eventsAt, id)];
      }
    }
  }

  /** And so is the second. */
  lemma AnnotateExtendsRun(cfg: Config, run: seq<Database>, actions: seq<Action>, id: string, sight: Sight)
    returns (longer: seq<Database>, more: seq<Action>)
    requires IsRun(cfg, run, actions)
    ensures IsRun(cfg, longer, more) && run <= longer && actions <= more && |more| <= |actions| + 1
    ensures longer[|more|] == AnnotateOn(run[|actions|], id, sight)
  {
    longer, more := run, actions;
    if sight.payment.Some? {
      var a := Annotate(OnPayment(id, Reorg));
      ExtendRun(cfg, run, actions, a);
      longer, more := run + [Apply(cfg, run, a)], actions + [a];
    }
  }

  /** Each payment's sight was read in states of the run after the orphaning. */
  ghost predicate SeenSince(run: seq<Database>, o: nat, ids: seq<string>, sights: string -> Sight,
      paymentAt: string -> nat, eventsAt: string -> nat) {
    forall id :: id in ids ==>
      && o < paymentAt(id) <= eventsAt(id) < |run|
      && sights(id) == SightAt(run, id, paymentAt(id), eventsAt(id))
  }

  lemma {:induction false} EffectsExtendRun(cfg: Config, run: seq<Database>, actions: seq<Action>, c: nat, o: nat,
      ids: seq<string>, sights: string -> Sight, paymentAt: string -> nat, eventsAt: string -> nat)
    returns (longer: seq<Database>, more: seq<Action>)
    requires IsRun(cfg, run, actions) && forall id :: id in ids ==> AffectedBy(run, actions, c, o, id)
    requires SeenSince(run, o, ids, sights, paymentAt, eventsAt)
    ensures IsRun(cfg, longer, more) && run <= longer && actions <= more
    ensures longer[|more|] == EffectsOn(run[|actions|], ids, sights)
  {
    if ids == [] {
      longer, more := run, actions;
    } else {
      var front, last := ids[..|ids| - 1], ids[|ids| - 1];
      longer, more := EffectsExtendRun(cfg, run, actions, c, o, front, sights, paymentAt, eventsAt);
      assert AffectedBy(run, actions, c, o, last) && AffectedBy(longer, more, c, o, last);
      assert SightAt(longer, last, paymentAt(last), eventsAt(last)) == sights(last);
      longer, more := TouchExtendsRun(cfg, longer, more, c, o, last, paymentAt(last), eventsAt(last));
      longer, more := AnnotateExtendsRun(cfg, longer, more, last, sights(last));
    }
  }

  /** The writes of one resolution, as far as a crash lets them get, extend the run its orphaning is part of. */
  lemma EffectsUpToExtendRun(cfg: Config, run: seq<Database>, actions: seq<Action>, c: nat, o: nat, ids: seq<string>,
      sights: string -> Sight, paymentAt: string -> nat, eventsAt: string -> nat, writes: nat)
    returns (longer: seq<Database>, more: seq<Action>)
    requires IsRun(cfg, run, actions) && forall id :: id in ids ==> AffectedBy(run, actions, c, o, id)
    requires SeenSince(run, o, ids, sights, paymentAt, eventsAt)
    ensures IsRun(cfg, longer, more) && run <= longer && actions <= more
    ensures longer[|more|] == EffectsUpTo(run[|actions|], ids, sights, writes)
  {
    if writes >= 2 * |ids| {
      longer, more := EffectsExtendRun(cfg, run, actions, c, o, ids, sights, paymentAt, eventsAt);
    } else {
      longer, more := EffectsExtendRun(cfg, run, actions, c, o, ids[..writes / 2], sights, paymentAt, eventsAt);
      if writes % 2 == 1 {
        var id := ids[writes / 2];
        assert AffectedBy(run, actions, c, o, id) && AffectedBy(longer, more, c, o, id);
        assert SightAt(longer, id, paymentAt(id), eventsAt(id)) == sights(id);
        longer, more := TouchExtendsRun(cfg, longer, more, c, o, id, paymentAt(id), eventsAt(id));
      }
    }
  }

  /**
   A whole resolution, capturing its events in any earlier state, is a piece of a run of the
   ledger: the orphaning, then for each affected payment its adjustment and its annotation.
   */
  lemma ResolutionExtendsRun(cfg: Config, run: seq<Database>, actions: seq<Action>, c: nat, chain: string,
      forkPoint: nat, ids: seq<string>, writes: nat) returns (longer: seq<Database>, more: seq<Action>)
    requires IsRun(cfg, run, actions) && c < |run|
    requires forall id :: id in ids ==> id in Affected(run[c].events, chain, forkPoint)
    ensures IsRun(cfg, longer, more) && run <= longer && actions <= more
    ensures
      var flagged := run[|actions|].(events := OrphanAbove(run[|actions|].events, chain, forkPoint));
      longer[|more|] == EffectsUpTo(flagged, ids, SeenIn(flagged), writes)
  {
    var o, orphan := |actions|, OrphanEvents(chain, forkPoint);
    ExtendRun(cfg, run, actions, orphan);
    longer, more := run + [Apply(cfg, run, orphan)], actions + [orphan];
    assert forall id :: id in ids ==> AffectedBy(longer, more, c, o, id);
    var now := (_: string) => o + 1;
    longer, more := EffectsUpToExtendRun(cfg, longer, more, c, o, ids, SeenIn(longer[o + 1]), now, now, writes);
  }

  /** Every payment and the events as one state holds them. */
  function SeenIn(db: Database): string -> Sight {
    (id: string) => Sight(if id in db.payments then Some(db.payments[id]) else None, db.events)
  }

  // ----- which adjustments take effect -----

  lemma StepAt(cfg: Config, run: seq<Database>, actions: seq<Action>, n: nat)
    requires IsRun(cfg, run, actions) && n < |actions|
    ensures run[..n + 1][n] == run[n] && Enabled(cfg, run[..n + 1], actions[n])
    ensures run[n + 1] == Apply(cfg, run[..n + 1], actions[n])
  {
  }

  /**
   The finality hold is placed exactly if the payment is as it was read; the incident is
   audited either way.
   */
  lemma HoldPlacedIff(cfg: Config, run: seq<Database>, actions: seq<Action>, n: nat)
    requires IsRun(cfg, run, actions) && n < |actions| && actions[n].Incident?
    ensures
      var at, id := actions[n].paymentAt, actions[n].paymentId;
      && at <= n && id in run[at].payments && id in run[n].payments && id in run[n + 1].payments
      && run[n + 1].audit == run[n].audit + [AuditRow(id, FinalityIncident, Confirmed, Confirmed, None)]
      && (run[n + 1].payments != run[n].payments <==> run[n].payments[id] == run[at].payments[id])
      && (run[n + 1].payments[id].automationHold <==>
            run[n].payments[id].automationHold || run[n].payments[id] == run[at].payments[id])
  {
    var at, id := actions[n].paymentAt, actions[n].paymentId;
    StepAt(cfg, run, actions, n);
    assert run[..n + 1][at] == run[at];
    RunInvariant(cfg, run, actions, at, n);
    ReadStillCurrent(cfg, run[at], run[n], id);
    assert HoldForIncident(run[n], run[at].payments[id]) == run[n + 1];
    if run[n].payments[id].version == run[at].payments[id].version {
      assert run[n + 1].payments[id].version != run[n].payments[id].version;
    }
  }

  /** The recomputed total is stored exactly if the payment, read pending, is as it was read. */
  lemma TotalPlacedIff(cfg: Config, run: seq<Database>, actions: seq<Action>, n: nat)
    requires IsRun(cfg, run, actions) && n < |actions| && actions[n].Recompute?
    requires run[actions[n].paymentAt].payments[actions[n].paymentId].status.Pending?
    ensures
      var at, id := actions[n].paymentAt, actions[n].paymentId;
      && id in run[n].payments && id in run[n + 1].payments
      && (run[n + 1] != run[n] <==> run[n].payments[id] == run[at].payments[id])
      && (run[n + 1] != run[n] ==> run[n + 1].payments[id].money.partialAmountReceived ==
                                   Some(Total(CanonicalRaw, id, run[actions[n].totalAt].events)))
  {
    var at, id := actions[n].paymentAt, actions[n].paymentId;
    StepAt(cfg, run, actions, n);
    assert run[..n + 1][at] == run[at] && run[..n + 1][actions[n].totalAt] == run[actions[n].totalAt];
    RunInvariant(cfg, run, actions, at, n);
    ReadStillCurrent(cfg, run[at], run[n], id);
    if StillAt(run[n], run[at].payments[id]) {
      assert run[n + 1].payments[id].version != run[n].payments[id].version;
    }
  }

  // ----- what a confirmed payment rests on -----

  /** Some step from `i` up to `j` orphans the captured event's block. */
  predicate OrphanedBetween(actions: seq<Action>, i: nat, j: nat, e: Capture)
    requires j <= |actions|
  {
    exists k :: i <= k < j && OrphansBlockOf(actions[k], e)
  }

  predicate OrphansBlockOf(a: Action, e: Capture) {
    a.OrphanEvents? && a.chain == e.chain && e.blockNumber > a.forkPoint
  }

  lemma PlainStepKeepsFlags(cfg: Config, past: seq<Database>, a: Action, row: nat)
    requires |past| > 0 && Enabled(cfg, past, a) && !a.Claim? && !a.Sweep? && !a.Confirm?
    requires row < |past[|past| - 1].events|
    ensures
      var e, next := past[|past| - 1].events[row], Apply(cfg, past, a);
      && row < |next.events|
      && (next.events[row].canonical <==> e.canonical && !OrphansBlockOf(a, e.capture))
  {
  }

  lemma ReadStepKeepsFlags(cfg: Config, past: seq<Database>, a: Action, row: nat)
    requires |past| > 0 && Enabled(cfg, past, a) && (a.Claim? || a.Sweep? || a.Confirm?)
    requires row < |past[|past| - 1].events|
    ensures
      var e, next := past[|past| - 1].events[row], Apply(cfg, past, a);
      row < |next.events| && next.events[row].canonical == e.canonical
  {
    var cur := past[|past| - 1];
    if a.Claim? {
      ClaimKeepsFlags(cfg, cur, past[a.readAt].events[a.row], a.paymentId, a.now);
    } else if a.Sweep? {
      SweepKeepsEvents(cfg, cur, past[a.paymentAt].payments[a.paymentId],
                       Total(CanonicalClaims, a.paymentId, past[a.totalAt].events), a.now);
    } else {
      WriteKeepsEvents(cfg, cur, past[a.paymentAt].payments[a.paymentId], WritesOf(cfg, past, a)[a.k]);
    }
  }

  /** Only an orphaning of its block ends an event's canonicity. */
  lemma StepKeepsFlag(cfg: Config, run: seq<Database>, actions: seq<Action>, n: nat, row: nat)
    requires IsRun(cfg, run, actions) && n < |actions| && row < |run[n].events|
    ensures row < |run[n + 1].events| && run[n + 1].events[row].capture == run[n].events[row].capture
    ensures run[n + 1].events[row].canonical <==>
      run[n].events[row].canonical && !OrphansBlockOf(actions[n], run[n].events[row].capture)
  {
    StepAt(cfg, run, actions, n);
    RunInvariant(cfg, run, actions, n, n + 1);
    assert EventEvolves(run[n].events[row], run[n + 1].events[row]);
    if actions[n].Claim? || actions[n].Sweep? || actions[n].Confirm? {
      ReadStepKeepsFlags(cfg, run[..n + 1], actions[n], row);
    } else {
      PlainStepKeepsFlags(cfg, run[..n + 1], actions[n], row);
    }
  }

  lemma SweepKeepsEvents(cfg: Config, cur: Database, read: Payment, total: nat, now: int)
    ensures SweepExpiry(cfg, cur, read, total, now).events == cur.events
  {
  }

  lemma WriteKeepsEvents(cfg: Config, cur: Database, read: Payment, w: Write)
    ensures ApplyWrite(cfg, cur, read, w).events == cur.events
  {
  }

  lemma {:induction false} CanonicalUntilOrphaned(cfg: Config, run: seq<Database>, actions: seq<Action>, i: nat, j: nat,
      row: nat)
    requires IsRun(cfg, run, actions) && i <= j < |run| && row < |run[i].events| && run[i].events[row].canonical
    ensures row < |run[j].events| && run[j].events[row].capture == run[i].events[row].capture
    ensures run[j].events[row].canonical <==> !OrphanedBetween(actions, i, j, run[i].events[row].capture)
    decreases j - i
  {
    if i < j {
      CanonicalUntilOrphaned(cfg, run, actions, i, j - 1, row);
      StepKeepsFlag(cfg, run, actions, j - 1, row);
    }
  }

  /** A call that confirms read the matched event, and read it canonical. */
  lemma ConfirmingWrite(cfg: Config, read: Payment, event: Option<Event>, seen: Observation, now: int, now2: int,
      review: Option<ReviewDecision>, verdict: Verdict, k: nat)
    requires
      var writes := Decide(cfg, read, event, seen, now, now2, review, verdict).writes;
      k < |writes| && writes[k].Transition? && writes[k].to.Confirmed?
    ensures read.matched.Some? && event.Some? && event.value.canonical
  {
  }

  /** The statuses only a confirmation call takes a payment to. */
  predicate Advanced(s: Status) {
    s.Confirming? || s.Confirmed? || s.Failed?
  }

  predicate NotAdvanced(p: Payment, q: Payment) {
    Advanced(q.status) ==> q.status == p.status
  }

  lemma ChangeAdvancesNothing(cfg: Config, cur: Database, next: Database, event: Event, claimed: string,
      action: MatchAction, id: string)
    requires claimed in cur.payments && cur.payments[claimed].terms.paymentId == claimed && id in cur.payments
    requires ClaimChange(cfg, cur, next, event, claimed, action)
    ensures id in next.payments && NotAdvanced(cur.payments[id], next.payments[id])
  {
  }

  lemma ClaimsAdvanceNothing(cfg: Config, cur: Database, event: Event, claimed: string, now: int, id: string)
    requires claimed in cur.payments && cur.payments[claimed].terms.paymentId == claimed && id in cur.payments
    requires ApplyClaim(cfg, cur, event, claimed, now).Committed?
    ensures
      var next := ApplyClaim(cfg, cur, event, claimed, now).db;
      id in next.payments && NotAdvanced(cur.payments[id], next.payments[id])
  {
    ClaimShape(cfg, cur, event, claimed, now);
    var outcome := ApplyClaim(cfg, cur, event, claimed, now);
    ChangeAdvancesNothing(cfg, cur, outcome.db, event, claimed, outcome.action, id);
  }

  lemma SweepAdvancesNothing(cfg: Config, cur: Database, read: Payment, total: nat, now: int, id: string)
    requires id in cur.payments
    ensures
      var next := SweepExpiry(cfg, cur, read, total, now);
      id in next.payments && NotAdvanced(cur.payments[id], next.payments[id])
  {
  }

  lemma PlainStepAdvancesNothing(cfg: Config, past: seq<Database>, a: Action, id: string)
    requires |past| > 0 && Enabled(cfg, past, a) && !a.Claim? && !a.Sweep? && !a.Confirm?
    requires id in past[|past| - 1].payments
    ensures
      var next := Apply(cfg, past, a);
      id in next.payments && NotAdvanced(past[|past| - 1].payments[id], next.payments[id])
  {
  }

  lemma ClaimStepAdvancesNothing(cfg: Config, run: seq<Database>, actions: seq<Action>, n: nat, id: string)
    requires IsRun(cfg, run, actions) && n < |actions| && id in run[n].payments && id in run[n + 1].payments
    requires actions[n].Claim?
    ensures NotAdvanced(run[n].payments[id], run[n + 1].payments[id])
  {
    var a, past := actions[n], run[..n + 1];
    StepAt(cfg, run, actions, n);
    RunInvariant(cfg, run, actions, n, n);
    KeyedById(cfg, run[n], a.paymentId);
    if ApplyClaim(cfg, run[n], past[a.readAt].events[a.row], a.paymentId, a.now).Committed? {
      ClaimsAdvanceNothing(cfg, run[n], past[a.readAt].events[a.row], a.paymentId, a.now, id);
    }
  }

  /** No step but a confirmation call's own write takes a payment to confirming, confirmed or failed. */
  lemma OnlyCallsAdvance(cfg: Config, run: seq<Database>, actions: seq<Action>, n: nat, id: string)
    requires IsRun(cfg, run, actions) && n < |actions| && id in run[n].payments && id in run[n + 1].payments
    requires !NotAdvanced(run[n].payments[id], run[n + 1].payments[id])
    ensures actions[n].Confirm? && actions[n].paymentId == id
  {
    var a, past := actions[n], run[..n + 1];
    StepAt(cfg, run, actions, n);
    RunInvariant(cfg, run, actions, n, n);
    if a.Claim? {
      ClaimStepAdvancesNothing(cfg, run, actions, n, id);
    } else if a.Sweep? {
      SweepAdvancesNothing(cfg, run[n], past[a.paymentAt].payments[a.paymentId],
                           Total(CanonicalClaims, a.paymentId, past[a.totalAt].events), a.now, id);
    } else if a.Confirm? {
      RunInvariant(cfg, run, actions, a.paymentAt, n);
      assert past[a.paymentAt] == run[a.paymentAt];
      KeyedById(cfg, run[a.paymentAt], a.paymentId);
    } else {
      PlainStepAdvancesNothing(cfg, past, a, id);
    }
  }

  lemma OnlyCallsConfirm(cfg: Config, run: seq<Database>, actions: seq<Action>, n: nat, id: string)
    requires IsRun(cfg, run, actions) && n < |actions| && id in run[n].payments && id in run[n + 1].payments
    requires !run[n].payments[id].status.Confirmed? && run[n + 1].payments[id].status.Confirmed?
    ensures actions[n].Confirm? && actions[n].paymentId == id
  {
    OnlyCallsAdvance(cfg, run, actions, n, id);
  }

  /** The step that takes a payment to confirmed is a confirmation call's write on an unchanged read. */
  lemma ConfirmedByCall(cfg: Config, run: seq<Database>, actions: seq<Action>, n: nat, id: string)
    requires IsRun(cfg, run, actions) && n < |actions| && id in run[n].payments && id in run[n + 1].payments
    requires !run[n].payments[id].status.Confirmed? && run[n + 1].payments[id].status.Confirmed?
    ensures actions[n].Confirm? && actions[n].paymentId == id
    ensures
      var a := actions[n];
      && a.paymentAt <= a.eventAt <= n && id in run[a.paymentAt].payments
      && var read := run[a.paymentAt].payments[id];
         && read.matched.Some? && run[n + 1].payments[id].matched == read.matched
         && var row := IndexOf(run[a.eventAt].events, read.matched.value.eventId);
            row < |run[a.eventAt].events| && run[a.eventAt].events[row].canonical
  {
    OnlyCallsConfirm(cfg, run, actions, n, id);
    var a := actions[n];
    StepAt(cfg, run, actions, n);
    assert run[..n + 1][a.paymentAt] == run[a.paymentAt] && run[..n + 1][a.eventAt] == run[a.eventAt];
    var read := run[a.paymentAt].payments[id];
    var event := EventById(run[a.eventAt].events, MatchedId(read));
    var w := WritesOf(cfg, run[..n + 1], a)[a.k];
    RunInvariant(cfg, run, actions, a.paymentAt, n);
    ReadStillCurrent(cfg, run[a.paymentAt], run[n], id);
    assert run[n + 1] == ApplyWrite(cfg, run[n], read, w);
    assert w.Transition? && w.to.Confirmed?;
    ConfirmingWrite(cfg, read, event, a.seen, a.now, a.now2, a.review, a.verdict, a.k);
  }

  /**
   Orphaning moves no payment's version, so a call that read its event before still confirms
   after. In every later state the event the payment was confirmed on is canonical exactly if
   no orphaning of its block came since that read.
   */
  lemma ConfirmedOnCanonicalIff(cfg: Config, run: seq<Database>, actions: seq<Action>, n: nat, m: nat, id: string)
    requires IsRun(cfg, run, actions) && n < m < |run| && id in run[n].payments && id in run[n + 1].payments
    requires !run[n].payments[id].status.Confirmed? && run[n + 1].payments[id].status.Confirmed?
    ensures actions[n].Confirm? && actions[n].eventAt <= n && run[n + 1].payments[id].matched.Some?
    ensures
      var eventId, at := run[n + 1].payments[id].matched.value.eventId, actions[n].eventAt;
      var row := IndexOf(run[at].events, eventId);
      && row < |run[at].events| && row < |run[m].events| && run[m].events[row].capture.eventId == eventId
      && (run[m].events[row].canonical <==> !OrphanedBetween(actions, at, m, run[at].events[row].capture))
  {
    ConfirmedByCall(cfg, run, actions, n, id);
    var at := actions[n].eventAt;
    var row := IndexOf(run[at].events, run[n + 1].payments[id].matched.value.eventId);
    CanonicalUntilOrphaned(cfg, run, actions, at, m, row);
  }
}
