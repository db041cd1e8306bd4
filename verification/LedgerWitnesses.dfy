/** Short runs that reach the ledger's exceptions, for any payment and deposits of the shape they need. */
module LedgerWitnesses {
  import opened Common
  import opened StateMachine
  import opened Ledger
  import opened Commits
  import opened LedgerRuns
  import LedgerWorkers

  // ----- the steps the runs are made of -----

  /** A transfer to the payment's address on its chain, as the watcher captured it. */
  predicate IsDeposit(e: Event, p: Payment) {
    IsCapture(e) && e.capture.chain == p.terms.chain && e.capture.toAddress == p.terms.address
  }

  function Judged(e: Event, p: Payment, verified: Option<nat>): Event {
    e.(interpretation := Some(Accepted), token := Some(p.terms.token), verifiedReceivedAmount := verified)
  }

  function OwnedBy(e: Event, p: Payment): Event {
    e.(owner := Some(p.terms.paymentId))
  }

  /** The two steps by which a deposit is taken in and accepted. */
  function Taking(e: Event, p: Payment, verified: Option<nat>, row: nat): seq<Action> {
    [Ingest(e), Interpret(row, Accepted, Some(p.terms.token), verified)]
  }

  lemma Received(cfg: Config, run: seq<Database>, actions: seq<Action>, p: Payment, e: Event, verified: Option<nat>)
    returns (longer: seq<Database>, more: seq<Action>)
    requires IsRun(cfg, run, actions) && IsDeposit(e, p)
    requires IndexOf(run[|actions|].events, e.capture.eventId) == |run[|actions|].events|
    ensures IsRun(cfg, longer, more) && run <= longer
    ensures more == actions + Taking(e, p, verified, |run[|actions|].events|)
    ensures longer[|more|] == run[|actions|].(events := run[|actions|].events + [Judged(e, p, verified)])
  {
    var db := run[|actions|];
    ExtendRun(cfg, run, actions, Ingest(e));
    longer, more := run + [db.(events := db.events + [e])], actions + [Ingest(e)];
    var judge := Interpret(|db.events|, Accepted, Some(p.terms.token), verified);
    ExtendRun(cfg, longer, more, judge);
    assert (db.events + [e])[|db.events| := Judged(e, p, verified)] == db.events + [Judged(e, p, verified)];
    longer, more := longer + [Apply(cfg, longer, judge)], more + [judge];
  }

  lemma Claimed(cfg: Config, run: seq<Database>, actions: seq<Action>, row: nat, id: string, now: int)
    returns (longer: seq<Database>, more: seq<Action>)
    requires IsRun(cfg, run, actions) && row < |run[|actions|].events| && id in run[|actions|].payments
    requires var e := run[|actions|].events[row];
             e.interpretation == Some(Accepted) && e.canonical && RoutesTo(e, run[|actions|].payments[id])
    requires ApplyClaim(cfg, run[|actions|], run[|actions|].events[row], id, now).Committed?
    ensures IsRun(cfg, longer, more) && run <= longer && more == actions + [Claim(|actions|, row, id, now)]
    ensures longer[|more|] == ApplyClaim(cfg, run[|actions|], run[|actions|].events[row], id, now).db
  {
    var claim := Claim(|actions|, row, id, now);
    ExtendRun(cfg, run, actions, claim);
    longer, more := run + [Apply(cfg, run, claim)], actions + [claim];
  }

  /** A payment created, and a first deposit taken in. */
  function Opened(p: Payment, e: Event): Database {
    Database(map[p.terms.paymentId := p], [e], [], [], {})
  }

  lemma Opening(cfg: Config, p: Payment, e: Event, verified: Option<nat>)
    returns (run: seq<Database>, actions: seq<Action>)
    requires IsNew(p) && IsDeposit(e, p)
    ensures IsRun(cfg, run, actions) && actions == [Create(p)] + Taking(e, p, verified, 0)
    ensures run[3] == Opened(p, Judged(e, p, verified))
  {
    var start: seq<Database> := [EMPTY];
    ExtendRun(cfg, start, [], Create(p));
    run, actions := start + [Apply(cfg, start, Create(p))], [] + [Create(p)];
    run, actions := Received(cfg, run, actions, p, e, verified);
  }

  // ----- tables of one and two rows -----

  lemma TotalOfOne(m: Measure, id: string, e: Event)
    ensures Total(m, id, [e]) == Share(m, id, e)
  {
    TotalAppend(m, id, [], e);
    assert [] + [e] == [e];
  }

  lemma TotalOfTwo(m: Measure, id: string, e: Event, f: Event)
    ensures Total(m, id, [e, f]) == Share(m, id, e) + Share(m, id, f)
  {
    TotalOfOne(m, id, e);
    TotalAppend(m, id, [e], f);
    assert [e] + [f] == [e, f];
  }

  lemma SecondRow(e: Event, f: Event)
    requires e.capture.eventId != f.capture.eventId
    ensures IndexOf([e, f], f.capture.eventId) == 1 && IndexOf([e, f], e.capture.eventId) == 0
    ensures IndexOf([e], f.capture.eventId) == 1
  {
    assert [e, f][1..] == [f] && [e][1..] == [];
  }

  /** The first claim of a new payment: partial below its amount, a match from there on. */
  lemma FirstClaim(cfg: Config, p: Payment, e: Event, now: int)
    requires IsNew(p) && e.owner.None? && e.canonical && now <= p.terms.expiresAt
    requires Effective(e) <= p.terms.amount || cfg.overpaymentAllow
    ensures
      var outcome := ApplyClaim(cfg, Opened(p, e), e, p.terms.paymentId, now);
      && outcome.Committed? && outcome.db.events == [OwnedBy(e, p)]
      && outcome.db.payments == map[p.terms.paymentId :=
           if Effective(e) < p.terms.amount then PartialPayment(p, Effective(e))
             else MatchedPayment(p, e, Effective(e))]
  {
    var owned := OwnedBy(e, p);
    var events := WithOwner([e], e.capture.eventId, p.terms.paymentId);
    assert IndexOf([e], e.capture.eventId) == 0 && events == [owned];
    TotalOfOne(CanonicalClaims, p.terms.paymentId, owned);
    assert events[0].capture.eventId == e.capture.eventId;
    assert TotalIncluding(events, e, p.terms.paymentId) == Effective(e);
  }

  /** The sum a second claim is judged by. */
  lemma SecondTotal(first: Event, e: Event, p: Payment)
    requires first.capture.eventId != e.capture.eventId && first.owner == Some(p.terms.paymentId) && e.canonical
    ensures
      var events := [first, e];
      && IndexOf(events, e.capture.eventId) == 1
      && WithOwner(events, e.capture.eventId, p.terms.paymentId) == [first, OwnedBy(e, p)]
      && TotalIncluding([first, OwnedBy(e, p)], e, p.terms.paymentId)
         == (if first.canonical then Effective(first) else 0) + Effective(e)
  {
    SecondRow(first, e);
    var owned := [first, OwnedBy(e, p)];
    assert owned[1].capture.eventId == e.capture.eventId;
    TotalOfTwo(CanonicalClaims, p.terms.paymentId, first, OwnedBy(e, p));
  }

  // ----- a release that reports `confirmed` -----

  /** The call that finds the threshold reached, a flagged sender and a release decision. */
  function ReleaseCall(at: nat, id: string, required: nat, now: int, k: nat): Action {
    Confirm(at, at, id, Observed(required, true), now, now, Some(Release), VerdictFlagged, k)
  }

  function Entered(p: Payment, e: Event): Payment {
    var matched := MatchedPayment(p, e, Effective(e));
    matched.(status := Confirming, confirmations := 0, version := matched.version + 1)
  }

  lemma ConfirmingRun(cfg: Config, p: Payment, e: Event, now: int)
    returns (run: seq<Database>, actions: seq<Action>)
    requires IsNew(p) && IsDeposit(e, p) && e.capture.amount == p.terms.amount && now <= p.terms.expiresAt
    ensures IsRun(cfg, run, actions) && |actions| == 5
    ensures run[5].payments == map[p.terms.paymentId := Entered(p, Judged(e, p, None))]
    ensures run[5].events == [OwnedBy(Judged(e, p, None), p)]
  {
    var id, judged := p.terms.paymentId, Judged(e, p, None);
    run, actions := Opening(cfg, p, e, None);
    FirstClaim(cfg, p, judged, now);
    run, actions := Claimed(cfg, run, actions, 0, id, now);
    var enter := Confirm(4, 4, id, Observed(0, true), now, now, None, VerdictClear, 0);
    assert IndexOf(run[4].events, judged.capture.eventId) == 0;
    assert WritesOf(cfg, run, enter) == [Transition(Confirming, Some(0), None, None, MovedTo(Confirming))];
    ExtendRun(cfg, run, actions, enter);
    run, actions := run + [Apply(cfg, run, enter)], actions + [enter];
  }

  lemma ReleaseWrites(cfg: Config, p: Payment, e: Event, past: seq<Database>, k: nat, now: int)
    requires |past| > 5 && IsNew(p) && e.canonical
    requires past[5].payments == map[p.terms.paymentId := Entered(p, e)] && past[5].events == [OwnedBy(e, p)]
    ensures
      var call := ReleaseCall(5, p.terms.paymentId, p.terms.requiredConfirmations, now, k);
      && |WritesOf(cfg, past, call)| == 2
      && WritesOf(cfg, past, call)[0] == Transition(Confirming, None, Some(Clear), None, OverrideReleased)
      && WritesOf(cfg, past, call)[1].to == Confirmed && WritesOf(cfg, past, call)[1].Transition?
      && Decide(cfg, Entered(p, e), Some(OwnedBy(e, p)), call.seen, now, now, call.review, call.verdict).outcome
         == TerminalOutcome(Confirmed)
  {
    var read := Entered(p, e);
    assert IndexOf(past[5].events, e.capture.eventId) == 0;
    assert EventById(past[5].events, MatchedId(read)) == Some(OwnedBy(e, p));
  }

  /**
   A release decision on a flagged sender: both writes of the call are made, the call
   reports the payment confirmed, and the payment is left confirming.
   */
  lemma ReleaseReportsConfirmed(cfg: Config, p: Payment, e: Event, now: int)
    returns (run: seq<Database>, actions: seq<Action>)
    requires IsNew(p) && IsDeposit(e, p) && e.capture.amount == p.terms.amount && now <= p.terms.expiresAt
    ensures IsRun(cfg, run, actions) && |actions| == 7
    ensures
      var id, required := p.terms.paymentId, p.terms.requiredConfirmations;
      && actions[5] == ReleaseCall(5, id, required, now, 0) && actions[6] == ReleaseCall(5, id, required, now, 1)
      && id in run[5].payments && |run[5].events| == 1
      && Decide(cfg, run[5].payments[id], Some(run[5].events[0]), Observed(required, true), now, now, Some(Release),
                VerdictFlagged).outcome == TerminalOutcome(Confirmed)
      && id in run[7].payments && run[7].payments[id].status.Confirming?
  {
    var id, judged := p.terms.paymentId, Judged(e, p, None);
    run, actions := ConfirmingRun(cfg, p, e, now);
    var first := ReleaseCall(5, id, p.terms.requiredConfirmations, now, 0);
    var second := ReleaseCall(5, id, p.terms.requiredConfirmations, now, 1);
    ReleaseWrites(cfg, p, judged, run, 0, now);
    ExtendRun(cfg, run, actions, first);
    run, actions := run + [Apply(cfg, run, first)], actions + [first];
    ReleaseWrites(cfg, p, judged, run, 1, now);
    ExtendRun(cfg, run, actions, second);
    assert !StillAt(run[6], Entered(p, judged));
    run, actions := run + [Apply(cfg, run, second)], actions + [second];
  }

  // ----- confirmations beside a reorg -----

  /** The call that finds the threshold reached and the sender clear, on reads of state 5. */
  function ClearCall(id: string, required: nat, now: int): Action {
    Confirm(5, 5, id, Observed(required, true), now, now, None, VerdictClear, 0)
  }

  function ConfirmedAt(p: Payment, e: Event, now: int): Payment {
    var entered := Entered(p, e);
    entered.(status := Confirmed, confirmations := p.terms.requiredConfirmations, screeningStatus := Clear,
             terminalAt := Some(now), version := entered.version + 1)
  }

  lemma ClearWrite(cfg: Config, p: Payment, e: Event, past: seq<Database>, now: int)
    requires |past| > 5 && IsNew(p) && e.canonical
    requires past[5].payments == map[p.terms.paymentId := Entered(p, e)] && past[5].events == [OwnedBy(e, p)]
    ensures WritesOf(cfg, past, ClearCall(p.terms.paymentId, p.terms.requiredConfirmations, now)) ==
      [Transition(Confirmed, Some(p.terms.requiredConfirmations), Some(Clear), Some(now), MovedTo(Confirmed))]
  {
    var read := Entered(p, e);
    assert IndexOf(past[5].events, e.capture.eventId) == 0;
    assert EventById(past[5].events, MatchedId(read)) == Some(OwnedBy(e, p));
  }

  /** The call confirms on any later state that still holds the payment as it was read. */
  lemma ClearConfirms(cfg: Config, run: seq<Database>, actions: seq<Action>, p: Payment, e: Event, now: int)
    returns (longer: seq<Database>, more: seq<Action>)
    requires IsRun(cfg, run, actions) && |actions| >= 5 && IsNew(p) && e.canonical
    requires run[5].payments == map[p.terms.paymentId := Entered(p, e)] && run[5].events == [OwnedBy(e, p)]
    requires run[|actions|].payments == run[5].payments
    ensures IsRun(cfg, longer, more) && run <= longer
    ensures more == actions + [ClearCall(p.terms.paymentId, p.terms.requiredConfirmations, now)]
    ensures longer[|more|].payments == map[p.terms.paymentId := ConfirmedAt(p, e, now)]
    ensures longer[|more|].events == run[|actions|].events
  {
    var call := ClearCall(p.terms.paymentId, p.terms.requiredConfirmations, now);
    ClearWrite(cfg, p, e, run, now);
    ExtendRun(cfg, run, actions, call);
    longer, more := run + [Apply(cfg, run, call)], actions + [call];
  }

  lemma Orphaning(cfg: Config, run: seq<Database>, actions: seq<Action>, chain: string, forkPoint: nat)
    returns (longer: seq<Database>, more: seq<Action>)
    requires IsRun(cfg, run, actions)
    ensures IsRun(cfg, longer, more) && run <= longer && more == actions + [OrphanEvents(chain, forkPoint)]
    ensures longer[|more|] == run[|actions|].(events := OrphanAbove(run[|actions|].events, chain, forkPoint))
  {
    var a := OrphanEvents(chain, forkPoint);
    ExtendRun(cfg, run, actions, a);
    longer, more := run + [Apply(cfg, run, a)], actions + [a];
  }

  /** A block decision on the payment as the last state has it. */
  lemma Blocking(cfg: Config, run: seq<Database>, actions: seq<Action>, id: string)
    returns (longer: seq<Database>, more: seq<Action>)
    requires IsRun(cfg, run, actions) && id in run[|actions|].payments
    requires run[|actions|].payments[id].terms.paymentId == id
    ensures IsRun(cfg, longer, more) && run <= longer && more == actions + [Screen(|actions|, id, Blocked)]
    ensures
      var p := run[|actions|].payments[id];
      longer[|more|] == run[|actions|].(
        payments := run[|actions|].payments[id := p.(screeningStatus := Blocked, version := p.version + 1)])
  {
    var block := Screen(|actions|, id, Blocked);
    ExtendRun(cfg, run, actions, block);
    longer, more := run + [Apply(cfg, run, block)], actions + [block];
  }

  /**
   A payment confirmed and then orphaned: a block decision moves its version between the
   resolver's read and its write, so the incident goes on record and no hold is placed.
   */
  lemma IncidentMisses(cfg: Config, p: Payment, e: Event, forkPoint: nat, now: int)
    returns (run: seq<Database>, actions: seq<Action>)
    requires IsNew(p) && IsDeposit(e, p) && e.capture.amount == p.terms.amount && now <= p.terms.expiresAt
    requires e.capture.blockNumber > forkPoint
    ensures IsRun(cfg, run, actions) && |actions| == 9 && p.terms.paymentId in run[9].payments
    ensures
      var id := p.terms.paymentId;
      && actions[6..] == [OrphanEvents(p.terms.chain, forkPoint), Screen(7, id, Blocked), Incident(7, id)]
      && run[9].payments[id].status.Confirmed? && !run[9].payments[id].automationHold
      && run[9].audit == run[8].audit + [AuditRow(id, FinalityIncident, Confirmed, Confirmed, None)]
      && |run[9].events| == 1 && OrphanOf(run[9].events[0], id)
  {
    var id, judged := p.terms.paymentId, Judged(e, p, None);
    run, actions := ConfirmingRun(cfg, p, e, now);
    run, actions := ClearConfirms(cfg, run, actions, p, judged, now);
    run, actions := Orphaning(cfg, run, actions, p.terms.chain, forkPoint);
    run, actions := Blocking(cfg, run, actions, id);
    ExtendRun(cfg, run, actions, Incident(7, id));
    run, actions := run + [Apply(cfg, run, Incident(7, id))], actions + [Incident(7, id)];
  }

  /**
   A call that read its event before an orphaning confirms after it. The resolver met the
   payment confirming, which it only annotates: no hold, and the event is not canonical.
   */
  lemma ConfirmsOnOrphaned(cfg: Config, p: Payment, e: Event, forkPoint: nat, now: int)
    returns (run: seq<Database>, actions: seq<Action>)
    requires IsNew(p) && IsDeposit(e, p) && e.capture.amount == p.terms.amount && now <= p.terms.expiresAt
    requires e.capture.blockNumber > forkPoint
    ensures IsRun(cfg, run, actions) && |actions| == 8
    ensures p.terms.paymentId in run[6].payments && p.terms.paymentId in run[8].payments
    ensures
      var id := p.terms.paymentId;
      && actions[5..] == [OrphanEvents(p.terms.chain, forkPoint), Annotate(OnPayment(id, Reorg)),
                          ClearCall(id, p.terms.requiredConfirmations, now)]
      && run[7] == LedgerWorkers.EffectOn(run[6], id, LedgerWorkers.Sight(Some(run[6].payments[id]), run[6].events))
      && run[8].payments[id].status.Confirmed? && !run[8].payments[id].automationHold
      && |run[8].events| == 1 && OrphanOf(run[8].events[0], id)
  {
    var id, judged := p.terms.paymentId, Judged(e, p, None);
    run, actions := ConfirmingRun(cfg, p, e, now);
    run, actions := Orphaning(cfg, run, actions, p.terms.chain, forkPoint);
    ExtendRun(cfg, run, actions, Annotate(OnPayment(id, Reorg)));
    run, actions := run + [Apply(cfg, run, Annotate(OnPayment(id, Reorg)))], actions + [Annotate(OnPayment(id, Reorg))];
    run, actions := ClearConfirms(cfg, run, actions, p, judged, now);
  }

  // ----- an excess that outlives its deposit -----

  /**
   A payment overpaid by one deposit and, after that was orphaned, paid exactly by another:
   the excess of the first stays on record.
   */
  lemma ExcessOutlivesDeposit(cfg: Config, p: Payment, over: Event, exactly: Event, forkPoint: nat, now: int)
    returns (run: seq<Database>, actions: seq<Action>)
    requires IsNew(p) && IsDeposit(over, p) && IsDeposit(exactly, p) && now <= p.terms.expiresAt && cfg.overpaymentAllow
    requires over.capture.eventId != exactly.capture.eventId && over.capture.blockNumber > forkPoint
    requires exactly.capture.amount == p.terms.amount < over.capture.amount
    ensures IsRun(cfg, run, actions) && |actions| == 8 && p.terms.paymentId in run[8].payments
    ensures
      var m := run[8].payments[p.terms.paymentId].money;
      && m.amountReceived == Some(p.terms.amount) && !m.overpaymentFlag
      && m.excessAmount == Some(over.capture.amount - p.terms.amount)
  {
    var id, first, second := p.terms.paymentId, Judged(over, p, None), Judged(exactly, p, None);
    run, actions := Opening(cfg, p, over, None);
    FirstClaim(cfg, p, first, now);
    run, actions := Claimed(cfg, run, actions, 0, id, now);
    var orphaned := OwnedBy(first, p).(canonical := false);
    run, actions := Orphaning(cfg, run, actions, p.terms.chain, forkPoint);
    assert run[5].events == [orphaned];
    SecondRow(orphaned, exactly);
    run, actions := Received(cfg, run, actions, p, exactly, None);
    assert run[7].events == [orphaned, second];
    SecondTotal(orphaned, second, p);
    Relinked(cfg, run[7], p, first, orphaned, second, now);
    run, actions := Claimed(cfg, run, actions, 1, id, now);
  }

  lemma Relinked(cfg: Config, db: Database, p: Payment, first: Event, orphaned: Event, second: Event, now: int)
    requires IsNew(p) && now <= p.terms.expiresAt && cfg.overpaymentAllow && second.canonical && second.owner.None?
    requires orphaned == OwnedBy(first, p).(canonical := false)
    requires first.capture.eventId != second.capture.eventId && Effective(second) == p.terms.amount < Effective(first)
    requires db.payments == map[p.terms.paymentId := MatchedPayment(p, first, Effective(first))]
    requires db.events == [orphaned, second]
    ensures
      var outcome := ApplyClaim(cfg, db, second, p.terms.paymentId, now);
      && outcome.Committed? && p.terms.paymentId in outcome.db.payments
      && var m := outcome.db.payments[p.terms.paymentId].money;
         && m.amountReceived == Some(p.terms.amount) && !m.overpaymentFlag
         && m.excessAmount == Some(Effective(first) - p.terms.amount)
  {
    SecondTotal(orphaned, second, p);
    assert Claimable(db.events, second.capture.eventId, p.terms.paymentId);
  }

  // ----- a recomputation above what was received -----

  lemma TwoPartials(cfg: Config, p: Payment, first: Event, received: Option<nat>, second: Event, more: Option<nat>,
      now: int) returns (run: seq<Database>, actions: seq<Action>)
    requires IsNew(p) && IsDeposit(first, p) && IsDeposit(second, p) && now <= p.terms.expiresAt
    requires first.capture.eventId != second.capture.eventId
    requires Effective(Judged(first, p, received)) + Effective(Judged(second, p, more)) < p.terms.amount
    ensures IsRun(cfg, run, actions)
    ensures actions == [Create(p)] + Taking(first, p, received, 0) + [Claim(3, 0, p.terms.paymentId, now)]
                       + Taking(second, p, more, 1) + [Claim(6, 1, p.terms.paymentId, now)]
    ensures run[7].events == [OwnedBy(Judged(first, p, received), p), OwnedBy(Judged(second, p, more), p)]
    ensures
      var a, b := Effective(Judged(first, p, received)), Effective(Judged(second, p, more));
      run[7].payments == map[p.terms.paymentId := PartialPayment(PartialPayment(p, a), a + b)]
  {
    var id, one, two := p.terms.paymentId, Judged(first, p, received), Judged(second, p, more);
    run, actions := Opening(cfg, p, first, received);
    FirstClaim(cfg, p, one, now);
    run, actions := Claimed(cfg, run, actions, 0, id, now);
    SecondRow(OwnedBy(one, p), second);
    run, actions := Received(cfg, run, actions, p, second, more);
    assert run[6].events == [OwnedBy(one, p), two];
    PartialAgain(cfg, run[6], p, one, two, now);
    run, actions := Claimed(cfg, run, actions, 1, id, now);
  }

  /**
   One transfer, captured in two blocks under two log indexes with neither row flagged, is
   claimed twice: the payment stores double what was sent.
   */
  lemma TwoCapturesCountTwice(cfg: Config, p: Payment, captured: Event, again: Event, now: int)
    returns (run: seq<Database>, actions: seq<Action>)
    requires IsNew(p) && IsDeposit(captured, p) && IsDeposit(again, p) && now <= p.terms.expiresAt
    requires captured.capture.transactionHash == again.capture.transactionHash
    requires captured.capture.eventId != again.capture.eventId
    requires captured.capture.amount == again.capture.amount && 2 * captured.capture.amount < p.terms.amount
    ensures IsRun(cfg, run, actions) && |actions| == 7 && p.terms.paymentId in run[7].payments
    ensures run[7].payments[p.terms.paymentId].money.partialAmountReceived == Some(2 * captured.capture.amount)
  {
    run, actions := TwoPartials(cfg, p, captured, None, again, None, now);
  }

  /** The second of two partial deposits is orphaned. */
  lemma OneOrphaned(cfg: Config, p: Payment, kept: Event, received: Option<nat>, lost: Event, forkPoint: nat, now: int)
    returns (run: seq<Database>, actions: seq<Action>)
    requires IsNew(p) && IsDeposit(kept, p) && IsDeposit(lost, p) && now <= p.terms.expiresAt
    requires kept.capture.eventId != lost.capture.eventId
    requires kept.capture.blockNumber <= forkPoint < lost.capture.blockNumber
    requires Effective(Judged(kept, p, received)) + lost.capture.amount < p.terms.amount
    ensures IsRun(cfg, run, actions) && |actions| == 8 && actions[7] == OrphanEvents(p.terms.chain, forkPoint)
    ensures
      var id, worth := p.terms.paymentId, Effective(Judged(kept, p, received));
      && run[8].payments == map[id := PartialPayment(PartialPayment(p, worth), worth + lost.capture.amount)]
      && |run[8].events| == 2 && OrphanOf(run[8].events[1], id)
      && Total(CanonicalClaims, id, run[8].events) == worth
      && Total(CanonicalRaw, id, run[8].events) == kept.capture.amount
  {
    var id, first, second := p.terms.paymentId, Judged(kept, p, received), Judged(lost, p, None);
    run, actions := TwoPartials(cfg, p, kept, received, lost, None, now);
    run, actions := Orphaning(cfg, run, actions, p.terms.chain, forkPoint);
    var gone := OwnedBy(second, p).(canonical := false);
    assert run[8].events == [OwnedBy(first, p), gone];
    TotalOfTwo(CanonicalClaims, id, OwnedBy(first, p), gone);
    TotalOfTwo(CanonicalRaw, id, OwnedBy(first, p), gone);
  }

  /**
   Two partial deposits, the first received below its logged amount; a reorg orphans the
   second and the recomputation stores the logged amount of the first.
   */
  lemma RecomputeOvercounts(cfg: Config, p: Payment, kept: Event, received: nat, lost: Event, forkPoint: nat, now: int)
    returns (run: seq<Database>, actions: seq<Action>)
    requires IsNew(p) && IsDeposit(kept, p) && IsDeposit(lost, p) && now <= p.terms.expiresAt
    requires kept.capture.eventId != lost.capture.eventId
    requires kept.capture.blockNumber <= forkPoint < lost.capture.blockNumber
    requires received < kept.capture.amount && received + lost.capture.amount < p.terms.amount
    ensures IsRun(cfg, run, actions) && |actions| == 9 && p.terms.paymentId in run[9].payments
    ensures run[9].payments[p.terms.paymentId].status.Pending?
    ensures run[9].payments[p.terms.paymentId].money.partialAmountReceived == Some(kept.capture.amount)
    ensures Total(CanonicalClaims, p.terms.paymentId, run[9].events) == received
  {
    var recompute := Recompute(8, 8, p.terms.paymentId);
    run, actions := OneOrphaned(cfg, p, kept, Some(received), lost, forkPoint, now);
    ExtendRun(cfg, run, actions, recompute);
    run, actions := run + [Apply(cfg, run, recompute)], actions + [recompute];
  }

  /**
   As above, but a block decision comes between the resolver's reads and its write: the total
   stays at what both deposits were worth.
   */
  lemma RecomputeMisses(cfg: Config, p: Payment, kept: Event, lost: Event, forkPoint: nat, now: int)
    returns (run: seq<Database>, actions: seq<Action>)
    requires IsNew(p) && IsDeposit(kept, p) && IsDeposit(lost, p) && now <= p.terms.expiresAt
    requires kept.capture.eventId != lost.capture.eventId
    requires kept.capture.blockNumber <= forkPoint < lost.capture.blockNumber
    requires kept.capture.amount + lost.capture.amount < p.terms.amount
    ensures IsRun(cfg, run, actions) && |actions| == 10 && p.terms.paymentId in run[10].payments
    ensures
      var id := p.terms.paymentId;
      && actions[7..] == [OrphanEvents(p.terms.chain, forkPoint), Screen(8, id, Blocked), Recompute(8, 8, id)]
      && run[10].payments[id].status.Pending?
      && run[10].payments[id].money.partialAmountReceived == Some(kept.capture.amount + lost.capture.amount)
      && Total(CanonicalClaims, id, run[10].events) == kept.capture.amount
  {
    var recompute := Recompute(8, 8, p.terms.paymentId);
    run, actions := OneOrphaned(cfg, p, kept, None, lost, forkPoint, now);
    run, actions := Blocking(cfg, run, actions, p.terms.paymentId);
    ExtendRun(cfg, run, actions, recompute);
    run, actions := run + [Apply(cfg, run, recompute)], actions + [recompute];
  }

  lemma PartialAgain(cfg: Config, db: Database, p: Payment, first: Event, second: Event, now: int)
    requires IsNew(p) && now <= p.terms.expiresAt && second.canonical && second.owner.None? && first.canonical
    requires first.capture.eventId != second.capture.eventId && Effective(first) + Effective(second) < p.terms.amount
    requires db.payments == map[p.terms.paymentId := PartialPayment(p, Effective(first))]
    requires db.events == [OwnedBy(first, p), second]
    ensures
      var outcome := ApplyClaim(cfg, db, second, p.terms.paymentId, now);
      && outcome.Committed? && outcome.db.events == [OwnedBy(first, p), OwnedBy(second, p)]
      && outcome.db.payments == map[p.terms.paymentId :=
           PartialPayment(PartialPayment(p, Effective(first)), Effective(first) + Effective(second))]
  {
    SecondTotal(OwnedBy(first, p), second, p);
    assert Claimable(db.events, second.capture.eventId, p.terms.paymentId);
  }
}
