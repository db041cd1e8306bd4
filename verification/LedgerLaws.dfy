/**
 What each transaction of a run does, told by the rows before and after it: when a claim is
 taken and what it leaves, when a payment expires, fails, enters or deepens confirmation, and
 what a notification says.
 */
module LedgerLaws {
  import opened Common
  import opened StateMachine
  import opened Ledger
  import opened Commits
  import opened LedgerRuns
  import opened LedgerInvariants
  import opened LedgerSteps
  import opened LedgerTheorems
  import opened LedgerReorgs
  import Outbox

  // ----- claims -----

  /** An event of this id is on record and canonical. */
  predicate StandsCanonical(events: seq<Event>, eventId: string) {
    exists i :: 0 <= i < |events| && events[i].capture.eventId == eventId && events[i].canonical
  }

  /** The payment's canonical claims with this event among them, counted once even if a reorg got it. */
  function Worth(events: seq<Event>, id: string, row: Event): nat {
    Total(CanonicalClaims, id, events) + if row.owner == Some(id) && row.canonical then 0 else Effective(row)
  }

  /** The payment is open, the event free or its own, and its worth admissible. */
  predicate Takes(cfg: Config, events: seq<Event>, p: Payment, row: Event, now: int) {
    var worth := Worth(events, p.terms.paymentId, row);
    && (if p.status.Pending? then now <= p.terms.expiresAt
        else !IsTerminal(p.status) && worth >= p.terms.amount)
    && (row.owner.None? || row.owner == Some(p.terms.paymentId))
    && (worth > p.terms.amount ==> cfg.overpaymentAllow)
  }

  /**
   A pending payment of less worth accumulates; from its price on it has received it, and is
   matched if it was pending.
   */
  predicate Credited(p: Payment, q: Payment, worth: nat) {
    var m, price := q.money, p.terms.amount;
    && m.partialAmountReceived == Some(worth)
    && (worth < price ==> m == p.money.(partialAmountReceived := Some(worth), underpaymentFlag := true))
    && (worth >= price ==>
          && m.amountReceived == Some(worth) && (m.overpaymentFlag <==> worth > price)
          && m.excessAmount == (if worth > price then Some(worth - price) else p.money.excessAmount)
          && (m.underpaymentFlag <==> !p.status.Pending? && p.money.underpaymentFlag))
    && q.status == (if p.status.Pending? && worth >= price then Matched else p.status)
  }

  /** Nothing but status, link, confirmations and money moved, and the version by one. */
  predicate KeepsRest(p: Payment, q: Payment) {
    && q.terms == p.terms && q.version == p.version + 1
    && q.screeningStatus == p.screeningStatus && q.automationHold == p.automationHold
  }

  /** The link after a taken claim: the event where there was none, or its row is gone or orphaned; else as it was. */
  predicate Linked(events: seq<Event>, p: Payment, q: Payment, e: Capture, worth: nat) {
    if worth < p.terms.amount then q.matched == p.matched && q.confirmations == p.confirmations
    else if p.status.Pending? then
      q.matched == Some(MatchedEvent(e.eventId, e.transactionHash)) && q.confirmations == p.confirmations
    else if p.matched.Some? && !StandsCanonical(events, p.matched.value.eventId) then
      q.matched == Some(MatchedEvent(e.eventId, e.transactionHash)) && q.confirmations == 0
    else q.matched == p.matched && q.confirmations == p.confirmations
  }

  function ClaimRow(events: seq<Event>, p: Payment, q: Payment, eventId: string): AuditRow {
    AuditRow(p.terms.paymentId,
             if q.status.Pending? then PartialAccumulated
             else if p.status.Pending? then PaymentMatched
             else if p.matched.Some? && !StandsCanonical(events, p.matched.value.eventId) then ReplacementLinkedRow
             else ExcessLinkedRow,
             p.status, q.status, Some(eventId))
  }

  /** One transaction changed one payment's row and left one audit row. */
  ghost predicate Moves(db: Database, next: Database, id: string, row: AuditRow)
    requires id in db.payments
  {
    && id in next.payments && next.payments == db.payments[id := next.payments[id]]
    && next.audit == db.audit + [row] && next.annotations == db.annotations
  }

  ghost predicate Taken(db: Database, next: Database, id: string, k: nat)
    requires id in db.payments && k < |db.events|
  {
    var p, e, worth := db.payments[id], db.events[k], Worth(db.events, id, db.events[k]);
    && next.events == db.events[k := e.(owner := Some(id))]
    && id in next.payments
    && var q := next.payments[id];
       && Moves(db, next, id, ClaimRow(db.events, p, q, e.capture.eventId))
       && KeepsRest(p, q) && q.terminalAt == p.terminalAt
       && Credited(p, q, worth) && Linked(db.events, p, q, e.capture, worth)
  }

  predicate Overdue(p: Payment, now: int) {
    p.status.Pending? && now > p.terms.expiresAt
  }

  /** The payment expired with this total, and is otherwise as it was. */
  ghost predicate Expires(db: Database, next: Database, id: string, total: nat, now: int, eventId: Option<string>)
    requires id in db.payments
  {
    var p := db.payments[id];
    && next.events == db.events
    && Moves(db, next, id, AuditRow(id, PaymentExpiredRow, Pending, Expired, eventId))
    && var q := next.payments[id];
       && KeepsRest(p, q) && q.status.Expired? && q.terminalAt == Some(now)
       && q.matched == p.matched && q.confirmations == p.confirmations
       && q.money == p.money.(partialAmountReceived := Some(total), underpaymentFlag := 0 < total < p.terms.amount)
  }

  lemma WorthIsTotal(db: Database, event: Event, id: string)
    requires UniqueIds(db.events) && Claimable(db.events, event.capture.eventId, id)
    requires event.interpretation == Some(Accepted)
    requires EventEvolves(event, db.events[IndexOf(db.events, event.capture.eventId)])
    ensures
      TotalIncluding(WithOwner(db.events, event.capture.eventId, id), event, id) ==
      Worth(db.events, id, db.events[IndexOf(db.events, event.capture.eventId)])
  {
    var k := IndexOf(db.events, event.capture.eventId);
    ClaimTotals(db, event, id);
    TotalUpdate(CanonicalClaims, id, db.events, k, db.events[k].(owner := Some(id)));
  }

  /** A replacement is needed exactly if no canonical event of the matched id is on record. */
  lemma ReplacesIff(events: seq<Event>, p: Payment)
    requires UniqueIds(events) && p.matched.Some?
    ensures NeedsReplacement(events, p) <==> !StandsCanonical(events, p.matched.value.eventId)
  {
    var k := IndexOf(events, p.matched.value.eventId);
    if i :| 0 <= i < |events| && events[i].capture.eventId == p.matched.value.eventId && events[i].canonical {
      assert i == k;
    }
  }

  lemma OwnerKeepsCanonical(events: seq<Event>, k: nat, id: string, eventId: string)
    requires k < |events|
    ensures StandsCanonical(events[k := events[k].(owner := Some(id))], eventId) <==> StandsCanonical(events, eventId)
  {
    var after := events[k := events[k].(owner := Some(id))];
    assert forall i :: 0 <= i < |events| ==>
      after[i].capture == events[i].capture && after[i].canonical == events[i].canonical;
  }

  lemma PartialTaken(db: Database, k: nat, id: string, event: Event, next: Database)
    requires id in db.payments && db.payments[id].terms.paymentId == id && db.payments[id].status.Pending?
    requires k < |db.events| && db.events[k].capture == event.capture
    requires Worth(db.events, id, db.events[k]) < db.payments[id].terms.amount
    requires next == db.(
      events := db.events[k := db.events[k].(owner := Some(id))],
      payments := db.payments[id := PartialPayment(db.payments[id], Worth(db.events, id, db.events[k]))],
      audit := db.audit + [AuditRow(id, PartialAccumulated, Pending, Pending, Some(event.capture.eventId))])
    ensures Taken(db, next, id, k)
  {
  }

  lemma MatchTaken(cfg: Config, db: Database, k: nat, id: string, event: Event)
    requires id in db.payments && db.payments[id].terms.paymentId == id && db.payments[id].status.Pending?
    requires k < |db.events| && db.events[k].capture == event.capture
    requires Worth(db.events, id, db.events[k]) >= db.payments[id].terms.amount
    ensures
      var events := db.events[k := db.events[k].(owner := Some(id))];
      var outcome := MatchInClaim(cfg, db, events, event, db.payments[id], Worth(db.events, id, db.events[k]));
      outcome.Committed? && Taken(db, outcome.db, id, k)
  {
  }

  lemma LinkTaken(db: Database, k: nat, id: string, event: Event)
    requires id in db.payments && db.payments[id].terms.paymentId == id && !db.payments[id].status.Pending?
    requires k < |db.events| && db.events[k].capture == event.capture && UniqueIds(db.events)
    requires Worth(db.events, id, db.events[k]) >= db.payments[id].terms.amount
    ensures
      var events := db.events[k := db.events[k].(owner := Some(id))];
      var outcome := LinkInClaim(db, events, event, db.payments[id], Worth(db.events, id, db.events[k]));
      outcome.Committed? && Taken(db, outcome.db, id, k)
  {
    var p := db.payments[id];
    var events := db.events[k := db.events[k].(owner := Some(id))];
    if p.matched.Some? {
      ReplacesIff(events, p);
      OwnerKeepsCanonical(db.events, k, id, p.matched.value.eventId);
    }
  }

  /** What the claim reports and asks to have annotated, in every case. */
  predicate Reported(cfg: Config, events: seq<Event>, p: Payment, e: Event, now: int, outcome: ClaimOutcome) {
    var id, eventId, price, worth := p.terms.paymentId, e.capture.eventId, p.terms.amount,
        Worth(events, p.terms.paymentId, e);
    var late, excess := {OnEvent(eventId, Late)}, if worth > price then {OnPayment(id, Excess)} else {};
    if IsTerminal(p.status) then
      outcome.Committed? && outcome.action == LateArrivalAnnotated && outcome.followUps == late
    else if Overdue(p, now) then
      && outcome.Committed? && outcome.action == LateArrivalAnnotated
      && outcome.followUps ==
           late + (if 0 < Total(CanonicalClaims, id, events) < price then {OnPayment(id, Partial)} else {})
    else if e.owner.Some? && e.owner != Some(id) then
      outcome.Committed? && outcome.action == Skipped && outcome.followUps == {}
    else if worth < price then
      if p.status.Pending? then outcome.Committed? && outcome.action == ClaimedPartial && outcome.followUps == {}
      else outcome == Aborted(PaymentChangedConcurrently)
    else if worth > price && !cfg.overpaymentAllow then outcome == Aborted(ToleranceExceeded)
    else if p.status.Pending? then
      outcome.Committed? && outcome.action == ClaimedMatched && outcome.followUps == excess
    else if p.matched.Some? && !StandsCanonical(events, p.matched.value.eventId) then
      outcome.Committed? && outcome.action == ReplacementLinked && outcome.followUps == {}
    else outcome.Committed? && outcome.action == ExcessLinked && outcome.followUps == excess
  }

  lemma ClosedReports(cfg: Config, db: Database, event: Event, k: nat, id: string, now: int)
    requires Inv(cfg, db) && id in db.payments && k < |db.events| && EventEvolves(event, db.events[k])
    requires IsTerminal(db.payments[id].status) || Overdue(db.payments[id], now)
    ensures Reported(cfg, db.events, db.payments[id], db.events[k], now, ApplyClaim(cfg, db, event, id, now))
  {
    KeyedById(cfg, db, id);
  }

  /** An open payment's claim, by the worth it comes to. */
  lemma OpenClaim(cfg: Config, db: Database, event: Event, k: nat, id: string, now: int)
    requires Inv(cfg, db) && id in db.payments && k < |db.events|
    requires event.interpretation == Some(Accepted) && EventEvolves(event, db.events[k])
    requires !IsTerminal(db.payments[id].status) && !Overdue(db.payments[id], now)
    requires db.events[k].owner.None? || db.events[k].owner == Some(id)
    ensures
      var p, worth := db.payments[id], Worth(db.events, id, db.events[k]);
      var events := db.events[k := db.events[k].(owner := Some(id))];
      ApplyClaim(cfg, db, event, id, now) ==
        if worth < p.terms.amount then
          if !p.status.Pending? then Aborted(PaymentChangedConcurrently)
          else Committed(
            db.(events := events, payments := db.payments[id := PartialPayment(p, worth)],
                audit := db.audit + [AuditRow(id, PartialAccumulated, Pending, Pending, Some(event.capture.eventId))]),
            ClaimedPartial, {})
        else if !cfg.overpaymentAllow && worth > p.terms.amount then Aborted(ToleranceExceeded)
        else if p.status.Pending? then MatchInClaim(cfg, db, events, event, p, worth)
        else LinkInClaim(db, events, event, p, worth)
  {
    KeyedById(cfg, db, id);
    assert k == IndexOf(db.events, event.capture.eventId);
    WorthIsTotal(db, event, id);
  }

  lemma ForeignClaim(cfg: Config, db: Database, event: Event, k: nat, id: string, now: int)
    requires Inv(cfg, db) && id in db.payments && k < |db.events| && EventEvolves(event, db.events[k])
    requires !IsTerminal(db.payments[id].status) && !Overdue(db.payments[id], now)
    requires db.events[k].owner.Some? && db.events[k].owner != Some(id)
    ensures ApplyClaim(cfg, db, event, id, now) == Committed(db, Skipped, {})
  {
    assert k == IndexOf(db.events, event.capture.eventId);
  }

  lemma PendingReports(cfg: Config, db: Database, event: Event, k: nat, id: string, now: int)
    requires Inv(cfg, db) && id in db.payments && k < |db.events|
    requires event.interpretation == Some(Accepted) && EventEvolves(event, db.events[k])
    requires db.payments[id].status.Pending? && !Overdue(db.payments[id], now)
    requires db.events[k].owner.None? || db.events[k].owner == Some(id)
    ensures Reported(cfg, db.events, db.payments[id], db.events[k], now, ApplyClaim(cfg, db, event, id, now))
  {
    KeyedById(cfg, db, id);
    OpenClaim(cfg, db, event, k, id, now);
  }

  lemma OpenReports(cfg: Config, db: Database, event: Event, k: nat, id: string, now: int)
    requires Inv(cfg, db) && id in db.payments && k < |db.events|
    requires event.interpretation == Some(Accepted) && EventEvolves(event, db.events[k])
    requires !IsTerminal(db.payments[id].status) && !Overdue(db.payments[id], now)
    requires db.events[k].owner.None? || db.events[k].owner == Some(id)
    ensures Reported(cfg, db.events, db.payments[id], db.events[k], now, ApplyClaim(cfg, db, event, id, now))
  {
    var p := db.payments[id];
    if p.status.Pending? {
      PendingReports(cfg, db, event, k, id, now);
      return;
    }
    KeyedById(cfg, db, id);
    OpenClaim(cfg, db, event, k, id, now);
    if p.matched.Some? {
      ReplacesIff(db.events[k := db.events[k].(owner := Some(id))], p);
      OwnerKeepsCanonical(db.events, k, id, p.matched.value.eventId);
    }
  }

  lemma OpenCommit(cfg: Config, db: Database, event: Event, k: nat, id: string, now: int)
    requires Inv(cfg, db) && id in db.payments && k < |db.events|
    requires event.interpretation == Some(Accepted) && EventEvolves(event, db.events[k])
    requires !IsTerminal(db.payments[id].status) && !Overdue(db.payments[id], now)
    requires db.events[k].owner.None? || db.events[k].owner == Some(id)
    ensures
      var outcome := ApplyClaim(cfg, db, event, id, now);
      if Takes(cfg, db.events, db.payments[id], db.events[k], now) then
        outcome.Committed? && Taken(db, outcome.db, id, k)
      else outcome.Aborted?
  {
    var p, worth := db.payments[id], Worth(db.events, id, db.events[k]);
    KeyedById(cfg, db, id);
    OpenClaim(cfg, db, event, k, id, now);
    if worth < p.terms.amount {
      if p.status.Pending? {
        PartialTaken(db, k, id, event, ApplyClaim(cfg, db, event, id, now).db);
      }
    } else if p.status.Pending? {
      MatchTaken(cfg, db, k, id, event);
    } else {
      LinkTaken(db, k, id, event);
    }
  }

  lemma ClaimCommit(cfg: Config, db: Database, event: Event, k: nat, id: string, now: int)
    requires Inv(cfg, db) && id in db.payments && k < |db.events|
    requires event.interpretation == Some(Accepted) && EventEvolves(event, db.events[k])
    ensures
      var p, outcome := db.payments[id], ApplyClaim(cfg, db, event, id, now);
      if Overdue(p, now) then
        outcome.Committed?
        && Expires(db, outcome.db, id, Total(CanonicalClaims, id, db.events), now, Some(event.capture.eventId))
      else if Takes(cfg, db.events, p, db.events[k], now) then outcome.Committed? && Taken(db, outcome.db, id, k)
      else outcome.Committed? ==> outcome.db == db
  {
    var p := db.payments[id];
    KeyedById(cfg, db, id);
    if Overdue(p, now) {
      LateDepositExpires(cfg, db, event, id, now);
    } else if !IsTerminal(p.status) {
      if db.events[k].owner.Some? && db.events[k].owner != Some(id) {
        ForeignClaim(cfg, db, event, k, id, now);
      } else {
        OpenCommit(cfg, db, event, k, id, now);
      }
    }
  }

  lemma ClaimReports(cfg: Config, db: Database, event: Event, k: nat, id: string, now: int)
    requires Inv(cfg, db) && id in db.payments && k < |db.events|
    requires event.interpretation == Some(Accepted) && EventEvolves(event, db.events[k])
    ensures Reported(cfg, db.events, db.payments[id], db.events[k], now, ApplyClaim(cfg, db, event, id, now))
  {
    if IsTerminal(db.payments[id].status) || Overdue(db.payments[id], now) {
      ClosedReports(cfg, db, event, k, id, now);
    } else if db.events[k].owner.Some? && db.events[k].owner != Some(id) {
      KeyedById(cfg, db, id);
      ForeignClaim(cfg, db, event, k, id, now);
    } else {
      OpenReports(cfg, db, event, k, id, now);
    }
  }

  /**
   In every run a claim changes the ledger exactly if it finds the payment overdue, which
   expires it, or takes its event.
   */
  lemma ClaimStep(cfg: Config, run: seq<Database>, actions: seq<Action>, n: nat)
    requires IsRun(cfg, run, actions) && n < |actions| && actions[n].Claim?
    ensures
      var a, id, db, next := actions[n], actions[n].paymentId, run[n], run[n + 1];
      && a.readAt <= n && a.row < |run[a.readAt].events| && a.row < |db.events| && id in db.payments
      && var e := db.events[a.row];
         if Overdue(db.payments[id], a.now) then
           Expires(db, next, id, Total(CanonicalClaims, id, db.events), a.now, Some(e.capture.eventId))
         else if Takes(cfg, db.events, db.payments[id], e, a.now) then Taken(db, next, id, a.row)
         else next == db
  {
    var a := actions[n];
    StepAt(cfg, run, actions, n);
    assert run[..n + 1][a.readAt] == run[a.readAt];
    RunInvariant(cfg, run, actions, a.readAt, n);
    assert EventEvolves(run[a.readAt].events[a.row], run[n].events[a.row]);
    ClaimCommit(cfg, run[n], run[a.readAt].events[a.row], a.row, a.paymentId, a.now);
  }

  /**
   A committed claim on a payment that already matched moves its link to the new event, and
   its confirmations back to none, exactly if the event it was matched on is gone or orphaned.
   */
  lemma ClaimRelinksIff(cfg: Config, run: seq<Database>, actions: seq<Action>, n: nat)
    requires IsRun(cfg, run, actions) && n < |actions| && actions[n].Claim? && run[n + 1] != run[n]
    requires
      var id := actions[n].paymentId;
      id in run[n].payments && (run[n].payments[id].status.Matched? || run[n].payments[id].status.Confirming?)
    ensures
      var a, id := actions[n], actions[n].paymentId;
      && a.row < |run[n].events| && id in run[n + 1].payments && run[n].payments[id].matched.Some?
      && var p, q, e := run[n].payments[id], run[n + 1].payments[id], run[n].events[a.row].capture;
         if StandsCanonical(run[n].events, p.matched.value.eventId) then
           q.matched == p.matched && q.confirmations == p.confirmations
         else q.matched == Some(MatchedEvent(e.eventId, e.transactionHash)) && q.confirmations == 0
  {
    ClaimStep(cfg, run, actions, n);
    RunInvariant(cfg, run, actions, n, n);
    assert PaymentOk(cfg, run[n], actions[n].paymentId);
  }

  // ----- the sweep -----

  lemma SweepCommit(cfg: Config, db: Database, read: Payment, total: nat, now: int)
    requires Genuine(db, read)
    ensures
      var id, next := read.terms.paymentId, SweepExpiry(cfg, db, read, total, now);
      if db.payments[id] == read && Overdue(read, now) && total < read.terms.amount then
        Expires(db, next, id, total, now, None)
      else next == db
  {
  }

  /** A sweep expires the payment exactly if it still is as read, overdue and below its price by the total read. */
  lemma SweepStep(cfg: Config, run: seq<Database>, actions: seq<Action>, n: nat)
    requires IsRun(cfg, run, actions) && n < |actions| && actions[n].Sweep?
    ensures
      var a, id := actions[n], actions[n].paymentId;
      && a.paymentAt <= a.totalAt <= n && id in run[a.paymentAt].payments && id in run[n].payments
      && var p, total := run[n].payments[id], Total(CanonicalClaims, id, run[a.totalAt].events);
         if p == run[a.paymentAt].payments[id] && Overdue(p, a.now) && total < p.terms.amount then
           Expires(run[n], run[n + 1], id, total, a.now, None)
         else run[n + 1] == run[n]
  {
    var a := actions[n];
    StepAt(cfg, run, actions, n);
    assert run[..n + 1][a.paymentAt] == run[a.paymentAt] && run[..n + 1][a.totalAt] == run[a.totalAt];
    RunInvariant(cfg, run, actions, a.paymentAt, n);
    ReadStillCurrent(cfg, run[a.paymentAt], run[n], a.paymentId);
    SweepCommit(cfg, run[n], run[a.paymentAt].payments[a.paymentId],
                Total(CanonicalClaims, a.paymentId, run[a.totalAt].events), a.now);
  }

  // ----- confirmation calls -----

  /** What one call had before it when it decided. */
  datatype View = View(event: Event, confirmations: nat, canonical: bool, now: int, now2: int,
    review: Option<ReviewDecision>, verdict: Verdict)

  predicate OnChain(v: View) {
    v.canonical && v.event.canonical
  }

  predicate GraceOver(cfg: Config, p: Payment, now: int) {
    now > p.terms.expiresAt + cfg.latePaymentGrace
  }

  /** The transitions a call may make of a payment, each with what it must have seen for it. */
  predicate Warranted(cfg: Config, p: Payment, v: View, w: Write)
    requires w.Transition?
  {
    && !p.automationHold && p.matched.Some?
    && match w.to
       case Failed =>
         !OnChain(v) && GraceOver(cfg, p, v.now)
         && w.terminalAt == Some(v.now) && w.confirmations.None? && w.screening.None? && w.action == MovedTo(Failed)
       case Confirming =>
         OnChain(v) && w.terminalAt.None?
         && (if p.status.Matched? then w.confirmations == Some(0) && w.screening.None?
             else if v.confirmations < p.terms.requiredConfirmations then
               w.confirmations == Some(v.confirmations) && v.confirmations > p.confirmations && w.screening.None?
             else
               && w.confirmations.None? && w.screening.Some? && Screened(v, w.screening.value)
               && (v.review == Some(Release) || w.screening.value != p.screeningStatus))
         && w.action == (if w.confirmations.Some? then MovedTo(Confirming)
                         else if v.review == Some(Release) then OverrideReleased else ComplianceHoldRow)
       case Confirmed =>
         && OnChain(v) && p.status.Confirming? && v.confirmations >= p.terms.requiredConfirmations
         && v.review != Some(Block) && (v.verdict.VerdictClear? || v.review == Some(Release))
         && w.confirmations == Some(p.terms.requiredConfirmations) && w.screening == Some(Clear)
         && w.terminalAt == Some(v.now2) && w.action == MovedTo(Confirmed)
       case _ => false
  }

  /** The screening a hold records is the verdict's own; only a release records a clear one over another verdict. */
  predicate Screened(v: View, s: Screening) {
    match v.verdict
    case VerdictClear => false
    case VerdictFlagged => s == if v.review == Some(Release) then Clear else Flagged
    case VerdictBlocked => s == if v.review == Some(Release) then Clear else Blocked
    case _ => s == if v.review == Some(Release) then Clear else Unscreened
  }

  function Writes(cfg: Config, p: Payment, v: View): seq<Write> {
    Decide(cfg, p, Some(v.event), Observed(v.confirmations, v.canonical), v.now, v.now2, v.review, v.verdict).writes
  }

  lemma WritesWarranted(cfg: Config, p: Payment, v: View, k: nat)
    requires k < |Writes(cfg, p, v)| && Writes(cfg, p, v)[k].Transition?
    ensures p.status.Matched? || p.status.Confirming?
    ensures Warranted(cfg, p, v, Writes(cfg, p, v)[k])
  {
  }

  /** A call that saw no event, or no observation, writes nothing. */
  lemma NothingUnseen(cfg: Config, p: Payment, event: Option<Event>, seen: Observation, now: int, now2: int,
      review: Option<ReviewDecision>, verdict: Verdict)
    requires event.None? || seen.Unavailable?
    ensures Decide(cfg, p, event, seen, now, now2, review, verdict).writes == []
  {
  }

  /** What the call of step `n` had before it. */
  function ViewAt(run: seq<Database>, a: Action, row: nat): View
    requires a.Confirm? && a.seen.Observed? && a.eventAt < |run| && row < |run[a.eventAt].events|
  {
    View(run[a.eventAt].events[row], a.seen.confirmations, a.seen.canonical, a.now, a.now2, a.review, a.verdict)
  }

  /** A write that moved the payment's status met the row it had read. */
  lemma WriteMoved(cfg: Config, db: Database, read: Payment, w: Write)
    requires Genuine(db, read)
    requires
      var id, next := read.terms.paymentId, ApplyWrite(cfg, db, read, w);
      id in next.payments && next.payments[id].status != db.payments[id].status
    ensures w.Transition? && db.payments[read.terms.paymentId] == read
    ensures ApplyWrite(cfg, db, read, w).payments[read.terms.paymentId] ==
      read.(status := w.to, confirmations := w.confirmations.GetOr(read.confirmations),
            screeningStatus := w.screening.GetOr(read.screeningStatus),
            terminalAt := if w.terminalAt.Some? then w.terminalAt else read.terminalAt, version := read.version + 1)
  {
  }

  lemma CallWrote(cfg: Config, run: seq<Database>, actions: seq<Action>, n: nat) returns (w: Write)
    requires IsRun(cfg, run, actions) && n < |actions| && actions[n].Confirm?
    ensures
      var a := actions[n];
      && a.paymentAt <= a.eventAt <= n && a.paymentId in run[a.paymentAt].payments
      && var read := run[a.paymentAt].payments[a.paymentId];
         var writes := Decide(cfg, read, EventById(run[a.eventAt].events, MatchedId(read)), a.seen, a.now, a.now2,
                              a.review, a.verdict).writes;
         && a.k < |writes| && w == writes[a.k] && run[n + 1] == ApplyWrite(cfg, run[n], read, w)
         && read.terms.paymentId == a.paymentId && Genuine(run[n], read)
  {
    var a := actions[n];
    StepAt(cfg, run, actions, n);
    assert run[..n + 1][a.paymentAt] == run[a.paymentAt] && run[..n + 1][a.eventAt] == run[a.eventAt];
    RunInvariant(cfg, run, actions, a.paymentAt, n);
    ReadStillCurrent(cfg, run[a.paymentAt], run[n], a.paymentId);
    w := WritesOf(cfg, run[..n + 1], a)[a.k];
  }

  /**
   A step that takes a payment to confirming, confirmed or failed is a confirmation call that
   read the payment as it still is and its matched event, and saw what that move demands.
   */
  lemma AdvanceIsWarranted(cfg: Config, run: seq<Database>, actions: seq<Action>, n: nat, id: string)
    returns (row: nat, w: Write)
    requires IsRun(cfg, run, actions) && n < |actions| && id in run[n].payments && id in run[n + 1].payments
    requires !NotAdvanced(run[n].payments[id], run[n + 1].payments[id])
    ensures actions[n].Confirm? && actions[n].paymentId == id && actions[n].seen.Observed? && actions[n].eventAt <= n
    ensures row < |run[actions[n].eventAt].events| && w.Transition?
    ensures
      var p, q, e := run[n].payments[id], run[n + 1].payments[id], run[actions[n].eventAt].events[row].capture;
      && actions[n].paymentAt <= n && id in run[actions[n].paymentAt].payments
      && p == run[actions[n].paymentAt].payments[id]
      && p.matched.Some? && e.eventId == p.matched.value.eventId
      && (p.status.Matched? || p.status.Confirming?)
      && w.to == q.status && Warranted(cfg, p, ViewAt(run, actions[n], row), w)
      && q == p.(status := w.to, confirmations := w.confirmations.GetOr(p.confirmations),
                 screeningStatus := w.screening.GetOr(p.screeningStatus),
                 terminalAt := if w.terminalAt.Some? then w.terminalAt else p.terminalAt, version := p.version + 1)
  {
    OnlyCallsAdvance(cfg, run, actions, n, id);
    var a := actions[n];
    w := CallWrote(cfg, run, actions, n);
    var read := run[a.paymentAt].payments[id];
    WriteMoved(cfg, run[n], read, w);
    var event := EventById(run[a.eventAt].events, MatchedId(read));
    if event.None? || a.seen.Unavailable? {
      NothingUnseen(cfg, read, event, a.seen, a.now, a.now2, a.review, a.verdict);
    }
    row := IndexOf(run[a.eventAt].events, read.matched.value.eventId);
    WritesWarranted(cfg, read, ViewAt(run, a, row), a.k);
  }

  /**
   In every run a payment fails only by a call that saw its event or its transaction off the
   canonical chain, after the grace on its expiry had run out.
   */
  lemma FailsOnlyAfterGrace(cfg: Config, run: seq<Database>, actions: seq<Action>, n: nat, id: string)
    requires IsRun(cfg, run, actions) && n < |actions| && id in run[n].payments && id in run[n + 1].payments
    requires !run[n].payments[id].status.Failed? && run[n + 1].payments[id].status.Failed?
    ensures actions[n].Confirm? && actions[n].paymentId == id && actions[n].seen.Observed? && actions[n].eventAt <= n
    ensures actions[n].now > run[n].payments[id].terms.expiresAt + cfg.latePaymentGrace
    ensures run[n].payments[id].matched.Some? && run[n + 1].payments[id].terminalAt == Some(actions[n].now)
    ensures
      || !actions[n].seen.canonical
      || !StandsCanonical(run[actions[n].eventAt].events, run[n].payments[id].matched.value.eventId)
  {
    var row, w := AdvanceIsWarranted(cfg, run, actions, n, id);
    var at := actions[n].eventAt;
    RunInvariant(cfg, run, actions, at, at);
    if i :| 0 <= i < |run[at].events| && run[at].events[i].capture.eventId == run[n].payments[id].matched.value.eventId
            && run[at].events[i].canonical {
      assert i == row;
    }
  }

  /** An uninterrupted call, on a payment as it stands. */
  function AfterCall(cfg: Config, db: Database, p: Payment, v: View): Database {
    ApplyWrites(cfg, db, p, Writes(cfg, p, v))
  }

  predicate Callable(db: Database, p: Payment) {
    p.terms.paymentId in db.payments && db.payments[p.terms.paymentId] == p && !p.automationHold
    && (p.status.Matched? || p.status.Confirming?) && p.matched.Some?
  }

  /**
   An uninterrupted call fails the payment exactly off the canonical chain and after the
   grace; which is when the table's guard admits it.
   */
  lemma CallFailsIff(cfg: Config, db: Database, p: Payment, v: View)
    requires Callable(db, p)
    ensures p.terms.paymentId in AfterCall(cfg, db, p, v).payments
    ensures
      var fails := AfterCall(cfg, db, p, v).payments[p.terms.paymentId].status.Failed?;
      && (fails <==> !OnChain(v) && GraceOver(cfg, p, v.now))
      && (fails <==> Guard(GuardInput(p.status, Failed, v.now, p.terms.expiresAt, cfg.latePaymentGrace, v.confirmations,
                                      p.terms.requiredConfirmations, OnChain(v), false, true)))
  {
    CallLeaves(cfg, db, p, v);
  }

  /** A matched payment enters confirmation exactly if its event is on the canonical chain, and starts from none. */
  lemma CallEntersIff(cfg: Config, db: Database, p: Payment, v: View)
    requires Callable(db, p) && p.status.Matched?
    ensures p.terms.paymentId in AfterCall(cfg, db, p, v).payments
    ensures
      var q := AfterCall(cfg, db, p, v).payments[p.terms.paymentId];
      && (q.status.Confirming? <==> OnChain(v))
      && (q.status.Confirming? <==>
            Guard(GuardInput(Matched, Confirming, v.now, p.terms.expiresAt, cfg.latePaymentGrace, v.confirmations,
                             p.terms.requiredConfirmations, OnChain(v), true, true)))
      && (q.status.Confirming? ==> q.confirmations == 0)
  {
    CallLeaves(cfg, db, p, v);
  }

  /** A confirming payment deepens exactly to more confirmations than it has and fewer than it needs. */
  lemma CallDeepensIff(cfg: Config, db: Database, p: Payment, v: View)
    requires Callable(db, p) && p.status.Confirming?
    ensures p.terms.paymentId in AfterCall(cfg, db, p, v).payments
    ensures
      var q := AfterCall(cfg, db, p, v).payments[p.terms.paymentId];
      && (q.status.Confirming? && q.confirmations != p.confirmations <==>
            && OnChain(v) && v.confirmations > p.confirmations
            && Guard(GuardInput(Confirming, Confirming, v.now, p.terms.expiresAt, cfg.latePaymentGrace, v.confirmations,
                                p.terms.requiredConfirmations, OnChain(v), true, true)))
      && (q.status.Confirming? ==>
            q.confirmations == if OnChain(v) && p.confirmations < v.confirmations < p.terms.requiredConfirmations
                               then v.confirmations else p.confirmations)
  {
    CallLeaves(cfg, db, p, v);
  }

  /** The payment's row after an uninterrupted call, in every case. */
  predicate CallLeft(cfg: Config, p: Payment, v: View, q: Payment) {
    var next := p.(version := p.version + 1);
    if !OnChain(v) then
      if GraceOver(cfg, p, v.now) then q == next.(status := Failed, terminalAt := Some(v.now)) else q == p
    else if p.status.Matched? then q == next.(status := Confirming, confirmations := 0)
    else if v.confirmations < p.terms.requiredConfirmations then
      if v.confirmations > p.confirmations then q == next.(confirmations := v.confirmations) else q == p
    else if v.review == Some(Block) then q == p
    else if v.verdict.VerdictClear? then
      q == next.(status := Confirmed, confirmations := p.terms.requiredConfirmations, screeningStatus := Clear,
                 terminalAt := Some(v.now2))
    else if v.review != Some(Release) && Screened(v, p.screeningStatus) then q == p
    else q == next.(screeningStatus := q.screeningStatus) && Screened(v, q.screeningStatus)
  }

  /** Two writes at most, and only the first can meet the version both were decided on. */
  lemma CallWrites(cfg: Config, p: Payment, v: View)
    requires !p.automationHold && (p.status.Matched? || p.status.Confirming?) && p.matched.Some?
    ensures
      var writes := Writes(cfg, p, v);
      && |writes| <= 2 && (|writes| == 2 ==> writes[0].Transition?)
      && CallLeft(cfg, p, v, if writes != [] && writes[0].Transition? then Transitioned(p, writes[0]) else p)
  {
  }

  lemma CallLeaves(cfg: Config, db: Database, p: Payment, v: View)
    requires Callable(db, p)
    ensures p.terms.paymentId in AfterCall(cfg, db, p, v).payments
    ensures CallLeft(cfg, p, v, AfterCall(cfg, db, p, v).payments[p.terms.paymentId])
  {
    CallWrites(cfg, p, v);
    var writes := Writes(cfg, p, v);
    if |writes| == 1 {
      WriteOne(cfg, db, p, writes);
    } else if |writes| == 2 {
      WriteTwo(cfg, db, p, writes);
    }
  }

  /** What the call reports and annotates, in every case. */
  lemma CallReports(cfg: Config, p: Payment, v: View)
    requires !p.automationHold && (p.status.Matched? || p.status.Confirming?) && p.matched.Some?
    ensures
      var seen := Observed(v.confirmations, v.canonical);
      var d := Decide(cfg, p, Some(v.event), seen, v.now, v.now2, v.review, v.verdict);
      var below := p.status.Confirming? && v.confirmations < p.terms.requiredConfirmations;
      var held := v.review == Some(Block) || (!v.verdict.VerdictClear? && v.review != Some(Release));
      && (d.outcome == TerminalOutcome(Failed) <==> !OnChain(v) && GraceOver(cfg, p, v.now))
      && (d.outcome == Progressed(Confirming) <==>
            OnChain(v) && (p.status.Matched? || (below && v.confirmations > p.confirmations)))
      && (d.outcome == TerminalOutcome(Confirmed) <==> OnChain(v) && p.status.Confirming? && !below && !held)
      && (d.outcome == Held <==> OnChain(v) && p.status.Confirming? && !below && held)
      && (d.outcome.TerminalOutcome? || d.outcome.Progressed? || d.outcome == Held || d.outcome == Waiting)
      && d.annotations == (if d.outcome == TerminalOutcome(Failed) then {OnPayment(p.terms.paymentId, Reorg)}
                           else if d.outcome == Held then {OnPayment(p.terms.paymentId, Compliance)} else {})
  {
  }

  /** A call on any other payment, or one that saw no event or observation, does nothing and says why. */
  lemma CallDeclines(cfg: Config, p: Payment, event: Option<Event>, seen: Observation, now: int, now2: int,
      review: Option<ReviewDecision>, verdict: Verdict)
    requires
      || p.automationHold || p.status.Pending? || IsTerminal(p.status) || p.matched.None? || event.None?
      || seen.Unavailable?
    ensures
      var d := Decide(cfg, p, event, seen, now, now2, review, verdict);
      && d.writes == [] && d.annotations == {}
      && (p.automationHold ==> d.outcome.AutomationHold?)
      && (!p.automationHold && IsTerminal(p.status) ==> d.outcome == TerminalOutcome(p.status))
      && (!p.automationHold && !IsTerminal(p.status) ==> d.outcome == Waiting)
  {
  }

  lemma WriteOne(cfg: Config, db: Database, p: Payment, writes: seq<Write>)
    requires |writes| == 1 && p.terms.paymentId in db.payments && db.payments[p.terms.paymentId] == p
    ensures
      var after := ApplyWrites(cfg, db, p, writes).payments;
      p.terms.paymentId in after
      && after[p.terms.paymentId] == if writes[0].Transition? then Transitioned(p, writes[0]) else p
  {
    assert writes[..0] == [];
  }

  lemma WriteTwo(cfg: Config, db: Database, p: Payment, writes: seq<Write>)
    requires |writes| == 2 && p.terms.paymentId in db.payments && db.payments[p.terms.paymentId] == p
    requires writes[0].Transition?
    ensures
      var after := ApplyWrites(cfg, db, p, writes).payments;
      p.terms.paymentId in after && after[p.terms.paymentId] == Transitioned(p, writes[0])
  {
    WriteOne(cfg, db, p, writes[..1]);
    var mid := ApplyWrites(cfg, db, p, writes[..1]);
    assert !StillAt(mid, p);
  }

  // ----- notifications -----

  /** The notification of a payment's move says whose it is, what it moved to and what it then had received. */
  predicate Tells(payload: Outbox.Payload, p: Payment, q: Payment) {
    && payload.paymentId == q.terms.paymentId && payload.merchantId == q.terms.merchantId
    && payload.chain == q.terms.chain && payload.token == q.terms.token && payload.amount == q.terms.amount
    && payload.status == q.status && Outbox.StatusOf(payload.eventType) == q.status
    && payload.paymentVersion == p.version
    && payload.amountReceived == q.money.amountReceived && payload.excessAmount == q.money.excessAmount
    && payload.partialAmountReceived == q.money.partialAmountReceived
    && payload.transactionHash == if q.matched.Some? then Some(q.matched.value.transactionHash) else None
  }

  /** Every move but into confirmation is notified once, when there is a dispatcher. */
  ghost predicate Told(cfg: Config, db: Database, next: Database, id: string)
    requires id in db.payments && id in next.payments
  {
    var p, q := db.payments[id], next.payments[id];
    if cfg.dispatcher && q.status != p.status && !q.status.Confirming? then
      |next.outbox| == |db.outbox| + 1 && db.outbox <= next.outbox && Tells(next.outbox[|db.outbox|].payload, p, q)
    else next.outbox == db.outbox
  }

  lemma MatchTells(cfg: Config, db: Database, events: seq<Event>, event: Event, id: string, total: nat)
    requires Inv(cfg, db) && id in db.payments && db.payments[id].status.Pending?
    ensures
      var next := MatchInClaim(cfg, db, events, event, db.payments[id], total).db;
      id in next.payments && Told(cfg, db, next, id)
  {
    KeyedById(cfg, db, id);
    MatchEffect(cfg, db, events, event, id, total);
    NoticesAfterWrite(cfg, db, MatchPayload(db.payments[id], event, total), id, Outbox.PaymentMatched);
  }

  lemma ExpiryTells(cfg: Config, db: Database, id: string, total: nat, now: int, eventId: Option<string>)
    requires Inv(cfg, db) && id in db.payments && db.payments[id].status.Pending?
    ensures
      var next := ExpireNow(cfg, db, db.payments[id], total, now, eventId);
      id in next.payments && Told(cfg, db, next, id)
  {
    KeyedById(cfg, db, id);
    ExpiryEffect(cfg, db, id, total, now, eventId);
    NoticesAfterWrite(cfg, db, ExpiryPayload(db.payments[id], total), id, Outbox.PaymentExpired);
  }

  lemma ClaimTells(cfg: Config, db: Database, event: Event, id: string, now: int)
    requires Inv(cfg, db) && id in db.payments && ApplyClaim(cfg, db, event, id, now).Committed?
    ensures
      var next := ApplyClaim(cfg, db, event, id, now).db;
      id in next.payments && Told(cfg, db, next, id)
  {
    KeyedById(cfg, db, id);
    var p := db.payments[id];
    if Overdue(p, now) {
      LateDepositExpires(cfg, db, event, id, now);
      ExpiryTells(cfg, db, id, Total(CanonicalClaims, id, db.events), now, Some(event.capture.eventId));
    } else if !IsTerminal(p.status) && Claimable(db.events, event.capture.eventId, id) {
      var events := WithOwner(db.events, event.capture.eventId, id);
      if p.status.Pending? && TotalIncluding(events, event, id) >= p.terms.amount {
        MatchTells(cfg, db, events, event, id, TotalIncluding(events, event, id));
      }
    }
  }

  lemma SweepTells(cfg: Config, db: Database, read: Payment, total: nat, now: int)
    requires Inv(cfg, db) && Genuine(db, read)
    ensures
      var next := SweepExpiry(cfg, db, read, total, now);
      read.terms.paymentId in next.payments && Told(cfg, db, next, read.terms.paymentId)
  {
    if SweepExpiry(cfg, db, read, total, now) != db {
      ExpiryTells(cfg, db, read.terms.paymentId, total, now, None);
    }
  }

  lemma MovingWrite(cfg: Config, db: Database, read: Payment, w: Write)
    requires Genuine(db, read) && w.Transition? && StillAt(db, read) && (w.to.Confirmed? || w.to.Failed?)
    ensures
      var id, next := read.terms.paymentId, ApplyWrite(cfg, db, read, w);
      && db.payments[id] == read && id in next.payments && next.payments[id] == Transitioned(read, w)
      && next.outbox == Notify(cfg, db.outbox,
           PayloadFor(read, w.to, if w.to.Confirmed? then Outbox.PaymentConfirmed else Outbox.PaymentFailed))
  {
  }

  lemma MovingWriteTells(cfg: Config, db: Database, read: Payment, w: Write)
    requires Inv(cfg, db) && Genuine(db, read) && w.Transition? && StillAt(db, read)
    requires w.to != read.status && (w.to.Confirmed? || w.to.Failed?)
    ensures
      var next := ApplyWrite(cfg, db, read, w);
      read.terms.paymentId in next.payments && Told(cfg, db, next, read.terms.paymentId)
  {
    var payload := PayloadFor(read, w.to, if w.to.Confirmed? then Outbox.PaymentConfirmed else Outbox.PaymentFailed);
    MovingWrite(cfg, db, read, w);
    NoticesAfterWrite(cfg, db, payload, read.terms.paymentId, payload.eventType);
  }

  lemma WriteTells(cfg: Config, db: Database, read: Payment, w: Write)
    requires Inv(cfg, db) && Genuine(db, read)
    requires w.Transition? ==> !IsTerminal(read.status) && (w.to.Confirming? || w.to.Confirmed? || w.to.Failed?)
    ensures
      var next := ApplyWrite(cfg, db, read, w);
      read.terms.paymentId in next.payments && Told(cfg, db, next, read.terms.paymentId)
  {
    if w.Transition? && StillAt(db, read) && !w.to.Confirming? {
      MovingWriteTells(cfg, db, read, w);
    }
  }

  /** The payment a transaction is about. */
  function Subject(a: Action): Option<string> {
    match a
    case Claim(_, _, id, _) => Some(id)
    case Sweep(_, _, id, _) => Some(id)
    case Confirm(_, _, id, _, _, _, _, _, _) => Some(id)
    case _ => None
  }

  lemma OthersAreQuiet(cfg: Config, past: seq<Database>, a: Action)
    requires |past| > 0 && Enabled(cfg, past, a) && Subject(a).None?
    ensures Apply(cfg, past, a).outbox == past[|past| - 1].outbox
  {
  }

  /** In every run a step leaves the outbox alone, or adds the one notification its payment's move calls for. */
  lemma NotificationsTell(cfg: Config, run: seq<Database>, actions: seq<Action>, n: nat)
    requires IsRun(cfg, run, actions) && n < |actions|
    ensures
      match Subject(actions[n])
      case None => run[n + 1].outbox == run[n].outbox
      case Some(id) => id in run[n].payments && id in run[n + 1].payments && Told(cfg, run[n], run[n + 1], id)
  {
    var a, past := actions[n], run[..n + 1];
    StepAt(cfg, run, actions, n);
    RunInvariant(cfg, run, actions, n, n);
    if a.Claim? {
      if ApplyClaim(cfg, run[n], past[a.readAt].events[a.row], a.paymentId, a.now).Committed? {
        ClaimTells(cfg, run[n], past[a.readAt].events[a.row], a.paymentId, a.now);
      }
    } else if a.Sweep? {
      assert past[a.paymentAt] == run[a.paymentAt];
      RunInvariant(cfg, run, actions, a.paymentAt, n);
      ReadStillCurrent(cfg, run[a.paymentAt], run[n], a.paymentId);
      SweepTells(cfg, run[n], run[a.paymentAt].payments[a.paymentId],
                 Total(CanonicalClaims, a.paymentId, past[a.totalAt].events), a.now);
    } else if a.Confirm? {
      CallTells(cfg, run, actions, n);
    } else {
      OthersAreQuiet(cfg, past, a);
    }
  }

  lemma CallTells(cfg: Config, run: seq<Database>, actions: seq<Action>, n: nat)
    requires IsRun(cfg, run, actions) && n < |actions| && actions[n].Confirm?
    ensures
      var id := actions[n].paymentId;
      id in run[n].payments && id in run[n + 1].payments && Told(cfg, run[n], run[n + 1], id)
  {
    var a := actions[n];
    var w := CallWrote(cfg, run, actions, n);
    RunInvariant(cfg, run, actions, n, n);
    var read := run[a.paymentAt].payments[a.paymentId];
    WritesToOpen(cfg, read, EventById(run[a.eventAt].events, MatchedId(read)), a.seen, a.now, a.now2, a.review,
                 a.verdict, a.k);
    WriteTells(cfg, run[n], read, w);
  }

  lemma WritesToOpen(cfg: Config, p: Payment, event: Option<Event>, seen: Observation, now: int, now2: int,
      review: Option<ReviewDecision>, verdict: Verdict, k: nat)
    requires k < |Decide(cfg, p, event, seen, now, now2, review, verdict).writes|
    ensures
      var w := Decide(cfg, p, event, seen, now, now2, review, verdict).writes[k];
      w.Transition? ==> !IsTerminal(p.status) && (w.to.Confirming? || w.to.Confirmed? || w.to.Failed?)
  {
  }

  /** Step `k` wrote the notification at this place of the outbox. */
  ghost predicate WroteAt(cfg: Config, run: seq<Database>, k: nat, i: nat, id: string) {
    && k + 1 < |run| && |run[k].outbox| == i && i < |run[k + 1].outbox|
    && id in run[k].payments && id in run[k + 1].payments
    && Tells(run[k + 1].outbox[i].payload, run[k].payments[id], run[k + 1].payments[id])
  }

  lemma NewNoticeTells(cfg: Config, run: seq<Database>, actions: seq<Action>, k: nat, i: nat) returns (id: string)
    requires IsRun(cfg, run, actions) && k < |actions| && |run[k].outbox| <= i < |run[k + 1].outbox|
    ensures WroteAt(cfg, run, k, i, id)
  {
    NotificationsTell(cfg, run, actions, k);
    id := Subject(actions[k]).value;
  }

  lemma OldNoticeStands(cfg: Config, run: seq<Database>, actions: seq<Action>, k: nat, i: nat)
    requires IsRun(cfg, run, actions) && k < |actions| && i < |run[k].outbox|
    ensures i < |run[k + 1].outbox| && run[k + 1].outbox[i] == run[k].outbox[i]
  {
    RunInvariant(cfg, run, actions, k, k + 1);
  }

  /**
   Every row of the outbox in every state of every run was written by a step that moved its
   payment, and tells that move: merchant, chain, token, price and the amounts then received.
   */
  lemma {:induction false} EveryNoticeTells(cfg: Config, run: seq<Database>, actions: seq<Action>, n: nat, i: nat)
    returns (k: nat, id: string)
    requires IsRun(cfg, run, actions) && n < |run| && i < |run[n].outbox|
    ensures k < n && WroteAt(cfg, run, k, i, id) && run[n].outbox[i] == run[k + 1].outbox[i]
  {
    var before: nat := n - 1;
    if i < |run[before].outbox| {
      OldNoticeStands(cfg, run, actions, before, i);
      k, id := EveryNoticeTells(cfg, run, actions, before, i);
    } else {
      k := before;
      id := NewNoticeTells(cfg, run, actions, before, i);
    }
  }
}
