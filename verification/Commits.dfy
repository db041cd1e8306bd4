/**
 Every committed transaction of the payment services as a function of the state
 it commits against and of the values its caller read beforehand. Aborts and lost
 version checks are visible in the result.
 */
module Commits {
  import opened Common
  import opened StateMachine
  import opened Ledger
  import Outbox

  datatype Config = Config(latePaymentGrace: nat, overpaymentAllow: bool, dispatcher: bool)

  // ----- shared pieces -----

  function PayloadFor(p: Payment, status: Status, eventType: Outbox.EventType): Outbox.Payload {
    var t, m := p.terms, p.money;
    Outbox.Payload(t.paymentId, t.merchantId, eventType, status, p.version, t.chain, t.token, t.amount,
                   m.amountReceived, m.excessAmount, m.partialAmountReceived,
                   if p.matched.Some? then Some(p.matched.value.transactionHash) else None)
  }

  /** The outbox is written only when a webhook dispatcher is configured. */
  function Notify(cfg: Config, rows: seq<Outbox.Row>, payload: Outbox.Payload): seq<Outbox.Row> {
    if cfg.dispatcher then Outbox.Write(rows, payload) else rows
  }

  function MatchedId(p: Payment): Option<string> {
    if p.matched.Some? then Some(p.matched.value.eventId) else None
  }

  function GuardFor(cfg: Config, p: Payment, to: Status, now: int, confirmations: nat, canonical: bool,
      complianceClear: bool, qualifying: bool): GuardInput {
    GuardInput(p.status, to, now, p.terms.expiresAt, cfg.latePaymentGrace, confirmations, p.terms.requiredConfirmations,
               canonical, complianceClear, qualifying)
  }

  /** The row a conditional write on `{ paymentId, status, version }` would match. */
  predicate StillAt(db: Database, read: Payment) {
    read.terms.paymentId in db.payments
    && db.payments[read.terms.paymentId].status == read.status
    && db.payments[read.terms.paymentId].version == read.version
  }

  // ----- claiming: payment-matching-service.ts -----

  datatype AbortReason = PaymentChangedConcurrently | PaymentTerminal | ToleranceExceeded

  datatype MatchAction =
    | ClaimedMatched | ClaimedPartial | ReplacementLinked | ExcessLinked
    | LateArrivalAnnotated | OrphanAnnotated | Skipped

  datatype ClaimOutcome =
    | Committed(db: Database, action: MatchAction, followUps: set<Annotation>)
    | Aborted(reason: AbortReason)

  /** The event can be claimed: nobody owns it, or this payment already does. */
  predicate Claimable(events: seq<Event>, eventId: string, paymentId: string) {
    var i := IndexOf(events, eventId);
    i < |events| && (events[i].owner == None || events[i].owner == Some(paymentId))
  }

  function WithOwner(events: seq<Event>, eventId: string, paymentId: string): seq<Event>
    requires IndexOf(events, eventId) < |events|
  {
    var i := IndexOf(events, eventId);
    events[i := events[i].(owner := Some(paymentId))]
  }

  /** Some canonical claim of the payment carries this event id. */
  predicate Includes(events: seq<Event>, eventId: string, paymentId: string) {
    exists i ::
      0 <= i < |events| && events[i].capture.eventId == eventId && events[i].owner == Some(paymentId)
        && events[i].canonical
  }

  /** The canonical claims, plus this event should it no longer be among them. */
  function TotalIncluding(events: seq<Event>, event: Event, paymentId: string): nat {
    Total(CanonicalClaims, paymentId, events)
    + if Includes(events, event.capture.eventId, paymentId) then 0 else Effective(event)
  }

  function ExcessOver(total: nat, amount: nat): nat {
    if total > amount then total - amount else 0
  }

  function PartialPayment(p: Payment, total: nat): Payment {
    p.(money := p.money.(partialAmountReceived := Some(total), underpaymentFlag := true), version := p.version + 1)
  }

  function LinkTo(event: Event): MatchedEvent {
    MatchedEvent(event.capture.eventId, event.capture.transactionHash)
  }

  /** `excessAmount` is only ever set to a positive excess; it is not cleared. */
  function ReceivedMoney(p: Payment, total: nat): Money {
    p.money.(amountReceived := Some(total), partialAmountReceived := Some(total),
             overpaymentFlag := total > p.terms.amount,
             excessAmount := if total > p.terms.amount then Some(total - p.terms.amount) else p.money.excessAmount)
  }

  function MatchedPayment(p: Payment, event: Event, total: nat): Payment {
    p.(status := Matched, matched := Some(LinkTo(event)),
       money := ReceivedMoney(p, total).(underpaymentFlag := false),
       version := p.version + 1)
  }

  /** The previously matched event is gone or orphaned, so the new one takes its place. */
  predicate NeedsReplacement(events: seq<Event>, p: Payment) {
    p.matched.Some?
    && var i := IndexOf(events, p.matched.value.eventId);
       i == |events| || !events[i].canonical
  }

  function LinkedPayment(p: Payment, event: Event, total: nat, replacement: bool): Payment {
    p.(money := ReceivedMoney(p, total),
       matched := if replacement then Some(LinkTo(event)) else p.matched,
       confirmations := if replacement then 0 else p.confirmations,
       version := p.version + 1)
  }

  function ExpiredPayment(p: Payment, total: nat, now: int): Payment {
    p.(status := Expired, terminalAt := Some(now),
       money := p.money.(partialAmountReceived := Some(total), underpaymentFlag := 0 < total < p.terms.amount),
       version := p.version + 1)
  }

  function ExpiryRow(p: Payment, eventId: Option<string>): AuditRow {
    AuditRow(p.terms.paymentId, PaymentExpiredRow, Pending, Expired, eventId)
  }

  /** `#applyClaim`, committed against `db` for an event read earlier. */
  function ApplyClaim(cfg: Config, db: Database, event: Event, paymentId: string, now: int): ClaimOutcome {
    if paymentId !in db.payments then Aborted(PaymentTerminal)
    else
      var p := db.payments[paymentId];
      if IsTerminal(p.status) then
        Committed(db, LateArrivalAnnotated, {OnEvent(event.capture.eventId, Late)})
      else if p.status.Pending? && now > p.terms.expiresAt then
        ExpireInClaim(cfg, db, event, p, now)
      else if !Claimable(db.events, event.capture.eventId, paymentId) then
        Committed(db, Skipped, {})
      else
        var events := WithOwner(db.events, event.capture.eventId, paymentId);
        var total := TotalIncluding(events, event, paymentId);
        if total < p.terms.amount then
          if !p.status.Pending? then Aborted(PaymentChangedConcurrently)
          else
            Committed(
              db.(events := events,
                  payments := db.payments[paymentId := PartialPayment(p, total)],
                  audit := db.audit + [AuditRow(paymentId, PartialAccumulated, Pending, Pending,
                      Some(event.capture.eventId))]),
              ClaimedPartial, {})
        else if !cfg.overpaymentAllow && total > p.terms.amount then Aborted(ToleranceExceeded)
        else if p.status.Pending? then MatchInClaim(cfg, db, events, event, p, total)
        else LinkInClaim(db, events, event, p, total)
  }

  function MatchInClaim(cfg: Config, db: Database, events: seq<Event>, event: Event, p: Payment,
      total: nat): ClaimOutcome {
    var q := MatchedPayment(p, event, total);
    Committed(
      db.(events := events,
          payments := db.payments[p.terms.paymentId := q],
          audit := db.audit
            + [AuditRow(p.terms.paymentId, PaymentMatched, Pending, Matched, Some(event.capture.eventId))],
          outbox := Notify(cfg, db.outbox,
              PayloadFor(q, Matched, Outbox.PaymentMatched).(paymentVersion := p.version))),
      ClaimedMatched,
      if total > p.terms.amount then {OnPayment(p.terms.paymentId, Excess)} else {})
  }

  /** Every effective replacement or top-up of a payment that already matched. */
  function LinkInClaim(db: Database, events: seq<Event>, event: Event, p: Payment, total: nat): ClaimOutcome {
    var replacement := NeedsReplacement(events, p);
    Committed(
      db.(events := events,
          payments := db.payments[p.terms.paymentId := LinkedPayment(p, event, total, replacement)],
          audit := db.audit + [AuditRow(p.terms.paymentId,
                                        if replacement then ReplacementLinkedRow else ExcessLinkedRow,
                                        p.status, p.status, Some(event.capture.eventId))]),
      if replacement then ReplacementLinked else ExcessLinked,
      if !replacement && total > p.terms.amount then {OnPayment(p.terms.paymentId, Excess)} else {})
  }

  function ExpireInClaim(cfg: Config, db: Database, event: Event, p: Payment, now: int): ClaimOutcome {
    var total := Total(CanonicalClaims, p.terms.paymentId, db.events);
    var followUps := {OnEvent(event.capture.eventId, Late)}
                     + if 0 < total < p.terms.amount then {OnPayment(p.terms.paymentId, Partial)} else {};
    if Evaluate(GuardFor(cfg, p, Expired, now, 0, true, true, total >= p.terms.amount)).Legal? then
      Committed(ExpireNow(cfg, db, p, total, now, Some(event.capture.eventId)), LateArrivalAnnotated, followUps)
    else
      Committed(db, LateArrivalAnnotated, followUps)
  }

  /** The write both expiry paths share. */
  function ExpireNow(cfg: Config, db: Database, p: Payment, total: nat, now: int, eventId: Option<string>): Database {
    db.(payments := db.payments[p.terms.paymentId := ExpiredPayment(p, total, now)],
        audit := db.audit + [ExpiryRow(p, eventId)],
        outbox := Notify(cfg, db.outbox, PayloadFor(p.(money := p.money.(partialAmountReceived := Some(total))),
            Expired, Outbox.PaymentExpired)))
  }

  // ----- the expiry sweep: scheduler-service.ts -----

  /** One iteration for a payment and a claim total read outside the transaction. */
  function SweepExpiry(cfg: Config, db: Database, read: Payment, total: nat, now: int): Database {
    if Evaluate(GuardFor(cfg, read, Expired, now, 0, true, true, total >= read.terms.amount)).Legal?
       && read.status.Pending? && StillAt(db, read)
    then ExpireNow(cfg, db, read, total, now, None)
    else db
  }

  // ----- confirmation: payment-confirmation-service.ts -----

  datatype Observation = Unavailable | Observed(confirmations: nat, canonical: bool)
  datatype ReviewDecision = Release | Block
  datatype Verdict = VerdictClear | VerdictFlagged | VerdictBlocked | VerdictUnavailable | VerdictIndeterminate

  /** `screeningStatusForVerdict` */
  function ScreeningFor(v: Verdict): Screening {
    match v
    case VerdictClear => Clear
    case VerdictFlagged => Flagged
    case VerdictBlocked => Blocked
    case VerdictUnavailable => Unscreened
    case VerdictIndeterminate => Unscreened
  }

  /** The fields one conditional transition sets. */
  datatype Write =
    | Transition(to: Status, confirmations: Option<nat>, screening: Option<Screening>, terminalAt: Option<int>,
        action: AuditAction)
    | Rejection(attempted: Status)

  datatype Advance = TerminalOutcome(status: Status) | Progressed(status: Status) | Waiting | Held | AutomationHold

  datatype Decision = Decision(writes: seq<Write>, annotations: set<Annotation>, outcome: Advance)

  const WAIT: Decision := Decision([], {}, Waiting)

  /** What one `advancePayment` call writes, in order, given everything it read. */
  function Decide(cfg: Config, read: Payment, event: Option<Event>, seen: Observation, now: int, now2: int,
      review: Option<ReviewDecision>, verdict: Verdict): Decision {
    if read.automationHold then Decision([], {}, AutomationHold)
    else if IsTerminal(read.status) then Decision([], {}, TerminalOutcome(read.status))
    else if read.status.Pending? || read.matched.None? || event.None? || seen.Unavailable? then WAIT
    else
      var canonical := seen.canonical && event.value.canonical;
      if !canonical then
        if Evaluate(GuardFor(cfg, read, Failed, now, seen.confirmations, false, false, true)).Legal? then
          Decision([Transition(Failed, None, None, Some(now), MovedTo(Failed))],
                   {OnPayment(read.terms.paymentId, Reorg)}, TerminalOutcome(Failed))
        else WAIT
      else if read.status.Matched? then
        if Evaluate(GuardFor(cfg, read, Confirming, now, seen.confirmations, true, true, true)).Legal? then
          Decision([Transition(Confirming, Some(0), None, None, MovedTo(Confirming))], {}, Progressed(Confirming))
        else Decision([Rejection(Confirming)], {}, Waiting)
      else if seen.confirmations < read.terms.requiredConfirmations then
        if seen.confirmations <= read.confirmations then WAIT
        else if Evaluate(GuardFor(cfg, read, Confirming, now, seen.confirmations, true, true, true)).Legal? then
          Decision([Transition(Confirming, Some(seen.confirmations), None, None, MovedTo(Confirming))], {},
              Progressed(Confirming))
        else Decision([Rejection(Confirming)], {}, Waiting)
      else DecideConfirmation(cfg, read, now2, review, verdict)
  }

  /** The threshold is reached; `capped` equals the snapshot from here on. */
  function DecideConfirmation(cfg: Config, read: Payment, now2: int, review: Option<ReviewDecision>,
      verdict: Verdict): Decision {
    var hold := {OnPayment(read.terms.paymentId, Compliance)};
    if review == Some(Block) then Decision([], hold, Held)
    else if ScreeningFor(verdict) != Clear && review != Some(Release) then
      Decision(if read.screeningStatus == ScreeningFor(verdict) then []
               else [Transition(read.status, None, Some(ScreeningFor(verdict)), None, ComplianceHoldRow)],
               hold, Held)
    else
      var override := if ScreeningFor(verdict) == Clear then []
                      else [Transition(read.status, None, Some(Clear), None, OverrideReleased)];
      if Evaluate(GuardFor(cfg, read, Confirmed, now2, read.terms.requiredConfirmations, true, true, true)).Legal? then
        Decision(override + [Transition(Confirmed, Some(read.terms.requiredConfirmations), Some(Clear), Some(now2),
            MovedTo(Confirmed))],
                 {}, TerminalOutcome(Confirmed))
      else Decision(override + [Rejection(Confirmed)], {}, Waiting)
  }

  function Transitioned(p: Payment, w: Write): Payment
    requires w.Transition?
  {
    p.(status := w.to, confirmations := w.confirmations.GetOr(p.confirmations),
       screeningStatus := w.screening.GetOr(p.screeningStatus),
       terminalAt := if w.terminalAt.Some? then w.terminalAt else p.terminalAt,
       version := p.version + 1)
  }

  predicate EmitsWebhook(to: Status) {
    to.Confirmed? || to.Failed?
  }

  /** `#applyTransition`: the payment write is conditional, the audit row is not. */
  function ApplyWrite(cfg: Config, db: Database, read: Payment, w: Write): Database {
    match w
    case Rejection(attempted) =>
      db.(audit := db.audit + [AuditRow(read.terms.paymentId, TransitionRejected, read.status, read.status,
          MatchedId(read))])
    case Transition(to, _, _, _, action) =>
      var audited :=
        db.(audit := db.audit + [AuditRow(read.terms.paymentId, action, read.status, to, MatchedId(read))]);
      if !StillAt(db, read) then audited
      else
        audited.(payments := db.payments[read.terms.paymentId := Transitioned(db.payments[read.terms.paymentId], w)],
                 outbox := if EmitsWebhook(to)
                           then Notify(cfg, db.outbox, PayloadFor(read, to,
                               if to.Confirmed? then Outbox.PaymentConfirmed else Outbox.PaymentFailed))
                           else db.outbox)
  }

  function ApplyWrites(cfg: Config, db: Database, read: Payment, writes: seq<Write>): Database {
    if writes == [] then db
    else ApplyWrite(cfg, ApplyWrites(cfg, db, read, writes[..|writes| - 1]), read, writes[|writes| - 1])
  }

  // ----- reorg effects: reorg-resolution-service.ts -----

  predicate Orphaned(e: Event, chain: string, forkPoint: nat) {
    e.capture.chain == chain && e.capture.blockNumber > forkPoint && e.canonical
  }

  /** The event half of the orphaning transaction. */
  function OrphanAbove(events: seq<Event>, chain: string, forkPoint: nat): (r: seq<Event>)
    ensures |r| == |events|
    ensures forall i :: 0 <= i < |events| ==>
      r[i] == if Orphaned(events[i], chain, forkPoint) then events[i].(canonical := false) else events[i]
  {
    seq(|events|, i requires 0 <= i < |events| =>
      if Orphaned(events[i], chain, forkPoint) then events[i].(canonical := false) else events[i])
  }

  /** A pending payment's partial total is rewritten from the raw amounts of its surviving claims. */
  function RecomputePartial(db: Database, read: Payment, rawTotal: nat): Database {
    if !read.status.Pending? || !StillAt(db, read) then db
    else
      var p := db.payments[read.terms.paymentId];
      db.(payments := db.payments[read.terms.paymentId :=
            p.(money := p.money.(partialAmountReceived := Some(rawTotal), underpaymentFlag := rawTotal > 0),
               version := p.version + 1)])
  }

  /** Conditional on the version alone; audited whether or not it applied. */
  function HoldForIncident(db: Database, read: Payment): Database {
    var audited :=
      db.(audit := db.audit + [AuditRow(read.terms.paymentId, FinalityIncident, Confirmed, Confirmed, None)]);
    if read.terms.paymentId in db.payments && db.payments[read.terms.paymentId].version == read.version then
      var p := db.payments[read.terms.paymentId];
      audited.(payments := db.payments[read.terms.paymentId := p.(automationHold := true, version := p.version + 1)])
    else audited
  }

  // ----- compliance decisions: compliance-service.ts -----

  /** Conditional on the version alone. */
  function SetScreening(db: Database, read: Payment, status: Screening): Database {
    if read.terms.paymentId in db.payments && db.payments[read.terms.paymentId].version == read.version then
      var p := db.payments[read.terms.paymentId];
      db.(payments := db.payments[read.terms.paymentId := p.(screeningStatus := status, version := p.version + 1)])
    else db
  }
}
