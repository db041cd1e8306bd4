/**
 Runs of the payment ledger: any number of workers, in any order, any number of
 times. A run is the sequence of committed states; a value a worker read before
 its transaction is the value of some earlier state of the same run, so every
 stale read, lost race, redelivery and crash between read and commit is a run.
 */
module LedgerRuns {
  import opened Common
  import opened StateMachine
  import opened Ledger
  import opened Commits
  import Outbox

  // ----- what can happen -----

  datatype Action =
    | Create(payment: Payment)
    | Ingest(event: Event)
    | Interpret(row: nat, judgment: Interpretation, token: Option<string>, verified: Option<nat>)
    | Claim(readAt: nat, row: nat, paymentId: string, now: int)
    | Sweep(paymentAt: nat, totalAt: nat, paymentId: string, now: int)
    | Confirm(paymentAt: nat, eventAt: nat, paymentId: string, seen: Observation, now: int, now2: int,
              review: Option<ReviewDecision>, verdict: Verdict, k: nat)
    | OrphanEvents(chain: string, forkPoint: nat)
    | Recompute(paymentAt: nat, totalAt: nat, paymentId: string)
    | Incident(paymentAt: nat, paymentId: string)
    | Screen(paymentAt: nat, paymentId: string, status: Screening)
    | Record(auditRow: AuditRow)
    | Annotate(annotation: Annotation)

  predicate IsNew(p: Payment) {
    && Outbox.IsIdentifier(p.terms.paymentId) && p.terms.amount > 0 && p.terms.requiredConfirmations > 0
    && p.status.Pending? && p.version == 0 && p.confirmations == 0
    && p.money == Money(None, None, None, false, false) && p.matched.None?
    && !p.automationHold && p.terminalAt.None?
  }

  predicate IsCapture(e: Event) {
    e.interpretation.None? && e.token.None? && e.verifiedReceivedAmount.None? && e.owner.None? && e.canonical
  }

  /** The event was sent to the payment's address, on its chain, in its token. */
  predicate RoutesTo(e: Event, p: Payment) {
    e.capture.chain == p.terms.chain && e.capture.toAddress == p.terms.address && e.token == Some(p.terms.token)
  }

  function EventById(events: seq<Event>, eventId: Option<string>): Option<Event> {
    if eventId.Some? && IndexOf(events, eventId.value) < |events| then Some(events[IndexOf(events, eventId.value)])
    else None
  }

  function WritesOf(cfg: Config, past: seq<Database>, a: Action): seq<Write>
    requires a.Confirm? && a.paymentAt <= a.eventAt < |past| && a.paymentId in past[a.paymentAt].payments
  {
    var read := past[a.paymentAt].payments[a.paymentId];
    Decide(cfg, read, EventById(past[a.eventAt].events, MatchedId(read)), a.seen, a.now, a.now2, a.review,
        a.verdict).writes
  }

  ghost predicate Enabled(cfg: Config, past: seq<Database>, a: Action)
    requires |past| > 0
  {
    var cur := past[|past| - 1];
    match a
    case Create(p) => p.terms.paymentId !in cur.payments && IsNew(p)
    case Ingest(e) => IndexOf(cur.events, e.capture.eventId) == |cur.events| && IsCapture(e)
    case Interpret(row, _, _, _) => row < |cur.events| && cur.events[row].interpretation.None?
    case Claim(readAt, row, id, _) =>
      && readAt < |past| && row < |past[readAt].events| && id in cur.payments
      && var e := past[readAt].events[row];
         e.interpretation == Some(Accepted) && e.canonical && RoutesTo(e, cur.payments[id])
    case Sweep(paymentAt, totalAt, id, now) =>
      && paymentAt <= totalAt < |past| && id in past[paymentAt].payments
      && var read := past[paymentAt].payments[id];
         read.status.Pending? && read.terms.expiresAt < now
    case Confirm(paymentAt, eventAt, id, _, _, _, _, _, k) =>
      && paymentAt <= eventAt < |past| && id in past[paymentAt].payments
      && k < |WritesOf(cfg, past, a)|
    case OrphanEvents(_, _) => true
    case Recompute(paymentAt, totalAt, id) =>
      && paymentAt <= totalAt < |past| && id in past[paymentAt].payments
      && exists i :: 0 <= i < |past[paymentAt].events| && OrphanOf(past[paymentAt].events[i], id)
    case Incident(paymentAt, id) =>
      paymentAt < |past| && id in past[paymentAt].payments && past[paymentAt].payments[id].status.Confirmed?
    case Screen(paymentAt, id, _) => paymentAt < |past| && id in past[paymentAt].payments
    case Record(_) => true
    case Annotate(_) => true
  }

  /** A claim of the payment that a reorg orphaned; its owner is an affected payment. */
  predicate OrphanOf(e: Event, paymentId: string) {
    e.owner == Some(paymentId) && !e.canonical
  }

  function Apply(cfg: Config, past: seq<Database>, a: Action): Database
    requires |past| > 0 && Enabled(cfg, past, a)
  {
    var cur := past[|past| - 1];
    match a
    case Create(p) => cur.(payments := cur.payments[p.terms.paymentId := p])
    case Ingest(e) => cur.(events := cur.events + [e])
    case Interpret(row, judgment, token, verified) =>
      cur.(events := cur.events[row := cur.events[row].(interpretation := Some(judgment), token := token,
          verifiedReceivedAmount := verified)])
    case Claim(readAt, row, id, now) =>
      var outcome := ApplyClaim(cfg, cur, past[readAt].events[row], id, now);
      if outcome.Committed? then outcome.db else cur
    case Sweep(paymentAt, totalAt, id, now) =>
      SweepExpiry(cfg, cur, past[paymentAt].payments[id], Total(CanonicalClaims, id, past[totalAt].events), now)
    case Confirm(paymentAt, _, id, _, _, _, _, _, k) =>
      ApplyWrite(cfg, cur, past[paymentAt].payments[id], WritesOf(cfg, past, a)[k])
    case OrphanEvents(chain, forkPoint) => cur.(events := OrphanAbove(cur.events, chain, forkPoint))
    case Recompute(paymentAt, totalAt, id) =>
      RecomputePartial(cur, past[paymentAt].payments[id], Total(CanonicalRaw, id, past[totalAt].events))
    case Incident(paymentAt, id) => HoldForIncident(cur, past[paymentAt].payments[id])
    case Screen(paymentAt, id, status) => SetScreening(cur, past[paymentAt].payments[id], status)
    case Record(row) => cur.(audit := cur.audit + [row])
    case Annotate(annotation) => cur.(annotations := cur.annotations + {annotation})
  }

  ghost predicate IsRun(cfg: Config, run: seq<Database>, actions: seq<Action>) {
    && |run| == |actions| + 1 && run[0] == EMPTY
    && forall i :: 0 <= i < |actions| ==>
      Enabled(cfg, run[..i + 1], actions[i]) && run[i + 1] == Apply(cfg, run[..i + 1], actions[i])
  }

  lemma ExtendRun(cfg: Config, run: seq<Database>, actions: seq<Action>, a: Action)
    requires IsRun(cfg, run, actions) && Enabled(cfg, run, a)
    ensures IsRun(cfg, run + [Apply(cfg, run, a)], actions + [a])
  {
    var longer, more := run + [Apply(cfg, run, a)], actions + [a];
    forall i | 0 <= i < |more|
      ensures Enabled(cfg, longer[..i + 1], more[i]) && longer[i + 1] == Apply(cfg, longer[..i + 1], more[i])
    {
      if i < |actions| {
        assert longer[..i + 1] == run[..i + 1];
      } else {
        assert longer[..i + 1] == run;
      }
    }
  }

  // ----- what every state of a run satisfies -----

  predicate EverMatched(s: Status) {
    s.Matched? || s.Confirming? || s.Confirmed? || s.Failed?
  }

  /** The notification a status must have left behind by now. */
  predicate HasEntered(t: Outbox.EventType, s: Status) {
    if t.PaymentMatched? then EverMatched(s) else s == Outbox.StatusOf(t)
  }

  function Notices(rows: seq<Outbox.Row>, paymentId: string, t: Outbox.EventType): nat {
    if rows == [] then 0
    else
      var last := rows[|rows| - 1].payload;
      Notices(rows[..|rows| - 1], paymentId, t) + if last.paymentId == paymentId && last.eventType == t then 1 else 0
  }

  predicate Verbatim(e: Event) {
    e.verifiedReceivedAmount.None? || e.verifiedReceivedAmount == Some(e.capture.amount)
  }

  /** No claim of the payment was orphaned, or all were received at their logged amount. */
  ghost predicate Exact(events: seq<Event>, p: string) {
    || (forall i :: 0 <= i < |events| && events[i].owner == Some(p) ==> events[i].canonical)
    || (forall i :: 0 <= i < |events| && events[i].owner == Some(p) ==> Verbatim(events[i]))
  }

  /** The amounts, flags and counters of one payment against the totals of its claims. */
  ghost predicate AmountsOk(cfg: Config, p: Payment, claimed: nat, canonical: nat, exact: bool) {
    var amount, required, m := p.terms.amount, p.terms.requiredConfirmations, p.money;
    && amount > 0 && required > 0
    && p.confirmations <= required
    && (p.status.Confirmed? <==> p.confirmations == required)
    && (p.terminalAt.Some? <==> IsTerminal(p.status))
    && (exact ==> canonical <= m.partialAmountReceived.GetOr(0) <= claimed)
    && (!EverMatched(p.status) ==>
          && canonical < amount
          && m.amountReceived.None? && m.excessAmount.None? && !m.overpaymentFlag && p.matched.None?)
    && (EverMatched(p.status) ==>
          && m.amountReceived.Some? && m.amountReceived == m.partialAmountReceived && p.matched.Some?
          && amount <= m.amountReceived.value <= claimed
          && (m.overpaymentFlag <==> m.amountReceived.value > amount)
          && (m.overpaymentFlag ==> m.excessAmount == Some(m.amountReceived.value - amount))
          && (!cfg.overpaymentAllow ==> m.amountReceived.value == amount))
  }

  /** Everything the ledger keeps about one payment but its notifications. */
  ghost predicate AmountsInOrder(cfg: Config, db: Database, id: string)
    requires id in db.payments
  {
    var p := db.payments[id];
    && p.terms.paymentId == id
    && AmountsOk(cfg, p, Total(AllClaims, id, db.events), Total(CanonicalClaims, id, db.events), Exact(db.events, id))
    && (p.matched.Some? ==> OwnsMatchedEvent(db.events, p.matched.value.eventId, id))
  }

  ghost predicate PaymentOk(cfg: Config, db: Database, id: string)
    requires id in db.payments
  {
    && Outbox.IsIdentifier(id)
    && AmountsInOrder(cfg, db, id)
    && (forall t ::
      Notices(db.outbox, id, t) == if cfg.dispatcher && HasEntered(t, db.payments[id].status) then 1 else 0)
  }

  predicate OwnsMatchedEvent(events: seq<Event>, eventId: string, id: string) {
    IndexOf(events, eventId) < |events| && events[IndexOf(events, eventId)].owner == Some(id)
  }

  predicate ClaimOk(db: Database, e: Event) {
    e.owner.Some? ==>
      e.interpretation == Some(Accepted) && e.owner.value in db.payments && RoutesTo(e, db.payments[e.owner.value])
  }

  predicate RowOk(db: Database, r: Outbox.Row) {
    && r.idempotencyKey == Outbox.KeyOf(r.payload)
    && r.payload.paymentId in db.payments
    && r.payload.paymentVersion < db.payments[r.payload.paymentId].version
  }

  ghost predicate Inv(cfg: Config, db: Database) {
    && (forall id :: id in db.payments ==> PaymentOk(cfg, db, id))
    && UniqueIds(db.events)
    && (forall i :: 0 <= i < |db.events| ==> ClaimOk(db, db.events[i]))
    && (forall i :: 0 <= i < |db.outbox| ==> RowOk(db, db.outbox[i]))
  }
}
