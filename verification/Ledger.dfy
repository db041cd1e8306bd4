/**
 The payment ledger's shared state: payments, on-chain events, webhook outbox,
 audit rows and reconciliation annotations, the claim totals the services
 recompute from it, and the relation between an earlier and a later state that
 every interleaving of the services keeps.
 */
module Ledger {
  import opened Common
  import opened StateMachine
  import Outbox

  datatype Interpretation = Accepted | RejectedEvent | Review

  /** The immutable capture of a transfer. */
  datatype Capture = Capture(
    eventId: string,
    chain: string,
    toAddress: string,
    transactionHash: string,
    blockNumber: nat,
    amount: nat)

  /** A row of `on_chain_events`; `owner` is `matchedPaymentId`. */
  datatype Event = Event(
    capture: Capture,
    interpretation: Option<Interpretation>,
    token: Option<string>,
    verifiedReceivedAmount: Option<nat>,
    owner: Option<string>,
    canonical: bool)

  datatype Screening = Clear | Flagged | Blocked | Unscreened

  /** What a payment was created with, including the receiving address assigned to it. */
  datatype Terms = Terms(
    paymentId: string,
    merchantId: string,
    chain: string,
    token: string,
    address: string,
    amount: nat,
    requiredConfirmations: nat,
    expiresAt: int)

  /** The stored amounts and flags. */
  datatype Money = Money(
    amountReceived: Option<nat>,
    partialAmountReceived: Option<nat>,
    excessAmount: Option<nat>,
    underpaymentFlag: bool,
    overpaymentFlag: bool)

  /** `matchedEventId` and `transactionHash`, which are always written together. */
  datatype MatchedEvent = MatchedEvent(eventId: string, transactionHash: string)

  /** A row of `payments`. */
  datatype Payment = Payment(
    terms: Terms,
    status: Status,
    version: nat,
    confirmations: nat,
    money: Money,
    matched: Option<MatchedEvent>,
    screeningStatus: Screening,
    automationHold: bool,
    terminalAt: Option<int>)

  datatype AuditAction =
    | PartialAccumulated | PaymentMatched | ReplacementLinkedRow | ExcessLinkedRow | PaymentExpiredRow
    | MovedTo(status: Status) | ComplianceHoldRow | OverrideReleased | TransitionRejected | FinalityIncident
    | ReviewDecisionRow

  datatype AuditRow = AuditRow(
    entityId: string,
    action: AuditAction,
    before: Status,
    after: Status,
    eventId: Option<string>)

  datatype Category = Orphan | Late | Partial | Excess | Reorg | Compliance

  /** The unique `annotationId` is a digest of exactly these three fields. */
  datatype Annotation = OnEvent(entityId: string, category: Category) | OnPayment(entityId: string, category: Category)

  datatype Database = Database(
    payments: map<string, Payment>,
    events: seq<Event>,
    outbox: seq<Outbox.Row>,
    audit: seq<AuditRow>,
    annotations: set<Annotation>)

  const EMPTY: Database := Database(map[], [], [], [], {})

  // ----- claim totals -----

  /** `BigInt(event.verifiedReceivedAmount ?? event.amount)` */
  function Effective(e: Event): nat {
    e.verifiedReceivedAmount.GetOr(e.capture.amount)
  }

  /** Which claims a total ranges over, and at which value. */
  datatype Measure = AllClaims | CanonicalClaims | CanonicalRaw

  function Share(m: Measure, paymentId: string, e: Event): nat {
    if e.owner != Some(paymentId) || (!m.AllClaims? && !e.canonical) then 0
    else if m.CanonicalRaw? then e.capture.amount
    else Effective(e)
  }

  function Total(m: Measure, paymentId: string, events: seq<Event>): nat {
    if events == [] then 0
    else Total(m, paymentId, events[..|events| - 1]) + Share(m, paymentId, events[|events| - 1])
  }

  function ShareAt(m: Measure, paymentId: string, events: seq<Event>, i: nat): nat {
    if i < |events| then Share(m, paymentId, events[i]) else 0
  }

  lemma {:induction false} TotalPrefix(m: Measure, p: string, events: seq<Event>, n: nat)
    requires n <= |events|
    ensures Total(m, p, events[..n]) <= Total(m, p, events)
  {
    if n < |events| {
      TotalPrefix(m, p, events[..|events| - 1], n);
      assert events[..|events| - 1][..n] == events[..n];
    } else {
      assert events[..n] == events;
    }
  }

  /** Row by row at most implies in total at most, across two event tables and two measures. */
  lemma {:induction false} TotalAtMost(m: Measure, p: string, events: seq<Event>, m': Measure, events': seq<Event>)
    requires forall i :: 0 <= i < |events| ==> Share(m, p, events[i]) <= ShareAt(m', p, events', i)
    ensures Total(m, p, events) <= Total(m', p, events')
  {
    if events != [] {
      var n := |events| - 1;
      var front := events[..n];
      if n < |events'| {
        var front' := events'[..n];
        forall i | 0 <= i < |front| ensures Share(m, p, front[i]) <= ShareAt(m', p, front', i) {
          assert Share(m, p, events[i]) <= ShareAt(m', p, events', i);
        }
        TotalAtMost(m, p, front, m', front');
        assert Share(m, p, events[n]) <= ShareAt(m', p, events', n);
        assert events'[..n + 1][..n] == front';
        TotalPrefix(m', p, events', n + 1);
      } else {
        assert Share(m, p, events[n]) <= ShareAt(m', p, events', n);
        forall i | 0 <= i < |front| ensures Share(m, p, front[i]) <= ShareAt(m', p, events', i) {
          assert Share(m, p, events[i]) <= ShareAt(m', p, events', i);
        }
        TotalAtMost(m, p, front, m', events');
      }
    }
  }

  lemma {:induction false} TotalUpdate(m: Measure, p: string, events: seq<Event>, i: nat, e: Event)
    requires i < |events|
    ensures Total(m, p, events[i := e]) + Share(m, p, events[i]) == Total(m, p, events) + Share(m, p, e)
  {
    var n := |events| - 1;
    if i < n {
      TotalUpdate(m, p, events[..n], i, e);
      assert events[i := e][..n] == events[..n][i := e];
    } else {
      assert events[i := e][..n] == events[..n];
    }
  }

  lemma TotalAppend(m: Measure, p: string, events: seq<Event>, e: Event)
    ensures Total(m, p, events + [e]) == Total(m, p, events) + Share(m, p, e)
  {
    assert (events + [e])[..|events|] == events;
  }

  // ----- lookups by the unique event id -----

  /** The row holding an event id, or the table's length when there is none. */
  function IndexOf(events: seq<Event>, eventId: string): (i: nat)
    ensures i <= |events|
    ensures i < |events| ==> events[i].capture.eventId == eventId
    ensures forall j :: 0 <= j < i ==> events[j].capture.eventId != eventId
  {
    if events == [] || events[0].capture.eventId == eventId then 0
    else
      var rest := events[1..];
      assert forall j :: 0 < j < |events| ==> events[j] == rest[j - 1];
      1 + IndexOf(rest, eventId)
  }

  ghost predicate UniqueIds(events: seq<Event>) {
    forall i, j :: 0 <= i < j < |events| ==> events[i].capture.eventId != events[j].capture.eventId
  }

  // ----- how a later state may differ from an earlier one -----

  /** Reachability in the transition table. */
  predicate Reaches(a: Status, b: Status) {
    a == b || a.Pending?
    || (a.Matched? && (b.Confirming? || b.Confirmed? || b.Failed?))
    || (a.Confirming? && (b.Confirmed? || b.Failed?))
  }

  /** A payment row is replaced only under a higher version, along the transition table. */
  predicate PaymentEvolves(p: Payment, q: Payment) {
    p == q
    || (q.version > p.version && p.terms == q.terms && Reaches(p.status, q.status)
        && (p.automationHold ==> q.automationHold))
  }

  /** Captured fields are immutable; interpretation and ownership are written once; orphaning is final. */
  predicate EventEvolves(e: Event, f: Event) {
    && e.capture == f.capture
    && (e.interpretation.Some? ==>
          f.interpretation == e.interpretation && f.token == e.token
          && f.verifiedReceivedAmount == e.verifiedReceivedAmount)
    && (e.owner.Some? ==> f.owner == e.owner)
    && (f.canonical ==> e.canonical)
  }

  /** Row `i` of `later` is a claim by `p` that `db` does not have. */
  predicate NewClaim(db: Database, later: Database, i: nat, p: string) {
    i < |later.events| && later.events[i].owner == Some(p)
    && !(i < |db.events| && db.events[i].owner == Some(p))
  }

  /**
   What may have happened between two states: payments and events evolve, every
   claim a payment gained moved its version and found it open, and outbox, audit
   and annotations only grew.
   */
  ghost predicate Evolves(db: Database, later: Database) {
    && (forall p :: p in db.payments ==> p in later.payments && PaymentEvolves(db.payments[p], later.payments[p]))
    && |db.events| <= |later.events|
    && (forall i :: 0 <= i < |db.events| ==> EventEvolves(db.events[i], later.events[i]))
    && (forall i, p :: NewClaim(db, later, i, p) && p in db.payments ==>
          later.payments[p].version > db.payments[p].version && !IsTerminal(db.payments[p].status))
    && db.outbox <= later.outbox
    && db.audit <= later.audit
    && db.annotations <= later.annotations
  }

  lemma EvolvesReflexive(db: Database)
    ensures Evolves(db, db)
  {
  }

  lemma EvolvesTransitive(a: Database, b: Database, c: Database)
    requires Evolves(a, b) && Evolves(b, c)
    ensures Evolves(a, c)
  {
    forall p | p in a.payments ensures p in c.payments && PaymentEvolves(a.payments[p], c.payments[p]) {
      assert PaymentEvolves(a.payments[p], b.payments[p]) && PaymentEvolves(b.payments[p], c.payments[p]);
    }
    forall i | 0 <= i < |a.events| ensures EventEvolves(a.events[i], c.events[i]) {
      assert EventEvolves(a.events[i], b.events[i]) && EventEvolves(b.events[i], c.events[i]);
    }
    forall i, p | NewClaim(a, c, i, p) && p in a.payments
      ensures c.payments[p].version > a.payments[p].version && !IsTerminal(a.payments[p].status)
    {
      assert PaymentEvolves(a.payments[p], b.payments[p]) && PaymentEvolves(b.payments[p], c.payments[p]);
      if !NewClaim(b, c, i, p) {
        assert NewClaim(a, b, i, p);
      }
    }
  }

  /**
   While a payment's version stands still its claim set stands still: the total of
   all claims is unchanged and the canonical totals can only have lost orphans.
   */
  lemma TotalsWhileVersionStands(db: Database, later: Database, p: string)
    requires Evolves(db, later) && p in db.payments
    requires later.payments[p].version == db.payments[p].version
    requires ClaimsAreInterpreted(db.events)
    ensures later.payments[p] == db.payments[p]
    ensures Total(AllClaims, p, later.events) == Total(AllClaims, p, db.events)
    ensures Total(CanonicalClaims, p, later.events) <= Total(CanonicalClaims, p, db.events)
    ensures Total(CanonicalRaw, p, later.events) <= Total(CanonicalRaw, p, db.events)
  {
    assert PaymentEvolves(db.payments[p], later.payments[p]);
    forall i | 0 <= i < |later.events|
      ensures Share(AllClaims, p, later.events[i]) <= ShareAt(AllClaims, p, db.events, i)
      ensures Share(CanonicalClaims, p, later.events[i]) <= ShareAt(CanonicalClaims, p, db.events, i)
      ensures Share(CanonicalRaw, p, later.events[i]) <= ShareAt(CanonicalRaw, p, db.events, i)
    {
      assert !NewClaim(db, later, i, p);
      if i < |db.events| {
        assert EventEvolves(db.events[i], later.events[i]);
      }
    }
    TotalAtMost(AllClaims, p, later.events, AllClaims, db.events);
    TotalAtMost(CanonicalClaims, p, later.events, CanonicalClaims, db.events);
    TotalAtMost(CanonicalRaw, p, later.events, CanonicalRaw, db.events);
    TotalClaimsGrow(db, later, p);
  }

  lemma TotalClaimsGrow(db: Database, later: Database, p: string)
    requires Evolves(db, later) && ClaimsAreInterpreted(db.events)
    ensures Total(AllClaims, p, db.events) <= Total(AllClaims, p, later.events)
  {
    forall i | 0 <= i < |db.events|
      ensures Share(AllClaims, p, db.events[i]) <= ShareAt(AllClaims, p, later.events, i)
    {
      assert EventEvolves(db.events[i], later.events[i]);
    }
    TotalAtMost(AllClaims, p, db.events, AllClaims, later.events);
  }

  /** Only events with a written interpretation are ever claimed. */
  ghost predicate ClaimsAreInterpreted(events: seq<Event>) {
    forall i :: 0 <= i < |events| && events[i].owner.Some? ==> events[i].interpretation == Some(Accepted)
  }
}
