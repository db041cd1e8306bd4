/** Every action of a ledger run keeps the invariant and only lets the state evolve. */
module LedgerInvariants {
  import opened Common
  import opened StateMachine
  import opened Ledger
  import opened Commits
  import opened LedgerRuns
  import Outbox

  // ----- framing -----

  lemma IndexOfStable(events: seq<Event>, later: seq<Event>, eventId: string)
    requires |events| <= |later| && forall i :: 0 <= i < |events| ==>
      later[i].capture.eventId == events[i].capture.eventId
    ensures IndexOf(events, eventId) < |events| ==> IndexOf(later, eventId) == IndexOf(events, eventId)
  {
    assert IndexOf(events, eventId) < |events| ==> later[IndexOf(events, eventId)].capture.eventId == eventId;
  }

  lemma ExactBackwards(db: Database, later: Database, p: string)
    requires Evolves(db, later) && Exact(later.events, p)
    requires ClaimsAreInterpreted(db.events)
    ensures Exact(db.events, p)
  {
    forall i | 0 <= i < |db.events| && db.events[i].owner == Some(p)
      ensures later.events[i].owner == Some(p)
      ensures later.events[i].canonical ==> db.events[i].canonical
      ensures Verbatim(later.events[i]) ==> Verbatim(db.events[i])
    {
      assert EventEvolves(db.events[i], later.events[i]);
    }
    if forall i :: 0 <= i < |later.events| && later.events[i].owner == Some(p) ==> later.events[i].canonical {
      forall i | 0 <= i < |db.events| && db.events[i].owner == Some(p) ensures db.events[i].canonical {}
    } else {
      forall i | 0 <= i < |db.events| && db.events[i].owner == Some(p) ensures Verbatim(db.events[i]) {}
    }
  }

  lemma InvInterprets(cfg: Config, db: Database)
    requires Inv(cfg, db)
    ensures ClaimsAreInterpreted(db.events)
  {
    forall i | 0 <= i < |db.events| && db.events[i].owner.Some? ensures db.events[i].interpretation == Some(Accepted) {
      assert ClaimOk(db, db.events[i]);
    }
  }

  lemma KeyedById(cfg: Config, db: Database, id: string)
    requires Inv(cfg, db) && id in db.payments
    ensures db.payments[id].terms.paymentId == id
  {
    assert PaymentOk(cfg, db, id);
  }

  /** A payment whose row did not change stays in order, whatever happened to the others. */
  lemma UntouchedPayment(cfg: Config, db: Database, later: Database, id: string)
    requires Inv(cfg, db) && Evolves(db, later)
    requires id in db.payments && later.payments[id] == db.payments[id]
    requires forall t :: Notices(later.outbox, id, t) == Notices(db.outbox, id, t)
    ensures PaymentOk(cfg, later, id)
  {
    InvInterprets(cfg, db);
    TotalsWhileVersionStands(db, later, id);
    assert PaymentOk(cfg, db, id);
    var p := db.payments[id];
    if Exact(later.events, id) {
      ExactBackwards(db, later, id);
    }
    if p.matched.Some? {
      MatchedEventStable(db, later, p.matched.value.eventId, id);
    }
  }

  lemma MatchedEventStable(db: Database, later: Database, eventId: string, id: string)
    requires Evolves(db, later) && OwnsMatchedEvent(db.events, eventId, id)
    ensures OwnsMatchedEvent(later.events, eventId, id)
  {
    forall i | 0 <= i < |db.events| ensures later.events[i].capture.eventId == db.events[i].capture.eventId {
      assert EventEvolves(db.events[i], later.events[i]);
    }
    IndexOfStable(db.events, later.events, eventId);
    assert EventEvolves(db.events[IndexOf(db.events, eventId)], later.events[IndexOf(db.events, eventId)]);
  }

  // ----- the outbox -----

  /** A payment's current version was never notified about, so the unique index never fires. */
  lemma KeyIsFresh(cfg: Config, db: Database, payload: Outbox.Payload)
    requires Inv(cfg, db) && payload.paymentId in db.payments
    requires payload.paymentVersion == db.payments[payload.paymentId].version
    ensures !Outbox.HasKey(db.outbox, Outbox.KeyOf(payload))
  {
    forall i | 0 <= i < |db.outbox| ensures db.outbox[i].idempotencyKey != Outbox.KeyOf(payload) {
      assert RowOk(db, db.outbox[i]);
      var other := db.outbox[i].payload;
      assert PaymentOk(cfg, db, other.paymentId) && PaymentOk(cfg, db, payload.paymentId);
      Outbox.KeyInjective(other.paymentId, other.eventType, other.paymentVersion,
                          payload.paymentId, payload.eventType, payload.paymentVersion);
    }
  }

  lemma NoticesAfterWrite(cfg: Config, db: Database, payload: Outbox.Payload, id: string, t: Outbox.EventType)
    requires Inv(cfg, db) && payload.paymentId in db.payments
    requires payload.paymentVersion == db.payments[payload.paymentId].version
    ensures Notify(cfg, db.outbox, payload)
         == if cfg.dispatcher then db.outbox + [Outbox.Row(Outbox.KeyOf(payload), payload)] else db.outbox
    ensures Notices(Notify(cfg, db.outbox, payload), id, t)
         == Notices(db.outbox, id, t)
            + (if cfg.dispatcher && id == payload.paymentId && t == payload.eventType then 1 else 0)
  {
    KeyIsFresh(cfg, db, payload);
    var row := Outbox.Row(Outbox.KeyOf(payload), payload);
    assert (db.outbox + [row])[..|db.outbox|] == db.outbox;
  }

  // ----- assembling the invariant after a change to one payment -----

  /** The payment moved on, and with it came exactly the notification it owed. */
  ghost predicate Announces(cfg: Config, db: Database, next: Database, id: string, notice: Option<Outbox.Payload>)
    requires id in db.payments && id in next.payments
  {
    match notice
    case None =>
      && next.outbox == db.outbox
      && forall t :: HasEntered(t, next.payments[id].status) <==> HasEntered(t, db.payments[id].status)
    case Some(payload) =>
      && next.outbox == Notify(cfg, db.outbox, payload)
      && payload.paymentId == id && payload.paymentVersion == db.payments[id].version
      && !HasEntered(payload.eventType, db.payments[id].status)
      && forall t :: HasEntered(t, next.payments[id].status) <==>
        t == payload.eventType || HasEntered(t, db.payments[id].status)
  }

  /** What a commit that moves payment `id` must show to keep the invariant. */
  ghost predicate OnePaymentMoves(cfg: Config, db: Database, next: Database, id: string,
      notice: Option<Outbox.Payload>) {
    && id in db.payments && id in next.payments
    && next.payments == db.payments[id := next.payments[id]]
    && next.payments[id].version > db.payments[id].version
    && UniqueIds(next.events)
    && (forall i :: 0 <= i < |next.events| ==>
          (i < |db.events| && next.events[i].owner == db.events[i].owner) || ClaimOk(next, next.events[i]))
    && Announces(cfg, db, next, id, notice)
    && AmountsInOrder(cfg, next, id)
  }

  lemma Reassemble(cfg: Config, db: Database, next: Database, id: string, notice: Option<Outbox.Payload>)
    requires Inv(cfg, db) && Evolves(db, next)
    requires OnePaymentMoves(cfg, db, next, id, notice)
    ensures Inv(cfg, next)
  {
    forall other | other in next.payments ensures PaymentOk(cfg, next, other) {
      PaymentStaysOk(cfg, db, next, id, notice, other);
    }
    ClaimsStayOk(cfg, db, next);
    RowsStayOk(cfg, db, next, id, notice);
  }

  lemma PaymentStaysOk(cfg: Config, db: Database, next: Database, id: string, notice: Option<Outbox.Payload>,
      other: string)
    requires Inv(cfg, db) && Evolves(db, next)
    requires OnePaymentMoves(cfg, db, next, id, notice)
    requires other in next.payments
    ensures PaymentOk(cfg, next, other)
  {
    assert PaymentOk(cfg, db, other);
    forall t ensures Notices(next.outbox, other, t)
                  == Notices(db.outbox, other, t)
                     + if notice.Some? && cfg.dispatcher && other == id && t == notice.value.eventType then 1 else 0
    {
      NoticesGrow(cfg, db, next, id, notice, other, t);
    }
    if other != id {
      UntouchedPayment(cfg, db, next, other);
    }
  }

  lemma NoticesGrow(cfg: Config, db: Database, next: Database, id: string, notice: Option<Outbox.Payload>,
      other: string, t: Outbox.EventType)
    requires Inv(cfg, db) && id in db.payments && id in next.payments && Announces(cfg, db, next, id, notice)
    ensures Notices(next.outbox, other, t)
         == Notices(db.outbox, other, t)
            + (if notice.Some? && cfg.dispatcher && other == id && t == notice.value.eventType then 1 else 0)
  {
    if notice.Some? {
      NoticesAfterWrite(cfg, db, notice.value, other, t);
    }
  }

  lemma ClaimsStayOk(cfg: Config, db: Database, next: Database)
    requires Inv(cfg, db) && Evolves(db, next)
    requires forall i :: 0 <= i < |next.events| ==>
               (i < |db.events| && next.events[i].owner == db.events[i].owner) || ClaimOk(next, next.events[i])
    ensures forall i :: 0 <= i < |next.events| ==> ClaimOk(next, next.events[i])
  {
    forall i | 0 <= i < |next.events| ensures ClaimOk(next, next.events[i]) {
      if i < |db.events| && db.events[i].owner.Some? {
        assert ClaimOk(db, db.events[i]) && EventEvolves(db.events[i], next.events[i]);
        var q := db.events[i].owner.value;
        assert PaymentEvolves(db.payments[q], next.payments[q]);
      }
    }
  }

  lemma RowsStayOk(cfg: Config, db: Database, next: Database, id: string, notice: Option<Outbox.Payload>)
    requires Inv(cfg, db) && Evolves(db, next)
    requires OnePaymentMoves(cfg, db, next, id, notice)
    ensures forall i :: 0 <= i < |next.outbox| ==> RowOk(next, next.outbox[i])
  {
    if notice.Some? {
      NoticesAfterWrite(cfg, db, notice.value, id, notice.value.eventType);
    }
    forall i | 0 <= i < |next.outbox| ensures RowOk(next, next.outbox[i]) {
      if i < |db.outbox| {
        assert next.outbox[i] == db.outbox[i] && RowOk(db, db.outbox[i]);
        var q := db.outbox[i].payload.paymentId;
        assert PaymentEvolves(db.payments[q], next.payments[q]);
      }
    }
  }

  /** Nothing but events, audit rows and annotations changed. */
  lemma PaymentsUntouched(cfg: Config, db: Database, next: Database)
    requires Inv(cfg, db) && Evolves(db, next)
    requires next.payments == db.payments && next.outbox == db.outbox
    requires UniqueIds(next.events)
    requires forall i :: 0 <= i < |next.events| ==>
               (i < |db.events| && next.events[i].owner == db.events[i].owner) || next.events[i].owner.None?
    ensures Inv(cfg, next)
  {
    forall other | other in next.payments ensures PaymentOk(cfg, next, other) {
      UntouchedPayment(cfg, db, next, other);
    }
    forall i | 0 <= i < |next.events| ensures ClaimOk(next, next.events[i]) {
      if i < |db.events| {
        assert ClaimOk(db, db.events[i]) && EventEvolves(db.events[i], next.events[i]);
      }
    }
    forall i | 0 <= i < |next.outbox| ensures RowOk(next, next.outbox[i]) {
      assert RowOk(db, db.outbox[i]);
    }
  }

  /** A change to one payment that leaves its amounts, its claims and its matched event alone. */
  ghost predicate Neutral(p: Payment, q: Payment) {
    && PaymentEvolves(p, q) && q.version > p.version
    && q.money == p.money && q.matched == p.matched
    && (EverMatched(q.status) <==> EverMatched(p.status))
    && q.confirmations <= q.terms.requiredConfirmations
    && (q.status.Confirmed? <==> q.confirmations == q.terms.requiredConfirmations)
    && (q.terminalAt.Some? <==> IsTerminal(q.status))
  }

  lemma SameEventsEvolve(db: Database, next: Database, id: string)
    requires next.events == db.events
    requires id in db.payments && id in next.payments && next.payments == db.payments[id := next.payments[id]]
    requires PaymentEvolves(db.payments[id], next.payments[id])
    requires db.outbox <= next.outbox && db.audit <= next.audit && db.annotations <= next.annotations
    ensures Evolves(db, next)
  {
    forall i, p | NewClaim(db, next, i, p) ensures false {}
  }

  lemma NeutralAmounts(cfg: Config, db: Database, next: Database, id: string)
    requires Inv(cfg, db) && next.events == db.events
    requires id in db.payments && id in next.payments && Neutral(db.payments[id], next.payments[id])
    ensures AmountsInOrder(cfg, next, id)
  {
    assert PaymentOk(cfg, db, id);
  }

  lemma NeutralChange(cfg: Config, db: Database, next: Database, id: string, notice: Option<Outbox.Payload>)
    requires Inv(cfg, db) && next.events == db.events
    requires id in db.payments && id in next.payments && next.payments == db.payments[id := next.payments[id]]
    requires db.outbox <= next.outbox && db.audit <= next.audit && db.annotations <= next.annotations
    requires Neutral(db.payments[id], next.payments[id])
    requires Announces(cfg, db, next, id, notice)
    ensures Evolves(db, next) && Inv(cfg, next)
  {
    SameEventsEvolve(db, next, id);
    NeutralAmounts(cfg, db, next, id);
    Reassemble(cfg, db, next, id, notice);
  }

  // ----- claims -----

  /** The claim totals after one event was claimed, against the total the claim commits. */
  lemma ClaimTotals(db: Database, event: Event, id: string)
    requires UniqueIds(db.events) && Claimable(db.events, event.capture.eventId, id)
    requires event.interpretation == Some(Accepted)
    requires EventEvolves(event, db.events[IndexOf(db.events, event.capture.eventId)])
    ensures
      var events := WithOwner(db.events, event.capture.eventId, id);
      var row := events[IndexOf(db.events, event.capture.eventId)];
      && TotalIncluding(events, event, id)
         == Total(CanonicalClaims, id, events) + (if row.canonical then 0 else Effective(row))
      && Total(CanonicalClaims, id, events) <= TotalIncluding(events, event, id) <= Total(AllClaims, id, events)
  {
    var i := IndexOf(db.events, event.capture.eventId);
    var events := WithOwner(db.events, event.capture.eventId, id);
    var row := events[i];
    if Includes(events, event.capture.eventId, id) {
      var j :| 0 <= j < |events| && events[j].capture.eventId == event.capture.eventId && events[j].owner == Some(id)
        && events[j].canonical;
      assert events[j].capture.eventId == db.events[j].capture.eventId;
    }
    assert Includes(events, event.capture.eventId, id) <==> row.canonical;
    var restored := events[i := row.(canonical := true)];
    TotalUpdate(CanonicalClaims, id, events, i, row.(canonical := true));
    TotalAtMost(CanonicalClaims, id, restored, AllClaims, events);
  }

  ghost predicate ClaimFacts(cfg: Config, db: Database, event: Event, id: string) {
    && Inv(cfg, db) && id in db.payments
    && event.interpretation == Some(Accepted) && RoutesTo(event, db.payments[id])
    && IndexOf(db.events, event.capture.eventId) < |db.events|
    && EventEvolves(event, db.events[IndexOf(db.events, event.capture.eventId)])
  }

  /** Events after a claim: one row gained this owner, everything else is as before. */
  lemma ClaimedEvents(cfg: Config, db: Database, next: Database, event: Event, id: string)
    requires ClaimFacts(cfg, db, event, id) && Claimable(db.events, event.capture.eventId, id)
    requires next.events == WithOwner(db.events, event.capture.eventId, id)
    requires id in next.payments && next.payments == db.payments[id := next.payments[id]]
    requires PaymentEvolves(db.payments[id], next.payments[id]) && next.payments[id].version > db.payments[id].version
    requires !IsTerminal(db.payments[id].status)
    requires db.outbox <= next.outbox && db.audit <= next.audit && db.annotations <= next.annotations
    ensures Evolves(db, next) && UniqueIds(next.events)
    ensures forall i :: 0 <= i < |next.events| ==>
              next.events[i].owner == db.events[i].owner || ClaimOk(next, next.events[i])
    ensures OwnsMatchedEvent(next.events, event.capture.eventId, id)
  {
    var k := IndexOf(db.events, event.capture.eventId);
    forall i | 0 <= i < |db.events| ensures EventEvolves(db.events[i], next.events[i]) {}
    forall i, p | NewClaim(db, next, i, p) ensures i == k && p == id {}
    IndexOfStable(db.events, next.events, event.capture.eventId);
  }

  /** A claim commit keeps the invariant as soon as its new payment row is in order. */
  lemma ClaimKeeps(cfg: Config, db: Database, next: Database, event: Event, id: string, notice: Option<Outbox.Payload>)
    requires ClaimFacts(cfg, db, event, id) && Claimable(db.events, event.capture.eventId, id)
    requires next.events == WithOwner(db.events, event.capture.eventId, id)
    requires id in next.payments && next.payments == db.payments[id := next.payments[id]]
    requires !IsTerminal(db.payments[id].status)
    requires PaymentEvolves(db.payments[id], next.payments[id]) && next.payments[id].version > db.payments[id].version
    requires db.outbox <= next.outbox && db.audit <= next.audit && db.annotations <= next.annotations
    requires next.payments[id].matched == Some(LinkTo(event)) || next.payments[id].matched == db.payments[id].matched
    requires AmountsOk(cfg, next.payments[id], Total(AllClaims, id, next.events),
                       Total(CanonicalClaims, id, next.events), Exact(next.events, id))
    requires Announces(cfg, db, next, id, notice)
    ensures Evolves(db, next) && Inv(cfg, next)
  {
    assert PaymentOk(cfg, db, id);
    ClaimedEvents(cfg, db, next, event, id);
    var q := next.payments[id];
    if q.matched.Some? && q.matched != Some(LinkTo(event)) {
      MatchedEventStable(db, next, q.matched.value.eventId, id);
    }
    Reassemble(cfg, db, next, id, notice);
  }

  /** The scalar content of the three claim commits. */
  lemma ClaimAmounts(cfg: Config, p: Payment, event: Event, total: nat, replacement: bool, claimed0: nat,
      canonical0: nat, exact0: bool, claimed: nat, canonical: nat, exact: bool)
    requires AmountsOk(cfg, p, claimed0, canonical0, exact0) && !IsTerminal(p.status)
    requires canonical <= total <= claimed
    ensures p.status.Pending? && total < p.terms.amount ==>
              AmountsOk(cfg, PartialPayment(p, total), claimed, canonical, exact)
    ensures total >= p.terms.amount && (cfg.overpaymentAllow || total == p.terms.amount) ==>
              if p.status.Pending? then AmountsOk(cfg, MatchedPayment(p, event, total), claimed, canonical, exact)
              else AmountsOk(cfg, LinkedPayment(p, event, total, replacement), claimed, canonical, exact)
  {
  }

  lemma ExpiryAmounts(cfg: Config, p: Payment, total: nat, now: int, claimed: nat, canonical: nat, exact: bool)
    requires AmountsOk(cfg, p, claimed, canonical, exact) && p.status.Pending?
    requires canonical <= total <= claimed && total < p.terms.amount
    ensures AmountsOk(cfg, ExpiredPayment(p, total, now), claimed, canonical, exact)
  {
  }

  function ExpiryPayload(p: Payment, total: nat): Outbox.Payload {
    PayloadFor(p.(money := p.money.(partialAmountReceived := Some(total))), Expired, Outbox.PaymentExpired)
  }

  lemma ExpiryInOrder(cfg: Config, db: Database, id: string, total: nat, now: int, eventId: Option<string>)
    requires Inv(cfg, db) && id in db.payments && db.payments[id].status.Pending?
    requires total < db.payments[id].terms.amount
    requires Total(CanonicalClaims, id, db.events) <= total <= Total(AllClaims, id, db.events)
    ensures
      var next := ExpireNow(cfg, db, db.payments[id], total, now, eventId);
      && id in next.payments && next.payments == db.payments[id := next.payments[id]]
      && AmountsInOrder(cfg, next, id)
  {
    var p := db.payments[id];
    assert PaymentOk(cfg, db, id);
    ExpiryAmounts(cfg, p, total, now, Total(AllClaims, id, db.events), Total(CanonicalClaims, id, db.events),
        Exact(db.events, id));
  }

  lemma ExpiryMoves(cfg: Config, db: Database, id: string, total: nat, now: int, eventId: Option<string>)
    requires Inv(cfg, db) && id in db.payments && db.payments[id].status.Pending?
    requires total < db.payments[id].terms.amount
    requires Total(CanonicalClaims, id, db.events) <= total <= Total(AllClaims, id, db.events)
    ensures OnePaymentMoves(cfg, db, ExpireNow(cfg, db, db.payments[id], total, now, eventId), id,
                            Some(ExpiryPayload(db.payments[id], total)))
  {
    KeyedById(cfg, db, id);
    ExpiryInOrder(cfg, db, id, total, now, eventId);
    ExpiryEffect(cfg, db, id, total, now, eventId);
    var next := ExpireNow(cfg, db, db.payments[id], total, now, eventId);
    AnnouncedExpiry(cfg, db, next, id, ExpiryPayload(db.payments[id], total));
    assert forall i :: 0 <= i < |next.events| ==> next.events[i].owner == db.events[i].owner;
  }

  lemma ExpiryEffect(cfg: Config, db: Database, id: string, total: nat, now: int, eventId: Option<string>)
    requires id in db.payments && db.payments[id].terms.paymentId == id
    ensures
      var next := ExpireNow(cfg, db, db.payments[id], total, now, eventId);
      && next.events == db.events && next.payments == db.payments[id := ExpiredPayment(db.payments[id], total, now)]
      && next.outbox == Notify(cfg, db.outbox, ExpiryPayload(db.payments[id], total))
  {
  }

  lemma AnnouncedExpiry(cfg: Config, db: Database, next: Database, id: string, payload: Outbox.Payload)
    requires id in db.payments && db.payments[id].status.Pending?
    requires id in next.payments && next.payments[id].status.Expired?
    requires next.outbox == Notify(cfg, db.outbox, payload) && payload.eventType.PaymentExpired?
    requires payload.paymentId == id && payload.paymentVersion == db.payments[id].version
    ensures Announces(cfg, db, next, id, Some(payload))
  {
  }

  /** Both expiry paths, for any claim total read while the payment's version stood. */
  lemma ExpiryKeeps(cfg: Config, db: Database, id: string, total: nat, now: int, eventId: Option<string>)
    requires Inv(cfg, db) && id in db.payments && db.payments[id].status.Pending?
    requires total < db.payments[id].terms.amount
    requires Total(CanonicalClaims, id, db.events) <= total <= Total(AllClaims, id, db.events)
    ensures Evolves(db, ExpireNow(cfg, db, db.payments[id], total, now, eventId))
    ensures Inv(cfg, ExpireNow(cfg, db, db.payments[id], total, now, eventId))
  {
    var next := ExpireNow(cfg, db, db.payments[id], total, now, eventId);
    ExpiryInOrder(cfg, db, id, total, now, eventId);
    SameEventsEvolve(db, next, id);
    ExpiryMoves(cfg, db, id, total, now, eventId);
    Reassemble(cfg, db, next, id, Some(ExpiryPayload(db.payments[id], total)));
  }

  /** An overdue pending payment met by a late deposit always expires: it never holds a qualifying claim set. */
  lemma LateDepositExpires(cfg: Config, db: Database, event: Event, id: string, now: int)
    requires Inv(cfg, db) && id in db.payments
    requires db.payments[id].status.Pending? && now > db.payments[id].terms.expiresAt
    ensures
      var p, total := db.payments[id], Total(CanonicalClaims, id, db.events);
      && total < p.terms.amount
      && ExpireInClaim(cfg, db, event, p, now).db == ExpireNow(cfg, db, p, total, now, Some(event.capture.eventId))
  {
    assert PaymentOk(cfg, db, id);
  }

  lemma LateDepositKeeps(cfg: Config, db: Database, event: Event, id: string, now: int)
    requires Inv(cfg, db) && id in db.payments
    requires db.payments[id].status.Pending? && now > db.payments[id].terms.expiresAt
    ensures
      var next := ExpireInClaim(cfg, db, event, db.payments[id], now).db;
      Evolves(db, next) && Inv(cfg, next)
  {
    LateDepositExpires(cfg, db, event, id, now);
    TotalAtMost(CanonicalClaims, id, db.events, AllClaims, db.events);
    ExpiryKeeps(cfg, db, id, Total(CanonicalClaims, id, db.events), now, Some(event.capture.eventId));
  }

  /** The claim transaction, whatever it routes to. */
  lemma ClaimTransactionKeeps(cfg: Config, db: Database, event: Event, id: string, now: int)
    requires ClaimFacts(cfg, db, event, id)
    ensures
      var outcome := ApplyClaim(cfg, db, event, id, now);
      outcome.Committed? ==> Evolves(db, outcome.db) && Inv(cfg, outcome.db)
  {
    var p := db.payments[id];
    EvolvesReflexive(db);
    if p.status.Pending? && now > p.terms.expiresAt {
      LateDepositKeeps(cfg, db, event, id, now);
    } else if !IsTerminal(p.status) && Claimable(db.events, event.capture.eventId, id) {
      ClaimingKeeps(cfg, db, event, id, now);
    }
  }

  lemma ClaimingKeeps(cfg: Config, db: Database, event: Event, id: string, now: int)
    requires ClaimFacts(cfg, db, event, id) && Claimable(db.events, event.capture.eventId, id)
    requires !IsTerminal(db.payments[id].status)
    requires db.payments[id].status.Pending? ==> now <= db.payments[id].terms.expiresAt
    ensures
      var outcome := ApplyClaim(cfg, db, event, id, now);
      outcome.Committed? ==> Evolves(db, outcome.db) && Inv(cfg, outcome.db)
  {
    var p := db.payments[id];
    var outcome := ApplyClaim(cfg, db, event, id, now);
    if outcome.Committed? {
      var total := TotalIncluding(WithOwner(db.events, event.capture.eventId, id), event, id);
      if total < p.terms.amount {
        PartialKeeps(cfg, db, outcome.db, event, id, total);
      } else if p.status.Pending? {
        MatchKeeps(cfg, db, event, id, total);
      } else {
        LinkKeeps(cfg, db, event, id, total);
      }
    }
  }

  lemma AmountsAfterClaim(cfg: Config, db: Database, event: Event, id: string, total: nat, replacement: bool)
    requires ClaimFacts(cfg, db, event, id) && Claimable(db.events, event.capture.eventId, id)
    requires !IsTerminal(db.payments[id].status)
    requires total == TotalIncluding(WithOwner(db.events, event.capture.eventId, id), event, id)
    ensures
      var p, events := db.payments[id], WithOwner(db.events, event.capture.eventId, id);
      var claimed, canonical, exact :=
        Total(AllClaims, id, events), Total(CanonicalClaims, id, events), Exact(events, id);
      && (p.status.Pending? && total < p.terms.amount ==>
            AmountsOk(cfg, PartialPayment(p, total), claimed, canonical, exact))
      && (total >= p.terms.amount && (cfg.overpaymentAllow || total == p.terms.amount) ==>
            if p.status.Pending? then AmountsOk(cfg, MatchedPayment(p, event, total), claimed, canonical, exact)
            else AmountsOk(cfg, LinkedPayment(p, event, total, replacement), claimed, canonical, exact))
  {
    var p, events := db.payments[id], WithOwner(db.events, event.capture.eventId, id);
    assert PaymentOk(cfg, db, id);
    ClaimTotals(db, event, id);
    ClaimAmounts(cfg, p, event, total, replacement,
                 Total(AllClaims, id, db.events), Total(CanonicalClaims, id, db.events), Exact(db.events, id),
                 Total(AllClaims, id, events), Total(CanonicalClaims, id, events), Exact(events, id));
  }

  lemma PartialKeeps(cfg: Config, db: Database, next: Database, event: Event, id: string, total: nat)
    requires ClaimFacts(cfg, db, event, id) && Claimable(db.events, event.capture.eventId, id)
    requires db.payments[id].status.Pending?
    requires total == TotalIncluding(WithOwner(db.events, event.capture.eventId, id), event, id)
    requires total < db.payments[id].terms.amount
    requires next.events == WithOwner(db.events, event.capture.eventId, id) && next.outbox == db.outbox
    requires next.payments == db.payments[id := PartialPayment(db.payments[id], total)]
    requires db.audit <= next.audit && next.annotations == db.annotations
    ensures Evolves(db, next) && Inv(cfg, next)
  {
    AmountsAfterClaim(cfg, db, event, id, total, false);
    ClaimKeeps(cfg, db, next, event, id, None);
  }

  function MatchPayload(p: Payment, event: Event, total: nat): Outbox.Payload {
    PayloadFor(MatchedPayment(p, event, total), Matched, Outbox.PaymentMatched).(paymentVersion := p.version)
  }

  lemma MatchEffect(cfg: Config, db: Database, events: seq<Event>, event: Event, id: string, total: nat)
    requires id in db.payments && db.payments[id].terms.paymentId == id
    ensures
      var next := MatchInClaim(cfg, db, events, event, db.payments[id], total).db;
      && next.events == events
      && next.payments == db.payments[id := MatchedPayment(db.payments[id], event, total)]
      && next.outbox == Notify(cfg, db.outbox, MatchPayload(db.payments[id], event, total))
      && db.audit <= next.audit && next.annotations == db.annotations
  {
  }

  lemma AnnouncedMatch(cfg: Config, db: Database, next: Database, id: string, payload: Outbox.Payload)
    requires Inv(cfg, db) && id in db.payments && db.payments[id].status.Pending?
    requires id in next.payments && next.payments[id].status.Matched?
    requires next.outbox == Notify(cfg, db.outbox, payload) && payload.eventType.PaymentMatched?
    requires payload.paymentId == id && payload.paymentVersion == db.payments[id].version
    requires next.payments[id].version > db.payments[id].version
    ensures db.outbox <= next.outbox && Announces(cfg, db, next, id, Some(payload))
  {
    NoticesAfterWrite(cfg, db, payload, id, Outbox.PaymentMatched);
  }

  lemma MatchAnnounces(cfg: Config, db: Database, events: seq<Event>, event: Event, id: string, total: nat)
    requires Inv(cfg, db) && id in db.payments && db.payments[id].status.Pending?
    ensures
      var next := MatchInClaim(cfg, db, events, event, db.payments[id], total).db;
      && next.events == events
      && id in next.payments && next.payments == db.payments[id := next.payments[id]]
      && next.payments[id] == MatchedPayment(db.payments[id], event, total)
      && db.outbox <= next.outbox && db.audit <= next.audit && next.annotations == db.annotations
      && Announces(cfg, db, next, id, Some(MatchPayload(db.payments[id], event, total)))
  {
    KeyedById(cfg, db, id);
    MatchEffect(cfg, db, events, event, id, total);
    var next := MatchInClaim(cfg, db, events, event, db.payments[id], total).db;
    AnnouncedMatch(cfg, db, next, id, MatchPayload(db.payments[id], event, total));
  }

  lemma MatchKeeps(cfg: Config, db: Database, event: Event, id: string, total: nat)
    requires ClaimFacts(cfg, db, event, id) && Claimable(db.events, event.capture.eventId, id)
    requires db.payments[id].status.Pending?
    requires total == TotalIncluding(WithOwner(db.events, event.capture.eventId, id), event, id)
    requires total >= db.payments[id].terms.amount
    requires cfg.overpaymentAllow || total == db.payments[id].terms.amount
    ensures
      var next :=
        MatchInClaim(cfg, db, WithOwner(db.events, event.capture.eventId, id), event, db.payments[id], total).db;
      Evolves(db, next) && Inv(cfg, next)
  {
    var p, events := db.payments[id], WithOwner(db.events, event.capture.eventId, id);
    AmountsAfterClaim(cfg, db, event, id, total, false);
    MatchAnnounces(cfg, db, events, event, id, total);
    ClaimKeeps(cfg, db, MatchInClaim(cfg, db, events, event, p, total).db, event, id,
        Some(MatchPayload(p, event, total)));
  }

  lemma LinkAnnounces(cfg: Config, db: Database, events: seq<Event>, event: Event, id: string, total: nat)
    requires Inv(cfg, db) && id in db.payments
    ensures
      var p := db.payments[id];
      var next := LinkInClaim(db, events, event, p, total).db;
      && next.events == events
      && id in next.payments && next.payments == db.payments[id := next.payments[id]]
      && next.payments[id] == LinkedPayment(p, event, total, NeedsReplacement(events, p))
      && next.outbox == db.outbox && db.audit <= next.audit && next.annotations == db.annotations
      && Announces(cfg, db, next, id, None)
  {
    KeyedById(cfg, db, id);
  }

  lemma LinkKeeps(cfg: Config, db: Database, event: Event, id: string, total: nat)
    requires ClaimFacts(cfg, db, event, id) && Claimable(db.events, event.capture.eventId, id)
    requires db.payments[id].status.Matched? || db.payments[id].status.Confirming?
    requires total == TotalIncluding(WithOwner(db.events, event.capture.eventId, id), event, id)
    requires total >= db.payments[id].terms.amount
    requires cfg.overpaymentAllow || total == db.payments[id].terms.amount
    ensures
      var next := LinkInClaim(db, WithOwner(db.events, event.capture.eventId, id), event, db.payments[id], total).db;
      Evolves(db, next) && Inv(cfg, next)
  {
    var p, events := db.payments[id], WithOwner(db.events, event.capture.eventId, id);
    AmountsAfterClaim(cfg, db, event, id, total, NeedsReplacement(events, p));
    LinkAnnounces(cfg, db, events, event, id, total);
    ClaimKeeps(cfg, db, LinkInClaim(db, events, event, p, total).db, event, id, None);
  }
}
