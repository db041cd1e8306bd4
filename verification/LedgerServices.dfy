/**
 The payment services as they run: collections that transactions copy, change and
 commit, and the service methods over them, each proved to perform exactly the commit
 functions the run theorems are about.
 */
module LedgerServices {
  import opened Common
  import opened StateMachine
  import opened Ledger
  import opened Commits
  import opened LedgerRuns
  import opened LedgerTheorems
  import Outbox

  /** The stored collections. A session is a private copy, adopted on commit and dropped on abort. */
  class Collections {
    var payments: map<string, Payment>
    var events: seq<Event>
    var outbox: seq<Outbox.Row>
    var audit: seq<AuditRow>
    var annotations: set<Annotation>

    ghost function Db(): Database
      reads this
    {
      Database(payments, events, outbox, audit, annotations)
    }

    constructor Session(store: Collections)
      ensures Db() == store.Db()
    {
      payments, events, outbox := store.payments, store.events, store.outbox;
      audit, annotations := store.audit, store.annotations;
    }

    method Adopt(session: Collections)
      modifies this
      ensures Db() == session.Db()
    {
      payments, events, outbox := session.payments, session.events, session.outbox;
      audit, annotations := session.audit, session.annotations;
    }

    /** The unique annotation id makes a repeated annotation a no-op. */
    method Annotate(note: Annotation)
      modifies this`annotations
      ensures annotations == old(annotations) + {note}
    {
      annotations := annotations + {note};
    }

    method AppendAudit(row: AuditRow)
      modifies this`audit
      ensures audit == old(audit) + [row]
    {
      audit := audit + [row];
    }

    /** A dispatcher-configured service writes the outbox in the same session. */
    method NotifyIn(cfg: Config, payload: Outbox.Payload)
      modifies this`outbox
      ensures outbox == Notify(cfg, old(outbox), payload)
    {
      if cfg.dispatcher && !Outbox.HasKey(outbox, Outbox.KeyOf(payload)) {
        outbox := outbox + [Outbox.Row(Outbox.KeyOf(payload), payload)];
      }
    }
  }

  datatype ClaimResult = Done(action: MatchAction, followUps: set<Annotation>) | RolledBack(reason: AbortReason)

  /** The store after a claim attempt, and what its caller learns. */
  ghost predicate Performed(outcome: ClaimOutcome, before: Database, after: Database, result: ClaimResult) {
    match outcome
    case Committed(db, action, followUps) => after == db && result == Done(action, followUps)
    case Aborted(reason) => after == before && result == RolledBack(reason)
  }

  /** The deposit went to the payment's address on its chain. */
  predicate SentTo(event: Event, p: Payment) {
    p.terms.chain == event.capture.chain && p.terms.address == event.capture.toAddress
  }

  function Annotated(db: Database, annotation: Annotation): Database {
    db.(annotations := db.annotations + {annotation})
  }

  /** What matching does with a deposit sent to this payment's address. */
  ghost predicate Handled(cfg: Config, db: Database, event: Event, id: string, now: int, after: Database,
      action: MatchAction) {
    && id in db.payments && SentTo(event, db.payments[id])
    && var p, eventId := db.payments[id], event.capture.eventId;
       if event.token != Some(p.terms.token) then
         action == OrphanAnnotated && after == Annotated(db, OnEvent(eventId, Orphan))
       else match Commits.ApplyClaim(cfg, db, event, id, now)
         case Committed(next, done, followUps) =>
           action == done && after == next.(annotations := next.annotations + followUps)
         case Aborted(ToleranceExceeded) => action == Skipped && after == Annotated(db, OnEvent(eventId, Excess))
         case Aborted(_) =>
           && action == Skipped
           && after == db.(audit := db.audit + [AuditRow(id, TransitionRejected, p.status, p.status, Some(eventId))])
  }

  class PaymentMatchingService {
    const cfg: Config

    constructor (cfg: Config)
      ensures this.cfg == cfg
    {
      this.cfg := cfg;
    }

    /** The conditional claim: a loser re-reads the owner instead of overwriting it. */
    method ClaimEvent(session: Collections, eventId: string, paymentId: string) returns (claimed: bool)
      modifies session`events
      ensures claimed == Claimable(old(session.events), eventId, paymentId)
      ensures session.events == if claimed then WithOwner(old(session.events), eventId, paymentId)
        else old(session.events)
    {
      var i := IndexOf(session.events, eventId);
      if i < |session.events| && session.events[i].owner.None? {
        session.events := session.events[i := session.events[i].(owner := Some(paymentId))];
        return true;
      }
      if i == |session.events| {
        return false;
      }
      assert session.events[i].owner == Some(paymentId) ==>
        session.events[i := session.events[i].(owner := Some(paymentId))] == session.events;
      return session.events[i].owner == Some(paymentId);
    }

    method CumulativeIncluding(session: Collections, event: Event, paymentId: string) returns (total: nat)
      ensures total == TotalIncluding(session.events, event, paymentId)
    {
      var includesEvent := false;
      total := 0;
      for i := 0 to |session.events|
        invariant total == Total(CanonicalClaims, paymentId, session.events[..i])
        invariant includesEvent <==> Includes(session.events[..i], event.capture.eventId, paymentId)
      {
        var claim := session.events[i];
        if claim.owner == Some(paymentId) && claim.canonical {
          if claim.capture.eventId == event.capture.eventId {
            includesEvent := true;
          }
          total := total + Effective(claim);
        }
        assert session.events[..i + 1] == session.events[..i] + [claim];
        TotalAppend(CanonicalClaims, paymentId, session.events[..i], claim);
        IncludesAppend(session.events[..i], claim, event.capture.eventId, paymentId);
      }
      assert session.events[..|session.events|] == session.events;
      if !includesEvent {
        total := total + Effective(event);
      }
    }

    /** One claim transaction: session-scoped reads, conditional writes, commit or roll back as a whole. */
    method ApplyClaim(store: Collections, event: Event, paymentId: string, now: int) returns (result: ClaimResult)
      requires forall id :: id in store.payments ==> store.payments[id].terms.paymentId == id
      modifies store
      ensures Performed(Commits.ApplyClaim(cfg, old(store.Db()), event, paymentId, now), old(store.Db()), store.Db(),
          result)
    {
      var session := new Collections.Session(store);
      if paymentId !in session.payments {
        return RolledBack(PaymentTerminal);
      }
      var payment := session.payments[paymentId];
      if payment.status.Confirmed? || payment.status.Expired? || payment.status.Failed? {
        return Done(LateArrivalAnnotated, {OnEvent(event.capture.eventId, Late)});
      }
      if payment.status.Pending? && now > payment.terms.expiresAt {
        result := ExpireInTransaction(session, event, payment, now);
        store.Adopt(session);
        return;
      }
      var claimed := ClaimEvent(session, event.capture.eventId, paymentId);
      if !claimed {
        return Done(Skipped, {});
      }
      var cumulative := CumulativeIncluding(session, event, paymentId);
      if cumulative < payment.terms.amount {
        if !payment.status.Pending? {
          return RolledBack(PaymentChangedConcurrently);
        }
        session.payments := session.payments[paymentId := PartialPayment(payment, cumulative)];
        session.AppendAudit(AuditRow(paymentId, PartialAccumulated, Pending, Pending, Some(event.capture.eventId)));
        store.Adopt(session);
        return Done(ClaimedPartial, {});
      }
      if !cfg.overpaymentAllow && cumulative > payment.terms.amount {
        return RolledBack(ToleranceExceeded);
      }
      if payment.status.Pending? {
        var evaluation := Evaluate(GuardFor(cfg, payment, Matched, now, 0, true, true, true));
        if evaluation.Rejected? {
          return RolledBack(PaymentChangedConcurrently);
        }
        result := MatchInTransaction(session, event, payment, cumulative);
      } else {
        result := LinkInTransaction(session, event, payment, cumulative);
      }
      store.Adopt(session);
    }

    method MatchInTransaction(session: Collections, event: Event, payment: Payment, cumulative: nat)
      returns (result: ClaimResult)
      modifies session
      ensures
        var outcome := MatchInClaim(cfg, old(session.Db()), old(session.events), event, payment, cumulative);
        session.Db() == outcome.db && result == Done(outcome.action, outcome.followUps)
    {
      var matched := MatchedPayment(payment, event, cumulative);
      session.payments := session.payments[payment.terms.paymentId := matched];
      session.AppendAudit(AuditRow(payment.terms.paymentId, PaymentMatched, Pending, Matched,
          Some(event.capture.eventId)));
      session.NotifyIn(cfg, PayloadFor(matched, Matched, Outbox.PaymentMatched).(paymentVersion := payment.version));
      var excess := ExcessOver(cumulative, payment.terms.amount);
      result := Done(ClaimedMatched, if excess == 0 then {} else {OnPayment(payment.terms.paymentId, Excess)});
    }

    method LinkInTransaction(session: Collections, event: Event, payment: Payment, cumulative: nat)
      returns (result: ClaimResult)
      modifies session
      ensures
        var outcome := LinkInClaim(old(session.Db()), old(session.events), event, payment, cumulative);
        session.Db() == outcome.db && result == Done(outcome.action, outcome.followUps)
    {
      var replacement := false;
      if payment.matched.Some? {
        var previous := IndexOf(session.events, payment.matched.value.eventId);
        replacement := previous == |session.events| || !session.events[previous].canonical;
      }
      var linked := LinkedPayment(payment, event, cumulative, replacement);
      session.payments := session.payments[payment.terms.paymentId := linked];
      var action := if replacement then ReplacementLinkedRow else ExcessLinkedRow;
      session.AppendAudit(AuditRow(payment.terms.paymentId, action, payment.status, payment.status,
                                   Some(event.capture.eventId)));
      if replacement {
        return Done(ReplacementLinked, {});
      }
      if cumulative > payment.terms.amount {
        return Done(ExcessLinked, {OnPayment(payment.terms.paymentId, Excess)});
      }
      return Done(ExcessLinked, {});
    }

    method ExpireInTransaction(session: Collections, event: Event, payment: Payment, now: int)
        returns (result: ClaimResult)
      modifies session
      ensures
        var outcome := ExpireInClaim(cfg, old(session.Db()), event, payment, now);
        session.Db() == outcome.db && result == Done(outcome.action, outcome.followUps)
    {
      var total := CanonicalTotal(session.events, payment.terms.paymentId);
      var evaluation := Evaluate(GuardFor(cfg, payment, Expired, now, 0, true, true, total >= payment.terms.amount));
      if evaluation.Legal? {
        WriteExpiry(cfg, session, payment, total, now, Some(event.capture.eventId));
      }
      var followUps := {OnEvent(event.capture.eventId, Late)};
      if 0 < total < payment.terms.amount {
        followUps := followUps + {OnPayment(payment.terms.paymentId, Partial)};
      }
      result := Done(LateArrivalAnnotated, followUps);
    }

    /**
     Matching one event. Money is never dropped without a trace: an accepted canonical
     deposit ends up owned by a payment, annotated for review, or rejected with an audit
     row while the queue retries; and a claim is by a payment the deposit was sent to.
     */
    method MatchEvent(store: Collections, eventId: string, now: int) returns (action: MatchAction)
      requires forall id :: id in store.payments ==> store.payments[id].terms.paymentId == id
      requires IndexOf(store.events, eventId) < |store.events|
      modifies store
      ensures |store.events| == |old(store.events)|
      ensures
        var row := IndexOf(old(store.events), eventId);
        var event := old(store.events)[row];
        if event.interpretation != Some(Accepted) || !event.canonical then
          action == Skipped && store.Db() == old(store.Db())
        else
          || store.events[row].owner.Some?
          || OnEvent(eventId, Orphan) in store.annotations
          || OnEvent(eventId, Late) in store.annotations
          || OnEvent(eventId, Excess) in store.annotations
          || (|store.audit| == |old(store.audit)| + 1 && store.audit[|old(store.audit)|].action == TransitionRejected)
      ensures
        var row := IndexOf(old(store.events), eventId);
        IsClaim(action) ==>
          && store.events[row].owner.Some?
          && store.events[row].owner.value in old(store.payments)
          && RoutesTo(old(store.events)[row], old(store.payments)[store.events[row].owner.value])
      ensures
        var event := old(store.events)[IndexOf(old(store.events), eventId)];
        event.interpretation == Some(Accepted) && event.canonical ==>
          if forall id :: id in old(store.payments) ==> !SentTo(event, old(store.payments)[id]) then
            action == OrphanAnnotated && store.Db() == Annotated(old(store.Db()), OnEvent(eventId, Orphan))
          else exists id :: Handled(cfg, old(store.Db()), event, id, now, store.Db(), action)
    {
      var event := store.events[IndexOf(store.events, eventId)];
      if event.interpretation != Some(Accepted) || !event.canonical {
        return Skipped;
      }
      ghost var before := store.Db();
      if paymentId: string :| (paymentId in store.payments && SentTo(event, store.payments[paymentId])) {
        var payment := store.payments[paymentId];
        if Some(payment.terms.token) != event.token {
          store.Annotate(OnEvent(eventId, Orphan));
          assert Handled(cfg, before, event, paymentId, now, store.Db(), OrphanAnnotated);
          return OrphanAnnotated;
        }
        var result := ApplyClaim(store, event, paymentId, now);
        ClaimLeavesTrace(cfg, before, event, paymentId, now);
        match result {
          case RolledBack(reason) =>
            if reason.ToleranceExceeded? {
              store.Annotate(OnEvent(eventId, Excess));
            } else {
              store.AppendAudit(AuditRow(paymentId, TransitionRejected, payment.status, payment.status, Some(eventId)));
            }
            assert Handled(cfg, before, event, paymentId, now, store.Db(), Skipped);
            return Skipped;
          case Done(done, followUps) =>
            store.annotations := store.annotations + followUps;
            assert Handled(cfg, before, event, paymentId, now, store.Db(), done);
            return done;
        }
      } else {
        store.Annotate(OnEvent(eventId, Orphan));
        return OrphanAnnotated;
      }
    }
  }

  lemma IncludesAppend(front: seq<Event>, e: Event, eventId: string, paymentId: string)
    ensures Includes(front + [e], eventId, paymentId)
       <==> Includes(front, eventId, paymentId)
            || (e.capture.eventId == eventId && e.owner == Some(paymentId) && e.canonical)
  {
    var all := front + [e];
    if Includes(front, eventId, paymentId) {
      var i :| 0 <= i < |front| && front[i].capture.eventId == eventId && front[i].owner == Some(paymentId)
        && front[i].canonical;
      assert all[i] == front[i];
    }
    assert all[|front|] == e;
  }

  /** A claim transaction that commits leaves its event owned, or asks for a late annotation. */
  lemma ClaimLeavesTrace(cfg: Config, db: Database, event: Event, paymentId: string, now: int)
    requires IndexOf(db.events, event.capture.eventId) < |db.events|
    requires paymentId in db.payments && db.payments[paymentId].terms.paymentId == paymentId
    ensures
      var outcome := Commits.ApplyClaim(cfg, db, event, paymentId, now);
      var row := IndexOf(db.events, event.capture.eventId);
      outcome.Committed? ==>
        && |outcome.db.events| == |db.events|
        && (OnEvent(event.capture.eventId, Late) in outcome.followUps || outcome.db.events[row].owner.Some?)
        && (IsClaim(outcome.action) ==> outcome.db.events[row].owner == Some(paymentId))
  {
    ClaimShape(cfg, db, event, paymentId, now);
  }

  /** The claim total both expiry paths and the sweep add up. */
  method CanonicalTotal(events: seq<Event>, paymentId: string) returns (total: nat)
    ensures total == Total(CanonicalClaims, paymentId, events)
  {
    total := 0;
    for i := 0 to |events|
      invariant total == Total(CanonicalClaims, paymentId, events[..i])
    {
      if events[i].owner == Some(paymentId) && events[i].canonical {
        total := total + Effective(events[i]);
      }
      assert events[..i + 1] == events[..i] + [events[i]];
      TotalAppend(CanonicalClaims, paymentId, events[..i], events[i]);
    }
    assert events[..|events|] == events;
  }

  method WriteExpiry(cfg: Config, session: Collections, payment: Payment, total: nat, now: int, eventId: Option<string>)
    modifies session
    ensures session.Db() == ExpireNow(cfg, old(session.Db()), payment, total, now, eventId)
  {
    session.payments := session.payments[payment.terms.paymentId := ExpiredPayment(payment, total, now)];
    session.AppendAudit(ExpiryRow(payment, eventId));
    session.NotifyIn(cfg, PayloadFor(payment.(money := payment.money.(partialAmountReceived := Some(total))), Expired,
        Outbox.PaymentExpired));
  }
}
