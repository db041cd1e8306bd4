/**
 The scheduler's expiry sweep, the confirmation worker and the payment half of reorg
 resolution as methods over the stored collections.
 */
module LedgerWorkers {
  import opened Common
  import opened StateMachine
  import opened Ledger
  import opened Commits
  import opened LedgerRuns
  import opened LedgerServices
  import Outbox

  // ----- scheduler-service.ts -----

  predicate Due(p: Payment, now: int) {
    p.status.Pending? && p.terms.expiresAt < now
  }

  function DueIds(payments: map<string, Payment>, now: int): set<string> {
    set id | id in payments && Due(payments[id], now)
  }

  /** What one uninterrupted sweep turns a due payment into. */
  function Swept(events: seq<Event>, p: Payment, now: int): Payment {
    var total := Total(CanonicalClaims, p.terms.paymentId, events);
    if total < p.terms.amount then ExpiredPayment(p, total, now) else p
  }

  function Changed(before: map<string, Payment>, after: map<string, Payment>): set<string>
    requires before.Keys == after.Keys
  {
    set id | id in before && after[id] != before[id]
  }

  lemma ChangedByOne(before: map<string, Payment>, was: map<string, Payment>, id: string, p: Payment)
    requires before.Keys == was.Keys && id in before && was[id] == before[id]
    ensures |Changed(before, was[id := p])| == |Changed(before, was)| + if p != before[id] then 1 else 0
  {
    assert id !in Changed(before, was);
    assert Changed(before, was[id := p]) == Changed(before, was) + if p != before[id] then {id} else {};
  }

  class SchedulerService {
    const cfg: Config

    constructor (cfg: Config)
      ensures this.cfg == cfg
    {
      this.cfg := cfg;
    }

    /** The query behind the sweep: at most `limit` due payments, all of them when they are no more. */
    method FindDue(store: Collections, now: int, limit: nat) returns (due: seq<Payment>)
      requires forall id :: id in store.payments ==> store.payments[id].terms.paymentId == id
      ensures |due| <= limit
      ensures forall i :: 0 <= i < |due| ==>
                due[i].terms.paymentId in DueIds(store.payments, now)
                  && store.payments[due[i].terms.paymentId] == due[i]
      ensures forall i, j :: 0 <= i < j < |due| ==> due[i].terms.paymentId != due[j].terms.paymentId
      ensures |DueIds(store.payments, now)| <= limit ==>
                forall id :: id in DueIds(store.payments, now) ==>
                  exists i :: 0 <= i < |due| && due[i].terms.paymentId == id
    {
      due := [];
      var remaining := DueIds(store.payments, now);
      while |due| < limit && remaining != {}
        invariant |due| <= limit
        invariant remaining <= DueIds(store.payments, now)
        invariant |due| + |remaining| == |DueIds(store.payments, now)|
        invariant forall i :: 0 <= i < |due| ==>
                    due[i].terms.paymentId in DueIds(store.payments, now) && due[i].terms.paymentId !in remaining
                    && store.payments[due[i].terms.paymentId] == due[i]
        invariant forall i, j :: 0 <= i < j < |due| ==> due[i].terms.paymentId != due[j].terms.paymentId
        invariant forall id :: id in DueIds(store.payments, now) ==>
                    id in remaining || exists i :: 0 <= i < |due| && due[i].terms.paymentId == id
        decreases remaining
      {
        var id :| id in remaining;
        ghost var was := due;
        due := due + [store.payments[id]];
        assert due[|was|].terms.paymentId == id;
        assert forall i :: 0 <= i < |was| ==> due[i] == was[i];
        remaining := remaining - {id};
      }
    }

    /** One due payment: total and guard outside the transaction, then the version-conditional write. */
    method ExpireOne(store: Collections, read: Payment, now: int) returns (applied: bool)
      modifies store
      ensures
        var total := Total(CanonicalClaims, read.terms.paymentId, old(store.events));
        var next := SweepExpiry(cfg, old(store.Db()), read, total, now);
        && store.events == old(store.events) && store.payments == next.payments
        && store.outbox == next.outbox && store.audit == next.audit
        && store.annotations == old(store.annotations)
             + (if Due(read, now) && 0 < total < read.terms.amount then {OnPayment(read.terms.paymentId, Partial)}
                else {})
        && (applied <==> next != old(store.Db()))
    {
      var total := CanonicalTotal(store.events, read.terms.paymentId);
      var evaluation := Evaluate(GuardFor(cfg, read, Expired, now, 0, true, true, total >= read.terms.amount));
      if evaluation.Rejected? {
        return false;
      }
      var session := new Collections.Session(store);
      applied := read.terms.paymentId in session.payments
                 && session.payments[read.terms.paymentId].status.Pending?
                 && session.payments[read.terms.paymentId].version == read.version;
      if applied {
        WriteExpiry(cfg, session, read, total, now, None);
        assert session.payments[read.terms.paymentId].version == read.version + 1;
        store.Adopt(session);
      }
      if 0 < total < read.terms.amount {
        store.Annotate(OnPayment(read.terms.paymentId, Partial));
      }
    }

    /**
     The uninterrupted sweep: it expires due payments that are not fully paid and changes
     nothing else, reports how many it expired, and with room for all of them leaves none.
     */
    method ExpireDuePayments(store: Collections, now: int, limit: nat) returns (expired: nat)
      requires forall id :: id in store.payments ==> store.payments[id].terms.paymentId == id
      modifies store
      ensures store.events == old(store.events)
      ensures store.payments.Keys == old(store.payments).Keys
      ensures forall id :: id in store.payments ==>
                store.payments[id] == old(store.payments)[id]
                || (id in DueIds(old(store.payments), now)
                    && store.payments[id] == Swept(store.events, old(store.payments)[id], now))
      ensures expired == |Changed(old(store.payments), store.payments)|
      ensures |DueIds(old(store.payments), now)| <= limit ==>
                forall id :: id in DueIds(old(store.payments), now) ==>
                  store.payments[id] == Swept(store.events, old(store.payments)[id], now)
      ensures forall id :: id in Changed(old(store.payments), store.payments) ==>
                ExpiresOverdue(store.events, old(store.payments)[id], store.payments[id], now)
      ensures |DueIds(old(store.payments), now)| <= limit ==>
                forall id :: id in store.payments ==> !LeftOverdue(store.events, store.payments[id], now)
    {
      ghost var before := store.payments;
      var due := FindDue(store, now, limit);
      expired := 0;
      for i := 0 to |due|
        invariant store.events == old(store.events)
        invariant store.payments == SweptAll(store.events, before, due[..i], now)
        invariant store.payments.Keys == before.Keys && expired == |Changed(before, store.payments)|
      {
        var read := due[i];
        var id := read.terms.paymentId;
        SweptAllAt(store.events, before, due[..i], now, id);
        SweepWritesWhenDue(cfg, store.Db(), read, now);
        ChangedByOne(before, store.payments, id, Swept(store.events, read, now));
        var applied := ExpireOne(store, read, now);
        assert due[..i + 1][..i] == due[..i];
        if applied {
          expired := expired + 1;
        }
      }
      assert due[..|due|] == due;
      forall id | id in before
        ensures forall i :: 0 <= i < |due| && due[i].terms.paymentId == id ==>
          store.payments[id] == Swept(store.events, due[i], now)
        ensures (forall i :: 0 <= i < |due| ==> due[i].terms.paymentId != id) ==> store.payments[id] == before[id]
      {
        SweptAllAt(store.events, before, due, now, id);
      }
      forall id | id in before ensures SweptMeans(store.events, before[id], Swept(store.events, before[id], now), now) {
        SweptExpires(store.events, before[id], now);
      }
    }
  }

  /** A pending payment past its deadline and below its price expired, now, with its canonical claims on record. */
  predicate ExpiresOverdue(events: seq<Event>, p: Payment, q: Payment, now: int) {
    var total := Total(CanonicalClaims, p.terms.paymentId, events);
    && p.status.Pending? && now > p.terms.expiresAt && total < p.terms.amount
    && q == p.(status := Expired, terminalAt := Some(now), version := p.version + 1,
               money := p.money.(partialAmountReceived := Some(total), underpaymentFlag := total > 0))
  }

  /** The payment is pending, past its deadline and below its price. */
  predicate LeftOverdue(events: seq<Event>, p: Payment, now: int) {
    p.status.Pending? && now > p.terms.expiresAt && Total(CanonicalClaims, p.terms.paymentId, events) < p.terms.amount
  }

  /** Sweeping a due payment expires it if it can be, and leaves it in order. */
  predicate SweptMeans(events: seq<Event>, p: Payment, q: Payment, now: int) {
    && (Due(p, now) && q != p ==> ExpiresOverdue(events, p, q, now))
    && (Due(p, now) ==> !LeftOverdue(events, q, now))
    && (!Due(p, now) ==> !LeftOverdue(events, p, now))
  }

  lemma SweptExpires(events: seq<Event>, p: Payment, now: int)
    ensures SweptMeans(events, p, Swept(events, p, now), now)
  {
  }

  /** The payments after sweeping these, one after the other. */
  function SweptAll(events: seq<Event>, before: map<string, Payment>, due: seq<Payment>, now: int): map<string,
      Payment> {
    if due == [] then before
    else
      var last := due[|due| - 1];
      SweptAll(events, before, due[..|due| - 1], now)[last.terms.paymentId := Swept(events, last, now)]
  }

  lemma {:induction false} SweptAllAt(events: seq<Event>, before: map<string, Payment>, due: seq<Payment>, now: int,
      id: string)
    requires id in before && forall i, j :: 0 <= i < j < |due| ==> due[i].terms.paymentId != due[j].terms.paymentId
    ensures id in SweptAll(events, before, due, now)
    ensures forall i :: 0 <= i < |due| && due[i].terms.paymentId == id ==>
      SweptAll(events, before, due, now)[id] == Swept(events, due[i], now)
    ensures (forall i :: 0 <= i < |due| ==> due[i].terms.paymentId != id) ==>
      SweptAll(events, before, due, now)[id] == before[id]
  {
    if due != [] {
      SweptAllAt(events, before, due[..|due| - 1], now, id);
    }
  }

  lemma SweepWritesWhenDue(cfg: Config, db: Database, read: Payment, now: int)
    requires read.terms.paymentId in db.payments && db.payments[read.terms.paymentId] == read && Due(read, now)
    ensures
      var total := Total(CanonicalClaims, read.terms.paymentId, db.events);
      var next := SweepExpiry(cfg, db, read, total, now);
      && next.payments == db.payments[read.terms.paymentId := Swept(db.events, read, now)]
      && (next != db <==> Swept(db.events, read, now) != read)
  {
    var next := SweepExpiry(cfg, db, read, Total(CanonicalClaims, read.terms.paymentId, db.events), now);
    if next == db {
      assert db.payments == db.payments[read.terms.paymentId := read];
    } else {
      assert next.payments[read.terms.paymentId].version == read.version + 1;
    }
  }

  // ----- payment-confirmation-service.ts -----

  class PaymentConfirmationService {
    const cfg: Config

    constructor (cfg: Config)
      ensures this.cfg == cfg
    {
      this.cfg := cfg;
    }

    method ApplyTransition(store: Collections, read: Payment, w: Write) returns (applied: bool)
      requires w.Transition?
      modifies store
      ensures store.Db() == ApplyWrite(cfg, old(store.Db()), read, w)
      ensures applied == StillAt(old(store.Db()), read)
    {
      var session := new Collections.Session(store);
      var id := read.terms.paymentId;
      applied := id in session.payments && session.payments[id].status == read.status
          && session.payments[id].version == read.version;
      if applied {
        session.payments := session.payments[id := Transitioned(session.payments[id], w)];
      }
      session.AppendAudit(AuditRow(id, w.action, read.status, w.to, MatchedId(read)));
      if applied && (w.to.Confirmed? || w.to.Failed?) {
        session.NotifyIn(cfg, PayloadFor(read, w.to, if w.to.Confirmed? then Outbox.PaymentConfirmed
            else Outbox.PaymentFailed));
      }
      store.Adopt(session);
    }

    method RecordRejection(store: Collections, read: Payment, attempted: Status)
      modifies store
      ensures store.Db() == ApplyWrite(cfg, old(store.Db()), read, Rejection(attempted))
    {
      store.AppendAudit(AuditRow(read.terms.paymentId, TransitionRejected, read.status, read.status, MatchedId(read)));
    }

    /** One confirmation job: everything read first, then the decided conditional writes in order. */
    method AdvancePayment(store: Collections, paymentId: string, seen: Observation, now: int, now2: int,
        review: Option<ReviewDecision>, verdict: Verdict)
      returns (outcome: Option<Advance>)
      modifies store
      ensures paymentId !in old(store.payments) ==> outcome == None && store.Db() == old(store.Db())
      ensures paymentId in old(store.payments) ==>
        var read := old(store.payments)[paymentId];
        var d := Decide(cfg, read, EventById(old(store.events), MatchedId(read)), seen, now, now2, review, verdict);
        && outcome == Some(d.outcome)
        && store.Db() == ApplyWrites(cfg, old(store.Db()), read,
            d.writes).(annotations := old(store.annotations) + d.annotations)
    {
      if paymentId !in store.payments {
        return None;
      }
      var payment := store.payments[paymentId];
      if payment.automationHold {
        return Some(AutomationHold);
      }
      if payment.status.Confirmed? || payment.status.Expired? || payment.status.Failed? {
        return Some(TerminalOutcome(payment.status));
      }
      var event := EventById(store.events, MatchedId(payment));
      if !(payment.status.Matched? || payment.status.Confirming?) || event.None? || seen.Unavailable? {
        return Some(Waiting);
      }
      var canonical := seen.canonical && event.value.canonical;
      if !canonical {
        var evaluation := Evaluate(GuardFor(cfg, payment, Failed, now, seen.confirmations, canonical, false, true));
        if evaluation.Rejected? {
          return Some(Waiting);
        }
        var w := Transition(Failed, None, None, Some(now), MovedTo(Failed));
        WritesOne(cfg, store.Db(), payment, w);
        var _ := ApplyTransition(store, payment, w);
        store.Annotate(OnPayment(payment.terms.paymentId, Reorg));
        return Some(TerminalOutcome(Failed));
      }
      if payment.status.Matched? {
        outcome := AdvanceTo(store, payment, seen.confirmations, 0, now);
        return;
      }
      if seen.confirmations < payment.terms.requiredConfirmations {
        if seen.confirmations > payment.confirmations {
          outcome := AdvanceTo(store, payment, seen.confirmations, seen.confirmations, now);
          return;
        }
        return Some(Waiting);
      }
      outcome := ConfirmScreened(store, payment, now2, review, verdict);
    }

    /** Into `confirming`, or one step deeper in it. */
    method AdvanceTo(store: Collections, payment: Payment, observed: nat, confirmations: nat, now: int)
      returns (outcome: Option<Advance>)
      modifies store
      ensures
        var legal := Evaluate(GuardFor(cfg, payment, Confirming, now, observed, true, true, true)).Legal?;
        var w := if legal then Transition(Confirming, Some(confirmations), None, None, MovedTo(Confirming))
            else Rejection(Confirming);
        && store.Db() == ApplyWrites(cfg, old(store.Db()), payment, [w])
        && outcome == Some(if legal then Progressed(Confirming) else Waiting)
    {
      var evaluation := Evaluate(GuardFor(cfg, payment, Confirming, now, observed, true, true, true));
      if evaluation.Legal? {
        var w := Transition(Confirming, Some(confirmations), None, None, MovedTo(Confirming));
        WritesOne(cfg, store.Db(), payment, w);
        var _ := ApplyTransition(store, payment, w);
        return Some(Progressed(Confirming));
      }
      WritesOne(cfg, store.Db(), payment, Rejection(Confirming));
      RecordRejection(store, payment, Confirming);
      return Some(Waiting);
    }

    /** The compliance gate, then the terminal step unless the payment is held. */
    method ConfirmScreened(store: Collections, payment: Payment, now2: int, review: Option<ReviewDecision>,
        verdict: Verdict)
      returns (outcome: Option<Advance>)
      modifies store
      ensures
        var d := DecideConfirmation(cfg, payment, now2, review, verdict);
        && outcome == Some(d.outcome)
        && store.Db() == ApplyWrites(cfg, old(store.Db()), payment,
            d.writes).(annotations := old(store.annotations) + d.annotations)
    {
      ghost var start := store.Db();
      if review == Some(Block) || (ScreeningFor(verdict) != Clear && review != Some(Release)) {
        HoldScreened(store, payment, review, verdict);
        return Some(Held);
      }
      ghost var writes: seq<Write> := [];
      if ScreeningFor(verdict) != Clear {
        var w := Transition(payment.status, None, Some(Clear), None, OverrideReleased);
        WritesOne(cfg, start, payment, w);
        writes := [w];
        var _ := ApplyTransition(store, payment, w);
      }
      WritesAppend(cfg, start, payment, writes, LastWrite(cfg, payment, now2));
      outcome := TakeLastStep(store, payment, now2);
    }

    /** A hold: a screening not yet on the payment is put there, and the hold annotated. */
    method HoldScreened(store: Collections, payment: Payment, review: Option<ReviewDecision>, verdict: Verdict)
      modifies store
      ensures
        var writes :=
          if review == Some(Block) || payment.screeningStatus == ScreeningFor(verdict) then []
          else [Transition(payment.status, None, Some(ScreeningFor(verdict)), None, ComplianceHoldRow)];
        store.Db() == ApplyWrites(cfg, old(store.Db()), payment, writes).(
            annotations := old(store.annotations) + {OnPayment(payment.terms.paymentId, Compliance)})
    {
      if review != Some(Block) && payment.screeningStatus != ScreeningFor(verdict) {
        var w := Transition(payment.status, None, Some(ScreeningFor(verdict)), None, ComplianceHoldRow);
        WritesOne(cfg, store.Db(), payment, w);
        var _ := ApplyTransition(store, payment, w);
      }
      store.Annotate(OnPayment(payment.terms.paymentId, Compliance));
    }

    /** The confirmation itself, or its rejection on record. */
    method TakeLastStep(store: Collections, payment: Payment, now2: int) returns (outcome: Option<Advance>)
      modifies store
      ensures store.Db() == ApplyWrite(cfg, old(store.Db()), payment, LastWrite(cfg, payment, now2))
      ensures store.annotations == old(store.annotations)
      ensures outcome ==
        Some(if LastWrite(cfg, payment, now2).Transition? then TerminalOutcome(Confirmed) else Waiting)
    {
      var required := payment.terms.requiredConfirmations;
      var evaluation := Evaluate(GuardFor(cfg, payment, Confirmed, now2, required, true, true, true));
      if evaluation.Rejected? {
        RecordRejection(store, payment, Confirmed);
        return Some(Waiting);
      }
      var w := Transition(Confirmed, Some(required), Some(Clear), Some(now2), MovedTo(Confirmed));
      WritesOne(cfg, store.Db(), payment, w);
      var _ := ApplyTransition(store, payment, w);
      return Some(TerminalOutcome(Confirmed));
    }
  }

  /** What a call at the threshold writes last. */
  function LastWrite(cfg: Config, read: Payment, now2: int): Write {
    var required := read.terms.requiredConfirmations;
    if Evaluate(GuardFor(cfg, read, Confirmed, now2, required, true, true, true)).Legal? then
      Transition(Confirmed, Some(required), Some(Clear), Some(now2), MovedTo(Confirmed))
    else Rejection(Confirmed)
  }

  lemma WritesAppend(cfg: Config, db: Database, read: Payment, writes: seq<Write>, w: Write)
    ensures ApplyWrites(cfg, db, read, writes + [w]) == ApplyWrite(cfg, ApplyWrites(cfg, db, read, writes), read, w)
  {
    assert (writes + [w])[..|writes|] == writes;
  }

  lemma WritesOne(cfg: Config, db: Database, read: Payment, w: Write)
    ensures ApplyWrites(cfg, db, read, [w]) == ApplyWrite(cfg, db, read, w)
    ensures ApplyWrite(cfg, db, read, w).annotations == db.annotations
  {
    assert [w] == [] + [w];
    WritesAppend(cfg, db, read, [], w);
  }

  // ----- the payment half of reorg-resolution-service.ts -----

  /** The payments whose claims a reorg above the fork point orphans. */
  function Affected(events: seq<Event>, chain: string, forkPoint: nat): set<string> {
    set i | 0 <= i < |events| && Orphaned(events[i], chain, forkPoint) && events[i].owner.Some? :: events[i].owner.value
  }

  /** What resolution reads of one affected payment before it writes: its row, and later the events. */
  datatype Sight = Sight(payment: Option<Payment>, events: seq<Event>)

  /** Rows are looked up by their id. */
  ghost predicate LookedUp(sights: string -> Sight) {
    forall id :: sights(id).payment.Some? ==> sights(id).payment.value.terms.paymentId == id
  }

  /**
   The first write for an affected payment: a finality hold, a recomputed partial total, or
   none, conditional on the version read.
   */
  function TouchOn(db: Database, id: string, sight: Sight): Database {
    if sight.payment.None? then db
    else
      var read := sight.payment.value;
      if read.status.Confirmed? then HoldForIncident(db, read)
      else if read.status.Pending? then RecomputePartial(db, read, Total(CanonicalRaw, id, sight.events))
      else db
  }

  /** The second write: the annotation. */
  function AnnotateOn(db: Database, id: string, sight: Sight): Database {
    if sight.payment.None? then db else db.(annotations := db.annotations + {OnPayment(id, Reorg)})
  }

  /** What resolution does to one affected payment. */
  function EffectOn(db: Database, id: string, sight: Sight): Database {
    AnnotateOn(TouchOn(db, id, sight), id, sight)
  }

  function EffectsOn(db: Database, ids: seq<string>, sights: string -> Sight): Database {
    if ids == [] then db
    else
      var last := ids[|ids| - 1];
      EffectOn(EffectsOn(db, ids[..|ids| - 1], sights), last, sights(last))
  }

  /** The first `writes` of those writes, two for each payment: how far a crash lets them get. */
  function EffectsUpTo(db: Database, ids: seq<string>, sights: string -> Sight, writes: nat): Database {
    if writes >= 2 * |ids| then EffectsOn(db, ids, sights)
    else
      var whole := EffectsOn(db, ids[..writes / 2], sights);
      if writes % 2 == 1 then TouchOn(whole, ids[writes / 2], sights(ids[writes / 2])) else whole
  }

  /** A payment that is not listed keeps its row, whatever its claims lost. */
  lemma {:induction false} UnlistedUntouched(db: Database, ids: seq<string>, sights: string -> Sight, id: string)
    requires id !in ids && LookedUp(sights)
    ensures (id in db.payments <==> id in EffectsOn(db, ids, sights).payments)
    ensures id in db.payments ==> EffectsOn(db, ids, sights).payments[id] == db.payments[id]
  {
    if ids != [] {
      UnlistedUntouched(db, ids[..|ids| - 1], sights, id);
    }
  }

  /** The row one effect leaves: changed exactly if the version read, and for a total the status, still stands. */
  function Adjusted(p: Payment, read: Payment, total: nat): Payment {
    if p.version != read.version then p
    else if read.status.Confirmed? then p.(automationHold := true, version := p.version + 1)
    else if read.status.Pending? && p.status.Pending? then
      p.(money := p.money.(partialAmountReceived := Some(total), underpaymentFlag := total > 0),
         version := p.version + 1)
    else p
  }

  /** The record of an effect that was meant: written whether or not the payment moved. */
  predicate OnRecord(db: Database, id: string, read: Payment) {
    && OnPayment(id, Reorg) in db.annotations
    && (read.status.Confirmed? ==> AuditRow(id, FinalityIncident, Confirmed, Confirmed, None) in db.audit)
  }

  lemma EffectAdjusts(db: Database, id: string, sight: Sight)
    requires sight.payment.Some? && sight.payment.value.terms.paymentId == id && id in db.payments
    ensures
      var read, after := sight.payment.value, EffectOn(db, id, sight);
      && id in after.payments && OnRecord(after, id, read)
      && after.payments[id] == Adjusted(db.payments[id], read, Total(CanonicalRaw, id, sight.events))
  {
    var audit := TouchOn(db, id, sight).audit;
    if sight.payment.value.status.Confirmed? {
      assert audit[|audit| - 1] == AuditRow(id, FinalityIncident, Confirmed, Confirmed, None);
    }
  }

  lemma EffectKeepsRecord(db: Database, id: string, sight: Sight, other: string, read: Payment)
    requires OnRecord(db, other, read)
    ensures OnRecord(EffectOn(db, id, sight), other, read)
  {
    assert db.audit <= EffectOn(db, id, sight).audit;
  }

  /**
   What resolution does to each listed payment it found: the finality hold, or the recomputed
   total, is placed exactly if the version it read still stands at its write (for the total,
   still pending), while incident and annotation go on record either way.
   */
  lemma {:induction false} EffectsAdjust(db: Database, ids: seq<string>, sights: string -> Sight, id: string)
    requires id in ids && (forall i, j :: 0 <= i < j < |ids| ==> ids[i] != ids[j])
    requires LookedUp(sights) && sights(id).payment.Some? && id in db.payments
    ensures
      var read, after := sights(id).payment.value, EffectsOn(db, ids, sights);
      && id in after.payments && OnRecord(after, id, read)
      && after.payments[id] == Adjusted(db.payments[id], read, Total(CanonicalRaw, id, sights(id).events))
  {
    var front, last := ids[..|ids| - 1], ids[|ids| - 1];
    if last == id {
      assert id !in front;
      UnlistedUntouched(db, front, sights, id);
      EffectAdjusts(EffectsOn(db, front, sights), id, sights(id));
    } else {
      EffectsAdjust(db, front, sights, id);
      EffectKeepsRecord(EffectsOn(db, front, sights), last, sights(last), id, sights(id).payment.value);
    }
  }

  /** An effect that has not begun leaves the payment's row and its reorg annotation alone. */
  lemma {:induction false} UnlistedUnannotated(db: Database, ids: seq<string>, sights: string -> Sight, id: string)
    requires id !in ids
    ensures OnPayment(id, Reorg) in EffectsOn(db, ids, sights).annotations <==> OnPayment(id, Reorg) in db.annotations
  {
    if ids != [] {
      UnlistedUnannotated(db, ids[..|ids| - 1], sights, id);
    }
  }

  /**
   How far a crash lets resolution get: of the listed payments it found, the i-th is adjusted
   exactly if more than `2 * i` writes come before the crash, and annotated exactly if at
   least one more does.
   */
  lemma EffectsUpToAdjust(db: Database, ids: seq<string>, sights: string -> Sight, writes: nat, i: nat)
    requires i < |ids| && (forall i, j :: 0 <= i < j < |ids| ==> ids[i] != ids[j])
    requires LookedUp(sights) && sights(ids[i]).payment.Some? && ids[i] in db.payments
    requires OnPayment(ids[i], Reorg) !in db.annotations
    ensures
      var id, after := ids[i], EffectsUpTo(db, ids, sights, writes);
      var p, read := db.payments[id], sights(ids[i]).payment.value;
      && id in after.payments
      && after.payments[id] ==
           (if writes > 2 * i then Adjusted(p, read, Total(CanonicalRaw, id, sights(id).events)) else p)
      && (OnPayment(id, Reorg) in after.annotations <==> writes > 2 * i + 1)
  {
    var id := ids[i];
    if writes >= 2 * |ids| {
      EffectsAdjust(db, ids, sights, id);
    } else {
      var n := writes / 2;
      var done := ids[..n];
      if i < n {
        assert done[i] == id;
        EffectsAdjust(db, done, sights, id);
        TouchLeavesOthers(EffectsOn(db, done, sights), ids[n], sights(ids[n]), id);
      } else {
        assert id !in done;
        UnlistedUntouched(db, done, sights, id);
        UnlistedUnannotated(db, done, sights, id);
        if i == n {
          EffectAdjusts(EffectsOn(db, done, sights), id, sights(id));
        } else {
          TouchLeavesOthers(EffectsOn(db, done, sights), ids[n], sights(ids[n]), id);
        }
      }
    }
  }

  lemma TouchLeavesOthers(db: Database, id: string, sight: Sight, other: string)
    requires id != other && (sight.payment.Some? ==> sight.payment.value.terms.paymentId == id)
    ensures TouchOn(db, id, sight).annotations == db.annotations
    ensures other in db.payments ==>
      other in TouchOn(db, id, sight).payments && TouchOn(db, id, sight).payments[other] == db.payments[other]
  {
  }

  method RawTotal(events: seq<Event>, paymentId: string) returns (total: nat)
    ensures total == Total(CanonicalRaw, paymentId, events)
  {
    total := 0;
    for i := 0 to |events|
      invariant total == Total(CanonicalRaw, paymentId, events[..i])
    {
      if events[i].owner == Some(paymentId) && events[i].canonical {
        total := total + events[i].capture.amount;
      }
      assert events[..i + 1] == events[..i] + [events[i]];
      TotalAppend(CanonicalRaw, paymentId, events[..i], events[i]);
    }
    assert events[..|events|] == events;
  }

  /** One affected payment as read earlier, as far as its first write. */
  method TouchPayment(store: Collections, id: string, sight: Sight)
    requires sight.payment.Some? ==> sight.payment.value.terms.paymentId == id
    modifies store
    ensures store.Db() == TouchOn(old(store.Db()), id, sight)
  {
    if sight.payment.Some? {
      var payment := sight.payment.value;
      var stands := id in store.payments && store.payments[id].version == payment.version;
      if payment.status.Confirmed? {
        if stands {
          store.payments := store.payments[id :=
            store.payments[id].(automationHold := true, version := payment.version + 1)];
        }
        store.AppendAudit(AuditRow(id, FinalityIncident, Confirmed, Confirmed, None));
      } else if payment.status.Pending? {
        var total := RawTotal(sight.events, id);
        if stands && store.payments[id].status.Pending? {
          store.payments := store.payments[id := store.payments[id].(
            money := store.payments[id].money.(partialAmountReceived := Some(total), underpaymentFlag := total > 0),
            version := payment.version + 1)];
        }
      }
    }
  }

  /** Every affected payment in turn, or as many writes as come before a crash. */
  method ResolvePaymentEffects(store: Collections, paymentIds: seq<string>, sights: string -> Sight, writes: nat)
    returns (crashed: bool)
    requires LookedUp(sights)
    modifies store
    ensures crashed <==> writes < 2 * |paymentIds|
    ensures store.Db() == EffectsUpTo(old(store.Db()), paymentIds, sights, writes)
  {
    for i := 0 to |paymentIds|
      invariant 2 * i <= writes && store.Db() == EffectsOn(old(store.Db()), paymentIds[..i], sights)
    {
      var id := paymentIds[i];
      assert paymentIds[..i + 1][..i] == paymentIds[..i];
      if writes == 2 * i {
        return true;
      }
      TouchPayment(store, id, sights(id));
      if writes == 2 * i + 1 {
        return true;
      }
      if sights(id).payment.Some? {
        store.Annotate(OnPayment(id, Reorg));
      }
    }
    assert paymentIds[..|paymentIds|] == paymentIds;
    return false;
  }

  lemma {:induction false} EffectsKeepIds(db: Database, ids: seq<string>, sights: string -> Sight)
    requires forall p :: p in db.payments ==> db.payments[p].terms.paymentId == p
    ensures forall p :: p in EffectsOn(db, ids, sights).payments ==>
      EffectsOn(db, ids, sights).payments[p].terms.paymentId == p
  {
    if ids != [] {
      EffectsKeepIds(db, ids[..|ids| - 1], sights);
    }
  }

  /** Rows stay under their ids throughout. */
  lemma EffectsUpToKeepIds(db: Database, ids: seq<string>, sights: string -> Sight, writes: nat)
    requires forall p :: p in db.payments ==> db.payments[p].terms.paymentId == p
    ensures forall p :: p in EffectsUpTo(db, ids, sights, writes).payments ==>
      EffectsUpTo(db, ids, sights, writes).payments[p].terms.paymentId == p
  {
    if writes >= 2 * |ids| {
      EffectsKeepIds(db, ids, sights);
    } else {
      EffectsKeepIds(db, ids[..writes / 2], sights);
    }
  }
}
