/** One step of a run, with its stale reads, keeps the invariant. */
module LedgerSteps {
  import opened Common
  import opened StateMachine
  import opened Ledger
  import opened Commits
  import opened LedgerRuns
  import opened LedgerInvariants
  import Outbox

  /** Every state of the history is in order and evolved from all earlier ones. */
  ghost predicate Settled(cfg: Config, past: seq<Database>) {
    && |past| > 0
    && (forall i :: 0 <= i < |past| ==> Inv(cfg, past[i]))
    && (forall i, j :: 0 <= i <= j < |past| ==> Evolves(past[i], past[j]))
  }

  function Last(past: seq<Database>): Database
    requires |past| > 0
  {
    past[|past| - 1]
  }

  /** What the step must show of the state it produces. */
  ghost predicate Keeps(cfg: Config, past: seq<Database>, next: Database)
    requires |past| > 0
  {
    Evolves(Last(past), next) && Inv(cfg, next)
  }

  // ----- what a stale read still tells -----

  /** `was` is a state some value was read from; `now` is the state a transaction commits against. */
  ghost predicate Before(cfg: Config, was: Database, now: Database) {
    Inv(cfg, was) && Inv(cfg, now) && Evolves(was, now)
  }

  /** A row read earlier: the payment is still there, and unchanged if its version is. */
  predicate Genuine(cur: Database, read: Payment) {
    var id := read.terms.paymentId;
    && id in cur.payments
    && cur.payments[id].version >= read.version
    && (cur.payments[id].version == read.version ==> cur.payments[id] == read)
  }

  /** A conditional write that matches on the version meets the very row that was read. */
  lemma ReadStillCurrent(cfg: Config, was: Database, cur: Database, id: string)
    requires Before(cfg, was, cur) && id in was.payments
    ensures was.payments[id].terms.paymentId == id
    ensures Genuine(cur, was.payments[id])
  {
    assert PaymentEvolves(was.payments[id], cur.payments[id]);
    KeyedById(cfg, was, id);
  }

  /** Between a read and a commit that finds its version unchanged, no state has another version. */
  lemma VersionStoodBetween(cfg: Config, was: Database, mid: Database, cur: Database, id: string)
    requires Before(cfg, was, mid) && Before(cfg, mid, cur) && id in was.payments
    requires id in cur.payments && cur.payments[id].version == was.payments[id].version
    ensures id in mid.payments && mid.payments[id].version == cur.payments[id].version
    ensures ClaimsAreInterpreted(mid.events)
  {
    assert PaymentEvolves(was.payments[id], mid.payments[id]) && PaymentEvolves(mid.payments[id], cur.payments[id]);
    InvInterprets(cfg, mid);
  }

  /** Totals read at any moment while the version stood bracket the current ones. */
  lemma TotalsStillBracket(mid: Database, cur: Database, id: string)
    requires Evolves(mid, cur) && ClaimsAreInterpreted(mid.events)
    requires id in mid.payments && id in cur.payments && mid.payments[id].version == cur.payments[id].version
    ensures Total(CanonicalClaims, id, cur.events) <= Total(CanonicalClaims, id, mid.events)
    ensures Total(CanonicalRaw, id, cur.events) <= Total(CanonicalRaw, id, mid.events)
    ensures Total(CanonicalClaims, id, mid.events) <= Total(AllClaims, id, cur.events)
  {
    TotalsWhileVersionStands(mid, cur, id);
    TotalAtMost(CanonicalClaims, id, mid.events, AllClaims, mid.events);
  }

  // ----- actions on events -----

  lemma TotalZero(cfg: Config, db: Database, id: string)
    requires Inv(cfg, db) && id !in db.payments
    ensures Total(AllClaims, id, db.events) == 0 && Total(CanonicalClaims, id, db.events) == 0
  {
    forall i | 0 <= i < |db.events| ensures db.events[i].owner != Some(id) {
      assert ClaimOk(db, db.events[i]);
    }
    TotalAtMost(AllClaims, id, db.events, AllClaims, []);
    TotalAtMost(CanonicalClaims, id, db.events, AllClaims, []);
  }

  lemma {:induction false} NoticesZero(rows: seq<Outbox.Row>, id: string, t: Outbox.EventType)
    requires forall i :: 0 <= i < |rows| ==> rows[i].payload.paymentId != id
    ensures Notices(rows, id, t) == 0
  {
    if rows != [] {
      NoticesZero(rows[..|rows| - 1], id, t);
    }
  }

  lemma NewPaymentOk(cfg: Config, db: Database, p: Payment)
    requires Inv(cfg, db) && p.terms.paymentId !in db.payments && IsNew(p)
    ensures PaymentOk(cfg, db.(payments := db.payments[p.terms.paymentId := p]), p.terms.paymentId)
  {
    var id := p.terms.paymentId;
    TotalZero(cfg, db, id);
    forall i | 0 <= i < |db.outbox| ensures db.outbox[i].payload.paymentId != id {
      assert RowOk(db, db.outbox[i]);
    }
    forall t ensures Notices(db.outbox, id, t) == 0 {
      NoticesZero(db.outbox, id, t);
    }
  }

  lemma CreateEvolves(db: Database, next: Database, id: string)
    requires id in next.payments && id !in db.payments
    requires next == db.(payments := db.payments[id := next.payments[id]])
    ensures Evolves(db, next)
  {
    forall i, q | NewClaim(db, next, i, q) ensures false {}
  }

  lemma CreateKeeps(cfg: Config, db: Database, p: Payment)
    requires Inv(cfg, db) && p.terms.paymentId !in db.payments && IsNew(p)
    ensures
      var next := db.(payments := db.payments[p.terms.paymentId := p]);
      Evolves(db, next) && Inv(cfg, next)
  {
    var id := p.terms.paymentId;
    var next := db.(payments := db.payments[id := p]);
    CreateEvolves(db, next, id);
    NewPaymentOk(cfg, db, p);
    forall other | other in next.payments ensures PaymentOk(cfg, next, other) {
      if other != id {
        UntouchedPayment(cfg, db, next, other);
      }
    }
    ClaimsStayOk(cfg, db, next);
    forall i | 0 <= i < |next.outbox| ensures RowOk(next, next.outbox[i]) {
      assert RowOk(db, db.outbox[i]);
    }
  }

  lemma IngestKeeps(cfg: Config, db: Database, e: Event)
    requires Inv(cfg, db) && IndexOf(db.events, e.capture.eventId) == |db.events| && IsCapture(e)
    ensures
      var next := db.(events := db.events + [e]);
      Evolves(db, next) && Inv(cfg, next)
  {
    var next := db.(events := db.events + [e]);
    forall i, q | NewClaim(db, next, i, q) ensures false {}
    PaymentsUntouched(cfg, db, next);
  }

  lemma InterpretKeeps(cfg: Config, db: Database, row: nat, judgment: Interpretation, token: Option<string>,
      verified: Option<nat>)
    requires Inv(cfg, db) && row < |db.events| && db.events[row].interpretation.None?
    ensures
      var e := db.events[row].(interpretation := Some(judgment), token := token, verifiedReceivedAmount := verified);
      var next := db.(events := db.events[row := e]);
      Evolves(db, next) && Inv(cfg, next)
  {
    assert ClaimOk(db, db.events[row]);
    var e := db.events[row].(interpretation := Some(judgment), token := token, verifiedReceivedAmount := verified);
    var next := db.(events := db.events[row := e]);
    forall i, q | NewClaim(db, next, i, q) ensures false {}
    PaymentsUntouched(cfg, db, next);
  }

  lemma OrphanKeeps(cfg: Config, db: Database, chain: string, forkPoint: nat)
    requires Inv(cfg, db)
    ensures
      var next := db.(events := OrphanAbove(db.events, chain, forkPoint));
      Evolves(db, next) && Inv(cfg, next)
  {
    var next := db.(events := OrphanAbove(db.events, chain, forkPoint));
    forall i, q | NewClaim(db, next, i, q) ensures false {}
    PaymentsUntouched(cfg, db, next);
  }

  lemma LogKeeps(cfg: Config, db: Database, rows: seq<AuditRow>, notes: set<Annotation>)
    requires Inv(cfg, db)
    ensures
      var next := db.(audit := db.audit + rows, annotations := db.annotations + notes);
      Evolves(db, next) && Inv(cfg, next)
  {
    var next := db.(audit := db.audit + rows, annotations := db.annotations + notes);
    forall i, q | NewClaim(db, next, i, q) ensures false {}
    PaymentsUntouched(cfg, db, next);
  }

  // ----- actions with reads made before the transaction -----

  lemma ClaimStepKeeps(cfg: Config, was: Database, cur: Database, row: nat, id: string, now: int)
    requires Before(cfg, was, cur) && row < |was.events| && id in cur.payments
    requires was.events[row].interpretation == Some(Accepted) && RoutesTo(was.events[row], cur.payments[id])
    ensures
      var outcome := ApplyClaim(cfg, cur, was.events[row], id, now);
      outcome.Committed? ==> Evolves(cur, outcome.db) && Inv(cfg, outcome.db)
  {
    var event := was.events[row];
    assert EventEvolves(event, cur.events[row]);
    assert IndexOf(cur.events, event.capture.eventId) == row;
    ClaimTransactionKeeps(cfg, cur, event, id, now);
  }

  /** The sweep changes something only for an overdue payment that was read unpaid and has not moved. */
  lemma SweepWritesWhen(cfg: Config, cur: Database, read: Payment, total: nat, now: int)
    ensures SweepExpiry(cfg, cur, read, total, now)
         == if now > read.terms.expiresAt && total < read.terms.amount && read.status.Pending? && StillAt(cur, read)
            then ExpireNow(cfg, cur, read, total, now, None) else cur
  {
  }

  lemma SweepKeeps(cfg: Config, cur: Database, read: Payment, total: nat, now: int)
    requires Inv(cfg, cur) && Genuine(cur, read)
    requires StillAt(cur, read) ==>
               Total(CanonicalClaims, read.terms.paymentId, cur.events) <= total
               && total <= Total(AllClaims, read.terms.paymentId, cur.events)
    ensures Evolves(cur, SweepExpiry(cfg, cur, read, total, now)) && Inv(cfg, SweepExpiry(cfg, cur, read, total, now))
  {
    SweepWritesWhen(cfg, cur, read, total, now);
    if StillAt(cur, read) && total < read.terms.amount && read.status.Pending? {
      assert cur.payments[read.terms.paymentId] == read;
      ExpiryKeeps(cfg, cur, read.terms.paymentId, total, now, None);
    }
    if SweepExpiry(cfg, cur, read, total, now) == cur {
      EvolvesReflexive(cur);
    }
  }

  /** Every transition a confirmation call decides on is legal for the row it read. */
  lemma DecidedWrites(cfg: Config, read: Payment, event: Option<Event>, seen: Observation, now: int, now2: int,
      review: Option<ReviewDecision>, verdict: Verdict, k: nat)
    requires
      var d := Decide(cfg, read, event, seen, now, now2, review, verdict);
      k < |d.writes| && d.writes[k].Transition?
    requires read.terms.requiredConfirmations > 0
    requires !IsTerminal(read.status) ==> read.confirmations < read.terms.requiredConfirmations
    requires read.terminalAt.None? <==> !IsTerminal(read.status)
    ensures
      var w := Decide(cfg, read, event, seen, now, now2, review, verdict).writes[k];
      var q := Transitioned(read, w);
      && !IsTerminal(read.status) && EverMatched(read.status) && EverMatched(w.to) && Follows(read.status, w.to)
      && Neutral(read, q)
  {
  }

  lemma TransitionAnnounces(cfg: Config, db: Database, read: Payment, w: Write)
    requires w.Transition? && read.terms.paymentId in db.payments && db.payments[read.terms.paymentId] == read
    requires EverMatched(read.status) && EverMatched(w.to) && !IsTerminal(read.status)
    ensures
      var next := ApplyWrite(cfg, db, read, w);
      var id := read.terms.paymentId;
      && id in next.payments && next.payments == db.payments[id := next.payments[id]]
      && next.payments[id] == Transitioned(read, w)
      && next.events == db.events && db.audit <= next.audit && next.annotations == db.annotations
      && Announces(cfg, db, next, id,
           if EmitsWebhook(w.to)
           then Some(PayloadFor(read, w.to, if w.to.Confirmed? then Outbox.PaymentConfirmed else Outbox.PaymentFailed))
           else None)
  {
  }

  lemma ConfirmKeeps(cfg: Config, cur: Database, read: Payment, event: Option<Event>, seen: Observation, now: int,
      now2: int, review: Option<ReviewDecision>, verdict: Verdict, k: nat)
    requires Inv(cfg, cur) && Genuine(cur, read)
    requires k < |Decide(cfg, read, event, seen, now, now2, review, verdict).writes|
    ensures
      var next := ApplyWrite(cfg, cur, read, Decide(cfg, read, event, seen, now, now2, review, verdict).writes[k]);
      Evolves(cur, next) && Inv(cfg, next)
  {
    var w := Decide(cfg, read, event, seen, now, now2, review, verdict).writes[k];
    if w.Transition? && StillAt(cur, read) {
      OpenPaymentBelowSnapshot(cfg, cur, read.terms.paymentId);
      DecidedWrites(cfg, read, event, seen, now, now2, review, verdict, k);
      MovedPaymentKeeps(cfg, cur, read, w);
    } else {
      LostWriteKeeps(cfg, cur, read, w);
    }
  }

  lemma OpenPaymentBelowSnapshot(cfg: Config, db: Database, id: string)
    requires Inv(cfg, db) && id in db.payments
    ensures
      var p := db.payments[id];
      && p.terms.requiredConfirmations > 0
      && (p.terminalAt.Some? <==> IsTerminal(p.status))
      && (!p.status.Confirmed? ==> p.confirmations < p.terms.requiredConfirmations)
  {
    assert PaymentOk(cfg, db, id);
  }

  lemma LostWriteKeeps(cfg: Config, cur: Database, read: Payment, w: Write)
    requires Inv(cfg, cur)
    requires w.Rejection? || !StillAt(cur, read)
    ensures Evolves(cur, ApplyWrite(cfg, cur, read, w)) && Inv(cfg, ApplyWrite(cfg, cur, read, w))
  {
    var row := if w.Transition? then AuditRow(read.terms.paymentId, w.action, read.status, w.to, MatchedId(read))
               else AuditRow(read.terms.paymentId, TransitionRejected, read.status, read.status, MatchedId(read));
    LogKeeps(cfg, cur, [row], {});
    assert ApplyWrite(cfg, cur, read, w) == cur.(audit := cur.audit + [row], annotations := cur.annotations + {});
  }

  lemma MovedPaymentKeeps(cfg: Config, db: Database, read: Payment, w: Write)
    requires Inv(cfg, db) && w.Transition?
    requires read.terms.paymentId in db.payments && db.payments[read.terms.paymentId] == read
    requires EverMatched(read.status) && EverMatched(w.to) && !IsTerminal(read.status)
    requires Neutral(read, Transitioned(read, w))
    ensures Evolves(db, ApplyWrite(cfg, db, read, w)) && Inv(cfg, ApplyWrite(cfg, db, read, w))
  {
    var id := read.terms.paymentId;
    TransitionAnnounces(cfg, db, read, w);
    var t := if w.to.Confirmed? then Outbox.PaymentConfirmed else Outbox.PaymentFailed;
    var payload := PayloadFor(read, w.to, t);
    NoticesAfterWrite(cfg, db, payload, id, t);
    NeutralChange(cfg, db, ApplyWrite(cfg, db, read, w), id, if EmitsWebhook(w.to) then Some(payload) else None);
  }

  /** Once a claim was orphaned, exactness can only mean that every claim is verbatim. */
  lemma OrphanLeavesVerbatim(was: Database, cur: Database, id: string, i: nat)
    requires Evolves(was, cur)
    requires i < |was.events| && OrphanOf(was.events[i], id) && was.events[i].interpretation.Some?
    requires Exact(cur.events, id)
    ensures forall j :: 0 <= j < |cur.events| && cur.events[j].owner == Some(id) ==> Verbatim(cur.events[j])
  {
    assert EventEvolves(was.events[i], cur.events[i]);
  }

  /** Over verbatim claims, raw totals read at any moment while the version stood bracket the current ones too. */
  lemma RawBrackets(mid: Database, cur: Database, id: string)
    requires Evolves(mid, cur)
    requires forall j :: 0 <= j < |cur.events| && cur.events[j].owner == Some(id) ==> Verbatim(cur.events[j])
    ensures Total(CanonicalClaims, id, cur.events) <= Total(CanonicalRaw, id, cur.events)
    ensures Total(CanonicalRaw, id, mid.events) <= Total(AllClaims, id, cur.events)
  {
    TotalAtMost(CanonicalClaims, id, cur.events, CanonicalRaw, cur.events);
    forall j | 0 <= j < |mid.events|
      ensures Share(CanonicalRaw, id, mid.events[j]) <= ShareAt(AllClaims, id, cur.events, j)
    {
      assert EventEvolves(mid.events[j], cur.events[j]);
    }
    TotalAtMost(CanonicalRaw, id, mid.events, AllClaims, cur.events);
  }

  lemma RecomputeAmounts(cfg: Config, was: Database, mid: Database, cur: Database, id: string, i: nat)
    requires Before(cfg, was, mid) && Before(cfg, mid, cur) && Before(cfg, was, cur) && id in was.payments
    requires id in cur.payments && cur.payments[id].version == was.payments[id].version
    requires i < |was.events| && OrphanOf(was.events[i], id)
    requires Exact(cur.events, id)
    ensures
      var raw := Total(CanonicalRaw, id, mid.events);
      Total(CanonicalClaims, id, cur.events) <= raw <= Total(AllClaims, id, cur.events)
  {
    assert ClaimOk(was, was.events[i]);
    OrphanLeavesVerbatim(was, cur, id, i);
    VersionStoodBetween(cfg, was, mid, cur, id);
    TotalsStillBracket(mid, cur, id);
    RawBrackets(mid, cur, id);
  }

  lemma RecomputedInOrder(cfg: Config, cur: Database, id: string, raw: nat)
    requires Inv(cfg, cur) && id in cur.payments && cur.payments[id].status.Pending?
    requires Exact(cur.events, id) ==>
               Total(CanonicalClaims, id, cur.events) <= raw <= Total(AllClaims, id, cur.events)
    ensures
      var next := RecomputePartial(cur, cur.payments[id], raw);
      && id in next.payments && next.payments == cur.payments[id := next.payments[id]]
      && PaymentEvolves(cur.payments[id], next.payments[id]) && next.payments[id].version > cur.payments[id].version
      && next.payments[id].status.Pending?
      && AmountsInOrder(cfg, next, id)
  {
    assert PaymentOk(cfg, cur, id);
  }

  lemma RecomputeKeeps(cfg: Config, cur: Database, read: Payment, raw: nat)
    requires Inv(cfg, cur) && Genuine(cur, read)
    requires StillAt(cur, read) && Exact(cur.events, read.terms.paymentId) ==>
               Total(CanonicalClaims, read.terms.paymentId, cur.events) <= raw
               && raw <= Total(AllClaims, read.terms.paymentId, cur.events)
    ensures Evolves(cur, RecomputePartial(cur, read, raw)) && Inv(cfg, RecomputePartial(cur, read, raw))
  {
    EvolvesReflexive(cur);
    if read.status.Pending? && StillAt(cur, read) {
      var id, next := read.terms.paymentId, RecomputePartial(cur, read, raw);
      RecomputedInOrder(cfg, cur, id, raw);
      SameEventsEvolve(cur, next, id);
      Reassemble(cfg, cur, next, id, None);
    }
  }

  lemma NeutralMark(cfg: Config, cur: Database, next: Database, id: string, q: Payment)
    requires Inv(cfg, cur) && id in cur.payments
    requires q == cur.payments[id].(version := cur.payments[id].version + 1, screeningStatus := q.screeningStatus,
        automationHold := q.automationHold)
    requires cur.payments[id].automationHold ==> q.automationHold
    requires next.payments == cur.payments[id := q] && next.events == cur.events && next.outbox == cur.outbox
    requires cur.audit <= next.audit && next.annotations == cur.annotations
    ensures Evolves(cur, next) && Inv(cfg, next)
  {
    assert PaymentOk(cfg, cur, id);
    NeutralChange(cfg, cur, next, id, None);
  }

  lemma IncidentKeeps(cfg: Config, cur: Database, read: Payment)
    requires Inv(cfg, cur) && Genuine(cur, read)
    ensures Evolves(cur, HoldForIncident(cur, read)) && Inv(cfg, HoldForIncident(cur, read))
  {
    var next, id := HoldForIncident(cur, read), read.terms.paymentId;
    if cur.payments[id].version == read.version {
      NeutralMark(cfg, cur, next, id, next.payments[id]);
    } else {
      var row := AuditRow(id, FinalityIncident, Confirmed, Confirmed, None);
      LogKeeps(cfg, cur, [row], {});
      assert next == cur.(audit := cur.audit + [row], annotations := cur.annotations + {});
    }
  }

  lemma ScreenKeeps(cfg: Config, cur: Database, read: Payment, status: Screening)
    requires Inv(cfg, cur) && Genuine(cur, read)
    ensures Evolves(cur, SetScreening(cur, read, status)) && Inv(cfg, SetScreening(cur, read, status))
  {
    EvolvesReflexive(cur);
    var next, id := SetScreening(cur, read, status), read.terms.paymentId;
    if cur.payments[id].version == read.version {
      NeutralMark(cfg, cur, next, id, next.payments[id]);
    }
  }

  // ----- any action -----

  lemma HistoryBefore(cfg: Config, past: seq<Database>, i: nat, j: nat)
    requires Settled(cfg, past) && i <= j < |past|
    ensures Before(cfg, past[i], past[j])
  {
    assert Evolves(past[i], past[j]);
  }

  lemma StepKeeps(cfg: Config, past: seq<Database>, a: Action)
    requires Settled(cfg, past) && Enabled(cfg, past, a)
    ensures Keeps(cfg, past, Apply(cfg, past, a))
  {
    var cur, n := Last(past), |past| - 1;
    EvolvesReflexive(cur);
    match a
    case Create(p) => CreateKeeps(cfg, cur, p);
    case Ingest(e) => IngestKeeps(cfg, cur, e);
    case Interpret(row, judgment, token, verified) => InterpretKeeps(cfg, cur, row, judgment, token, verified);
    case OrphanEvents(chain, forkPoint) => OrphanKeeps(cfg, cur, chain, forkPoint);
    case Record(row) =>
      LogKeeps(cfg, cur, [row], {});
      assert Apply(cfg, past, a) == cur.(audit := cur.audit + [row], annotations := cur.annotations + {});
    case Annotate(note) =>
      LogKeeps(cfg, cur, [], {note});
      assert Apply(cfg, past, a) == cur.(audit := cur.audit + [], annotations := cur.annotations + {note});
    case _ => StaleStepKeeps(cfg, past, a);
  }

  lemma StaleStepKeeps(cfg: Config, past: seq<Database>, a: Action)
    requires Settled(cfg, past) && Enabled(cfg, past, a)
    requires a.Claim? || a.Sweep? || a.Confirm? || a.Recompute? || a.Incident? || a.Screen?
    ensures Keeps(cfg, past, Apply(cfg, past, a))
  {
    var cur, n := Last(past), |past| - 1;
    match a
    case Claim(at, row, id, now) =>
      EvolvesReflexive(cur);
      HistoryBefore(cfg, past, at, n);
      ClaimStepKeeps(cfg, past[at], cur, row, id, now);
    case Confirm(at, eventAt, id, seen, now, now2, review, verdict, k) =>
      HistoryBefore(cfg, past, at, n);
      ReadStillCurrent(cfg, past[at], cur, id);
      var event := EventById(past[eventAt].events, MatchedId(past[at].payments[id]));
      ConfirmKeeps(cfg, cur, past[at].payments[id], event, seen, now, now2, review, verdict, k);
    case Sweep(at, totalAt, id, now) =>
      SweepReads(cfg, past, at, totalAt, id);
      SweepKeeps(cfg, cur, past[at].payments[id], Total(CanonicalClaims, id, past[totalAt].events), now);
    case Recompute(at, totalAt, id) =>
      RecomputeReads(cfg, past, at, totalAt, id);
      RecomputeKeeps(cfg, cur, past[at].payments[id], Total(CanonicalRaw, id, past[totalAt].events));
    case Incident(at, id) =>
      HistoryBefore(cfg, past, at, n);
      ReadStillCurrent(cfg, past[at], cur, id);
      IncidentKeeps(cfg, cur, past[at].payments[id]);
    case Screen(at, id, status) =>
      HistoryBefore(cfg, past, at, n);
      ReadStillCurrent(cfg, past[at], cur, id);
      ScreenKeeps(cfg, cur, past[at].payments[id], status);
  }

  /** The sweep's two reads, made outside its transaction, are good whenever its version check passes. */
  lemma SweepReads(cfg: Config, past: seq<Database>, at: nat, totalAt: nat, id: string)
    requires Settled(cfg, past) && at <= totalAt < |past| && id in past[at].payments
    ensures
      var cur, read, total := Last(past), past[at].payments[id], Total(CanonicalClaims, id, past[totalAt].events);
      && Genuine(cur, read) && read.terms.paymentId == id
      && (StillAt(cur, read) ==>
            Total(CanonicalClaims, id, cur.events) <= total <= Total(AllClaims, id, cur.events))
  {
    HistoryBefore(cfg, past, at, totalAt);
    HistoryBefore(cfg, past, totalAt, |past| - 1);
    HistoryBefore(cfg, past, at, |past| - 1);
    ReadStillCurrent(cfg, past[at], Last(past), id);
    if StillAt(Last(past), past[at].payments[id]) {
      VersionStoodBetween(cfg, past[at], past[totalAt], Last(past), id);
      TotalsStillBracket(past[totalAt], Last(past), id);
    }
  }

  lemma RecomputeReads(cfg: Config, past: seq<Database>, at: nat, totalAt: nat, id: string)
    requires Settled(cfg, past) && at <= totalAt < |past| && id in past[at].payments
    requires exists i :: 0 <= i < |past[at].events| && OrphanOf(past[at].events[i], id)
    ensures
      var cur, read, raw := Last(past), past[at].payments[id], Total(CanonicalRaw, id, past[totalAt].events);
      && Genuine(cur, read) && read.terms.paymentId == id
      && (StillAt(cur, read) && Exact(cur.events, id) ==>
            Total(CanonicalClaims, id, cur.events) <= raw <= Total(AllClaims, id, cur.events))
  {
    HistoryBefore(cfg, past, at, totalAt);
    HistoryBefore(cfg, past, totalAt, |past| - 1);
    HistoryBefore(cfg, past, at, |past| - 1);
    ReadStillCurrent(cfg, past[at], Last(past), id);
    if StillAt(Last(past), past[at].payments[id]) && Exact(Last(past).events, id) {
      var i :| 0 <= i < |past[at].events| && OrphanOf(past[at].events[i], id);
      RecomputeAmounts(cfg, past[at], past[totalAt], Last(past), id, i);
    }
  }
}
