/** Status histories, notifications and confirmations over whole runs, and the code's own exceptions. */
module LedgerHistories {
  import opened Common
  import opened StateMachine
  import opened Ledger
  import opened Commits
  import opened LedgerRuns
  import opened LedgerInvariants
  import opened LedgerSteps
  import opened LedgerTheorems
  import Outbox

  // ----- histories -----

  lemma ReadStepKeepsKeys(cfg: Config, past: seq<Database>, a: Action)
    requires Settled(cfg, past) && Enabled(cfg, past, a) && (a.Claim? || a.Sweep? || a.Confirm?)
    ensures Apply(cfg, past, a).payments.Keys == Last(past).payments.Keys
  {
    var cur := Last(past);
    if a.Claim? {
      ClaimAddsNothing(cfg, cur, past[a.readAt].events[a.row], a.paymentId, a.now);
    } else if a.Sweep? {
      SweepAddsNothing(cfg, cur, past[a.paymentAt].payments[a.paymentId],
                       Total(CanonicalClaims, a.paymentId, past[a.totalAt].events), a.now);
    } else {
      WriteAddsNothing(cfg, cur, past[a.paymentAt].payments[a.paymentId], WritesOf(cfg, past, a)[a.k]);
    }
  }

  lemma PlainStepKeepsKeys(cfg: Config, past: seq<Database>, a: Action)
    requires |past| > 0 && Enabled(cfg, past, a) && !a.Claim? && !a.Sweep? && !a.Confirm? && !a.Create?
    ensures Apply(cfg, past, a).payments.Keys == past[|past| - 1].payments.Keys
  {
  }

  /** No action but a creation adds a payment, and none removes one. */
  lemma KeysStand(cfg: Config, past: seq<Database>, a: Action)
    requires Settled(cfg, past) && Enabled(cfg, past, a) && !a.Create?
    ensures Apply(cfg, past, a).payments.Keys == Last(past).payments.Keys
  {
    if a.Claim? || a.Sweep? || a.Confirm? {
      ReadStepKeepsKeys(cfg, past, a);
    } else {
      PlainStepKeepsKeys(cfg, past, a);
    }
  }

  lemma SweepAddsNothing(cfg: Config, cur: Database, read: Payment, total: nat, now: int)
    ensures SweepExpiry(cfg, cur, read, total, now).payments.Keys == cur.payments.Keys
  {
    SweepWritesWhen(cfg, cur, read, total, now);
  }

  lemma WriteAddsNothing(cfg: Config, cur: Database, read: Payment, w: Write)
    ensures ApplyWrite(cfg, cur, read, w).payments.Keys == cur.payments.Keys
  {
  }

  lemma ClaimAddsNothing(cfg: Config, cur: Database, event: Event, id: string, now: int)
    requires Inv(cfg, cur) && id in cur.payments
    ensures
      var outcome := ApplyClaim(cfg, cur, event, id, now);
      outcome.Committed? ==> outcome.db.payments.Keys == cur.payments.Keys
  {
    KeyedById(cfg, cur, id);
    ClaimShape(cfg, cur, event, id, now);
  }

  /** From one state of a run to the next, a payment appears pending or follows one edge. */
  lemma RunFollows(cfg: Config, run: seq<Database>, actions: seq<Action>, n: nat, id: string)
    requires IsRun(cfg, run, actions) && 0 < n < |run| && id in run[n].payments
    ensures if id in run[n - 1].payments then Follows(run[n - 1].payments[id].status, run[n].payments[id].status)
            else run[n].payments[id].status.Pending?
  {
    RunStep(cfg, run, actions, n);
    if id in run[n - 1].payments {
      StepFollowsTable(cfg, run[..n], actions[n - 1], id);
    } else {
      if !actions[n - 1].Create? {
        KeysStand(cfg, run[..n], actions[n - 1]);
      }
    }
  }

  lemma RunStep(cfg: Config, run: seq<Database>, actions: seq<Action>, n: nat)
    requires IsRun(cfg, run, actions) && 0 < n < |run|
    ensures Settled(cfg, run[..n]) && Last(run[..n]) == run[n - 1]
    ensures Enabled(cfg, run[..n], actions[n - 1]) && run[n] == Apply(cfg, run[..n], actions[n - 1])
  {
    RunSettled(cfg, run, actions, n);
    assert Enabled(cfg, run[..(n - 1) + 1], actions[n - 1]);
  }

  /** The statuses of a payment from the state that created it up to state `n`. */
  function StatusesOf(run: seq<Database>, id: string, first: nat, n: nat): seq<Status>
    requires first <= n < |run| && forall i :: first <= i <= n ==> id in run[i].payments
  {
    seq(n - first + 1, i requires 0 <= i <= n - first => run[first + i].payments[id].status)
  }

  /** Every payment's history starts pending and follows the transition table. */
  lemma StatusesFollowTable(cfg: Config, run: seq<Database>, actions: seq<Action>, id: string, first: nat, n: nat)
    requires IsRun(cfg, run, actions) && first <= n < |run|
    requires id in run[first].payments && (first > 0 ==> id !in run[first - 1].payments)
    ensures forall i :: first <= i <= n ==> id in run[i].payments
    ensures IsHistory(StatusesOf(run, id, first, n))
  {
    forall i | first <= i <= n ensures id in run[i].payments {
      RunInvariant(cfg, run, actions, first, i);
    }
    RunFollows(cfg, run, actions, first, id);
    var h := StatusesOf(run, id, first, n);
    forall i | 0 < i < |h| ensures Follows(h[i - 1], h[i]) {
      RunFollows(cfg, run, actions, first + i, id);
    }
  }

  lemma {:induction false} MatchedBefore(cfg: Config, run: seq<Database>, actions: seq<Action>, n: nat, id: string)
    requires IsRun(cfg, run, actions) && n < |run|
    requires id in run[n].payments && EverMatched(run[n].payments[id].status)
    ensures exists i :: 0 <= i <= n && id in run[i].payments && run[i].payments[id].status == Matched
  {
    if run[n].payments[id].status != Matched {
      RunFollows(cfg, run, actions, n, id);
      if id in run[n - 1].payments {
        MatchedBefore(cfg, run, actions, n - 1, id);
      }
    }
  }

  lemma NoticesSayEntered(cfg: Config, run: seq<Database>, actions: seq<Action>, n: nat, id: string,
      t: Outbox.EventType)
    requires IsRun(cfg, run, actions) && n < |run| && id in run[n].payments
    ensures Notices(run[n].outbox, id, t) ==
      if cfg.dispatcher && HasEntered(t, run[n].payments[id].status) then 1 else 0
  {
    RunInvariant(cfg, run, actions, n, n);
    assert PaymentOk(cfg, run[n], id);
  }

  lemma StatusReaches(cfg: Config, run: seq<Database>, actions: seq<Action>, i: nat, j: nat, id: string)
    requires IsRun(cfg, run, actions) && i <= j < |run| && id in run[i].payments
    ensures id in run[j].payments && Reaches(run[i].payments[id].status, run[j].payments[id].status)
  {
    RunInvariant(cfg, run, actions, i, j);
    assert PaymentEvolves(run[i].payments[id], run[j].payments[id]);
  }

  /**
   Exactly-once notification: with a dispatcher there is one outbox row for a payment
   and event type if the payment ever was in that status, and none otherwise; without
   a dispatcher there is none at all.
   */
  lemma OutboxExactlyOnce(cfg: Config, run: seq<Database>, actions: seq<Action>, n: nat, id: string,
      t: Outbox.EventType)
    requires IsRun(cfg, run, actions) && n < |run| && id in run[n].payments
    ensures Notices(run[n].outbox, id, t)
         == if cfg.dispatcher
               && (exists i :: 0 <= i <= n && id in run[i].payments && run[i].payments[id].status == Outbox.StatusOf(t))
            then 1 else 0
  {
    NoticesSayEntered(cfg, run, actions, n, id, t);
    forall i | 0 <= i <= n && id in run[i].payments && run[i].payments[id].status == Outbox.StatusOf(t)
      ensures HasEntered(t, run[n].payments[id].status)
    {
      StatusReaches(cfg, run, actions, i, n, id);
    }
    if HasEntered(t, run[n].payments[id].status) && t.PaymentMatched? {
      MatchedBefore(cfg, run, actions, n, id);
    }
  }

  /** The confirmation count is at the snapshot exactly while the payment is confirmed, and below it otherwise. */
  lemma ConfirmedIffAtSnapshot(cfg: Config, run: seq<Database>, actions: seq<Action>, n: nat, id: string)
    requires IsRun(cfg, run, actions) && n < |run| && id in run[n].payments
    ensures
      var p := run[n].payments[id];
      && (p.status.Confirmed? <==> p.confirmations == p.terms.requiredConfirmations)
      && p.confirmations <= p.terms.requiredConfirmations
      && (IsTerminal(p.status) <==> p.terminalAt.Some?)
  {
    RunInvariant(cfg, run, actions, n, n);
    assert PaymentOk(cfg, run[n], id);
  }

  // ----- where the code falls short -----

  /** How far the raw amounts of the canonical claims are above what was received. */
  function Discrepancy(id: string, events: seq<Event>): int {
    if events == [] then 0
    else
      var e := events[|events| - 1];
      Discrepancy(id, events[..|events| - 1])
      + (if e.owner == Some(id) && e.canonical then e.capture.amount - Effective(e) else 0)
  }

  /** No surviving claim received more than its log says. */
  predicate NoneAboveLog(id: string, events: seq<Event>) {
    forall i :: 0 <= i < |events| && events[i].owner == Some(id) && events[i].canonical ==>
      Effective(events[i]) <= events[i].capture.amount
  }

  /** Every surviving claim received what its log says. */
  predicate AllVerbatim(id: string, events: seq<Event>) {
    forall i :: 0 <= i < |events| && events[i].owner == Some(id) && events[i].canonical ==> Verbatim(events[i])
  }

  lemma {:induction false} RawIsOffByDiscrepancy(id: string, events: seq<Event>)
    ensures Total(CanonicalRaw, id, events) == Total(CanonicalClaims, id, events) + Discrepancy(id, events)
    ensures NoneAboveLog(id, events) ==>
      Discrepancy(id, events) >= 0 && (Discrepancy(id, events) == 0 <==> AllVerbatim(id, events))
  {
    if events != [] {
      var front := events[..|events| - 1];
      RawIsOffByDiscrepancy(id, front);
      assert forall i :: 0 <= i < |front| ==> front[i] == events[i];
    }
  }

  /**
   The reorg recomputation sums logged amounts where claims sum received ones. What it
   stores is off by exactly the discrepancy; when no claim received more than its log
   says (fees on transfer), it is right if and only if every surviving claim is verbatim.
   */
  lemma RecomputeIsRightIff(db: Database, read: Payment)
    requires read.terms.paymentId in db.payments && db.payments[read.terms.paymentId] == read && read.status.Pending?
    ensures
      var id := read.terms.paymentId;
      var stored :=
        RecomputePartial(db, read, Total(CanonicalRaw, id, db.events)).payments[id].money.partialAmountReceived;
      && stored.Some?
      && stored.value == Total(CanonicalClaims, id, db.events) + Discrepancy(id, db.events)
      && (NoneAboveLog(id, db.events) ==>
            (stored == Some(Total(CanonicalClaims, id, db.events)) <==> AllVerbatim(id, db.events)))
  {
    RawIsOffByDiscrepancy(read.terms.paymentId, db.events);
  }

  /**
   `excessAmount` is not cleared: after a re-link it is the excess if and only if there is
   an excess now or there never was one, so only the flag tells whether it means anything.
   */
  lemma ExcessIsCurrentIff(p: Payment, event: Event, total: nat, replacement: bool)
    ensures
      var m := LinkedPayment(p, event, total, replacement).money;
      && (m.excessAmount.GetOr(0) == ExcessOver(total, p.terms.amount)
          <==> total > p.terms.amount || p.money.excessAmount.GetOr(0) == 0)
      && (m.overpaymentFlag <==> ExcessOver(total, p.terms.amount) > 0)
  {
  }

  /**
   An audit row says what a worker meant to do: the row is written in every case, the
   payment moves if and only if the version check passed.
   */
  lemma AuditRowWithoutTransition(cfg: Config, db: Database, read: Payment, w: Write)
    requires w.Transition?
    ensures
      var next := ApplyWrite(cfg, db, read, w);
      && next.audit == db.audit + [AuditRow(read.terms.paymentId, w.action, read.status, w.to, MatchedId(read))]
      && (next.payments != db.payments <==> StillAt(db, read))
      && (!StillAt(db, read) ==> next == db.(audit := next.audit))
  {
    if StillAt(db, read) {
      var id := read.terms.paymentId;
      assert ApplyWrite(cfg, db, read, w).payments[id].version == db.payments[id].version + 1;
    }
  }

  /**
   A confirmation call that found the threshold reached and nothing against it but, perhaps, the
   sender's screening.
   */
  predicate AtThreshold(read: Payment, event: Option<Event>, seen: Observation) {
    && read.status.Confirming? && !read.automationHold && read.matched.Some?
    && event.Some? && event.value.canonical
    && seen.Observed? && seen.canonical && seen.confirmations >= read.terms.requiredConfirmations
  }

  /**
   A whole confirmation call, run without interference, confirms the payment if and only if
   its read was current, no block decision stands and the fresh screening is clear. In
   particular a release decision never confirms over a non-clear screening: the release
   write moves the version the confirmation write is conditional on, yet the call reports
   `confirmed`.
   */
  lemma ConfirmsIff(cfg: Config, db: Database, read: Payment, event: Option<Event>, seen: Observation, now: int,
      now2: int, review: Option<ReviewDecision>, verdict: Verdict)
    requires AtThreshold(read, event, seen) && Genuine(db, read) && !db.payments[read.terms.paymentId].status.Confirmed?
    ensures
      var d := Decide(cfg, read, event, seen, now, now2, review, verdict);
      var after := ApplyWrites(cfg, db, read, d.writes);
      && (read.terms.paymentId in after.payments)
      && (after.payments[read.terms.paymentId].status.Confirmed?
          <==> StillAt(db, read) && review != Some(Block) && verdict.VerdictClear?)
      && (review == Some(Release) ==> d.outcome == TerminalOutcome(Confirmed))
  {
    var d := Decide(cfg, read, event, seen, now, now2, review, verdict);
    assert d == DecideConfirmation(cfg, read, now2, review, verdict);
    ThresholdWrites(cfg, read, now2, review, verdict);
    if |d.writes| == 1 {
      OneWrite(cfg, db, read, d.writes);
    } else if |d.writes| == 2 {
      SecondWriteLoses(cfg, db, read, d.writes);
    }
  }

  /** The writes at the threshold: none or a hold, the confirmation alone, or an override before it. */
  lemma ThresholdWrites(cfg: Config, read: Payment, now2: int, review: Option<ReviewDecision>, verdict: Verdict)
    requires read.status.Confirming?
    ensures
      var d := DecideConfirmation(cfg, read, now2, review, verdict);
      && |d.writes| <= 2 && (forall k :: 0 <= k < |d.writes| ==> d.writes[k].Transition?)
      && (|d.writes| == 1 ==>
            d.writes[0].to == if review != Some(Block) && ScreeningFor(verdict) == Clear then Confirmed else Confirming)
      && (review != Some(Block) && ScreeningFor(verdict) == Clear ==> |d.writes| == 1)
      && (|d.writes| == 2 ==> d.writes[0].to == Confirming && review == Some(Release) && ScreeningFor(verdict) != Clear)
      && (review == Some(Release) ==> d.outcome == TerminalOutcome(Confirmed))
  {
  }

  lemma OneWrite(cfg: Config, db: Database, read: Payment, writes: seq<Write>)
    requires |writes| == 1 && writes[0].Transition? && read.terms.paymentId in db.payments
    ensures
      var after := ApplyWrites(cfg, db, read, writes).payments;
      && read.terms.paymentId in after
      && after[read.terms.paymentId].status == if StillAt(db, read) then writes[0].to
          else db.payments[read.terms.paymentId].status
  {
    assert writes[..0] == [];
  }

  /** Two conditional writes from one read: the first moves the version, so the second never applies. */
  lemma SecondWriteLoses(cfg: Config, db: Database, read: Payment, writes: seq<Write>)
    requires |writes| == 2 && writes[0].Transition? && writes[1].Transition? && read.terms.paymentId in db.payments
    ensures
      var after := ApplyWrites(cfg, db, read, writes).payments;
      && read.terms.paymentId in after
      && after[read.terms.paymentId].status == if StillAt(db, read) then writes[0].to
          else db.payments[read.terms.paymentId].status
  {
    OneWrite(cfg, db, read, writes[..1]);
    var mid := ApplyWrites(cfg, db, read, writes[..1]);
    assert writes[..1][..0] == [];
    assert mid == ApplyWrite(cfg, db, read, writes[0]);
    assert !StillAt(mid, read);
  }
}
