/** What holds over every run of the payment services, and where the code falls short of its own promises. */
module LedgerTheorems {
  import opened Common
  import opened StateMachine
  import opened Ledger
  import opened Commits
  import opened LedgerRuns
  import opened LedgerInvariants
  import opened LedgerSteps

  // ----- every run -----

  lemma {:induction false} RunSettled(cfg: Config, run: seq<Database>, actions: seq<Action>, n: nat)
    requires IsRun(cfg, run, actions) && 0 < n <= |run|
    ensures Settled(cfg, run[..n])
  {
    if n == 1 {
      EvolvesReflexive(EMPTY);
      assert run[..1] == [EMPTY];
    } else {
      RunSettled(cfg, run, actions, n - 1);
      var past, next := run[..n - 1], run[n - 1];
      assert Enabled(cfg, run[..(n - 2) + 1], actions[n - 2]);
      StepKeeps(cfg, past, actions[n - 2]);
      ExtendSettled(cfg, past, next);
      assert run[..n] == past + [next];
    }
  }

  lemma ExtendSettled(cfg: Config, past: seq<Database>, next: Database)
    requires Settled(cfg, past) && Keeps(cfg, past, next)
    ensures Settled(cfg, past + [next])
  {
    var all := past + [next];
    forall i, j | 0 <= i <= j < |all| ensures Evolves(all[i], all[j]) {
      if j < |past| {
        assert Evolves(past[i], past[j]);
      } else if i < |past| {
        assert Evolves(past[i], past[|past| - 1]);
        EvolvesTransitive(past[i], Last(past), next);
      } else {
        EvolvesReflexive(next);
      }
    }
  }

  /**
   Every state of every run is in order, and any two states are related: payment rows
   change only under a higher version and along the transition table, captures and
   owners never change once written, and a payment that gained a claim was open and
   moved its version with it.
   */
  lemma RunInvariant(cfg: Config, run: seq<Database>, actions: seq<Action>, i: nat, j: nat)
    requires IsRun(cfg, run, actions) && i <= j < |run|
    ensures Inv(cfg, run[i]) && Inv(cfg, run[j]) && Evolves(run[i], run[j])
  {
    RunSettled(cfg, run, actions, |run|);
    assert run[..|run|] == run;
    HistoryBefore(cfg, run, i, j);
  }

  // ----- conservation -----

  lemma {:induction false} NothingOrphaned(cfg: Config, run: seq<Database>, actions: seq<Action>, n: nat)
    requires IsRun(cfg, run, actions) && n < |run|
    requires forall k :: 0 <= k < |actions| ==> !actions[k].OrphanEvents?
    ensures forall i :: 0 <= i < |run[n].events| ==> run[n].events[i].canonical
  {
    if n > 0 {
      NothingOrphaned(cfg, run, actions, n - 1);
      var past, a := run[..n], actions[n - 1];
      assert past == run[..(n - 1) + 1] && Last(past) == run[n - 1];
      assert Enabled(cfg, past, a) && run[n] == Apply(cfg, past, a);
      StaysCanonical(cfg, past, a);
    }
  }

  lemma StaysCanonical(cfg: Config, past: seq<Database>, a: Action)
    requires |past| > 0 && Enabled(cfg, past, a) && !a.OrphanEvents?
    requires forall i :: 0 <= i < |Last(past).events| ==> Last(past).events[i].canonical
    ensures forall i :: 0 <= i < |Apply(cfg, past, a).events| ==> Apply(cfg, past, a).events[i].canonical
  {
    var events := Apply(cfg, past, a).events;
    if a.Claim? {
      ClaimKeepsFlags(cfg, Last(past), past[a.readAt].events[a.row], a.paymentId, a.now);
    } else if a.Interpret? || a.Ingest? {
      forall i | 0 <= i < |events| ensures events[i].canonical {
        if i < |Last(past).events| {
          assert Last(past).events[i].canonical;
        }
      }
    } else {
      assert events == Last(past).events;
    }
  }

  lemma ClaimKeepsFlags(cfg: Config, cur: Database, event: Event, id: string, now: int)
    ensures
      var outcome := ApplyClaim(cfg, cur, event, id, now);
      outcome.Committed? ==>
        |outcome.db.events| == |cur.events|
        && forall i :: 0 <= i < |cur.events| ==> outcome.db.events[i].canonical == cur.events[i].canonical
  {
  }

  /** What a committed claim transaction can have done, in one line each. */
  ghost predicate ClaimChange(cfg: Config, cur: Database, next: Database, event: Event, id: string, action: MatchAction)
    requires id in cur.payments
  {
    var p := cur.payments[id];
    || (next == cur && !IsClaim(action))
    || (&& action.LateArrivalAnnotated? && next.events == cur.events
        && MovesTo(cur, next, p, Expired))
    || (IsClaim(action) && ClaimWritten(cur, next, event, id))
  }

  ghost predicate ClaimWritten(cur: Database, next: Database, event: Event, id: string)
    requires id in cur.payments
  {
    var p := cur.payments[id];
    && Claimable(cur.events, event.capture.eventId, id)
    && next.events == WithOwner(cur.events, event.capture.eventId, id)
    && (MovesTo(cur, next, p, Matched) || MovesTo(cur, next, p, p.status))
    && next.payments[p.terms.paymentId].money.partialAmountReceived == Some(TotalIncluding(next.events, event, id))
  }

  ghost predicate MovesTo(cur: Database, next: Database, p: Payment, status: Status) {
    var id := p.terms.paymentId;
    && id in next.payments
    && next.payments == cur.payments[id := next.payments[id]]
    && next.payments[id].status == status && Follows(p.status, status)
    && next.payments[id].version == p.version + 1
    && |next.audit| == |cur.audit| + 1 && next.audit[..|cur.audit|] == cur.audit
    && var row := next.audit[|cur.audit|]; row.entityId == id && row.before == p.status && row.after == status
  }

  lemma ClaimShape(cfg: Config, cur: Database, event: Event, id: string, now: int)
    requires id in cur.payments && cur.payments[id].terms.paymentId == id
    ensures
      var outcome := ApplyClaim(cfg, cur, event, id, now);
      outcome.Committed? ==> ClaimChange(cfg, cur, outcome.db, event, id, outcome.action)
  {
    var p := cur.payments[id];
    if p.status.Pending? && now > p.terms.expiresAt {
      ExpiryShape(cfg, cur, event, p, now);
    } else if Claimable(cur.events, event.capture.eventId, id) {
      var events := WithOwner(cur.events, event.capture.eventId, id);
      var total := TotalIncluding(events, event, id);
      MatchShape(cfg, cur, events, event, p, total);
      LinkShape(cur, events, event, p, total);
    }
  }

  lemma ExpiryShape(cfg: Config, cur: Database, event: Event, p: Payment, now: int)
    requires p.status.Pending?
    ensures
      var next := ExpireInClaim(cfg, cur, event, p, now).db;
      next == cur || (MovesTo(cur, next, p, Expired) && next.events == cur.events)
  {
  }

  lemma MatchShape(cfg: Config, cur: Database, events: seq<Event>, event: Event, p: Payment, total: nat)
    ensures
      var next := MatchInClaim(cfg, cur, events, event, p, total).db;
      && next.events == events
      && (p.status.Pending? ==> MovesTo(cur, next, p, Matched))
      && next.payments[p.terms.paymentId].money.partialAmountReceived == Some(total)
  {
  }

  lemma LinkShape(cur: Database, events: seq<Event>, event: Event, p: Payment, total: nat)
    ensures
      var next := LinkInClaim(cur, events, event, p, total).db;
      && next.events == events
      && MovesTo(cur, next, p, p.status)
      && next.payments[p.terms.paymentId].money.partialAmountReceived == Some(total)
  {
  }

  /**
   Conservation: as long as no reorg orphans events, a payment's stored total is the
   sum of the effective amounts of exactly the events it claimed, whatever the order,
   repetition and interleaving of deliveries, sweeps and confirmations.
   */
  lemma Conservation(cfg: Config, run: seq<Database>, actions: seq<Action>, n: nat, id: string)
    requires IsRun(cfg, run, actions) && n < |run| && id in run[n].payments
    requires forall k :: 0 <= k < |actions| ==> !actions[k].OrphanEvents?
    ensures
      var p, claimed := run[n].payments[id], Total(AllClaims, id, run[n].events);
      && p.money.partialAmountReceived.GetOr(0) == claimed
      && (EverMatched(p.status) ==> p.money.amountReceived == Some(claimed))
  {
    RunInvariant(cfg, run, actions, n, n);
    NothingOrphaned(cfg, run, actions, n);
    assert PaymentOk(cfg, run[n], id);
    TotalAtMost(AllClaims, id, run[n].events, CanonicalClaims, run[n].events);
  }

  /**
   With reorgs: a matched payment's received amount covers its price, never exceeds what
   it claimed, and determines flag and excess; unless a balance-delta claim was caught in
   a reorg, the stored total also lies between the canonical and the full claim total.
   */
  lemma AmountsInEveryRun(cfg: Config, run: seq<Database>, actions: seq<Action>, n: nat, id: string)
    requires IsRun(cfg, run, actions) && n < |run| && id in run[n].payments
    ensures
      var p, m := run[n].payments[id], run[n].payments[id].money;
      var claimed, canonical := Total(AllClaims, id, run[n].events), Total(CanonicalClaims, id, run[n].events);
      && (EverMatched(p.status) <==> m.amountReceived.Some?)
      && (EverMatched(p.status) ==>
            && p.terms.amount <= m.amountReceived.value <= claimed
            && (m.overpaymentFlag <==> m.amountReceived.value > p.terms.amount)
            && (m.overpaymentFlag ==> m.excessAmount == Some(m.amountReceived.value - p.terms.amount))
            && (!cfg.overpaymentAllow ==> m.amountReceived.value == p.terms.amount))
      && (Exact(run[n].events, id) ==> canonical <= m.partialAmountReceived.GetOr(0) <= claimed)
  {
    RunInvariant(cfg, run, actions, n, n);
    assert PaymentOk(cfg, run[n], id);
  }

  /** A payment that is pending, or that expired, never holds canonical claims worth its price. */
  lemma NeverExpiresFullyPaid(cfg: Config, run: seq<Database>, actions: seq<Action>, n: nat, id: string)
    requires IsRun(cfg, run, actions) && n < |run| && id in run[n].payments
    requires run[n].payments[id].status.Pending? || run[n].payments[id].status.Expired?
    ensures Total(CanonicalClaims, id, run[n].events) < run[n].payments[id].terms.amount
  {
    RunInvariant(cfg, run, actions, n, n);
    assert PaymentOk(cfg, run[n], id);
  }

  predicate IsClaim(action: MatchAction) {
    action.ClaimedMatched? || action.ClaimedPartial? || action.ReplacementLinked? || action.ExcessLinked?
  }

  /** The payment owns the event, moved by one version, and stores the total of its canonical claims. */
  ghost predicate ClaimStored(cur: Database, next: Database, row: nat, id: string)
    requires id in cur.payments
  {
    && row < |next.events| && next.events[row].owner == Some(id)
    && id in next.payments && next.payments[id].version == cur.payments[id].version + 1
    && next.payments[id].money.partialAmountReceived
       == Some(Total(CanonicalClaims, id, next.events)
               + if next.events[row].canonical then 0 else Effective(next.events[row]))
  }

  /**
   A committed claim stores the canonical claims of that very commit, plus its own event if a
   reorg got there first.
   */
  lemma ClaimStoresCanonicalTotal(cfg: Config, was: Database, cur: Database, row: nat, id: string, now: int)
    requires Before(cfg, was, cur) && row < |was.events| && id in cur.payments
    requires was.events[row].interpretation == Some(Accepted)
    ensures
      var outcome := ApplyClaim(cfg, cur, was.events[row], id, now);
      outcome.Committed? && IsClaim(outcome.action) ==> ClaimStored(cur, outcome.db, row, id)
  {
    var event := was.events[row];
    assert EventEvolves(event, cur.events[row]);
    assert IndexOf(cur.events, event.capture.eventId) == row;
    KeyedById(cfg, cur, id);
    ClaimShape(cfg, cur, event, id, now);
    var outcome := ApplyClaim(cfg, cur, event, id, now);
    if outcome.Committed? && IsClaim(outcome.action) {
      ClaimStoredFrom(cur, outcome.db, event, row, id);
    }
  }

  /**
   So in every run: a claim whose event was read at any earlier state, if it takes the event,
   stores the canonical total of the state it commits.
   */
  lemma ClaimsStoreCanonicalTotal(cfg: Config, run: seq<Database>, actions: seq<Action>, n: nat)
    requires IsRun(cfg, run, actions) && n < |actions| && actions[n].Claim?
    ensures
      var a := actions[n];
      && a.readAt <= n && a.row < |run[a.readAt].events| && a.paymentId in run[n].payments
      && var outcome := ApplyClaim(cfg, run[n], run[a.readAt].events[a.row], a.paymentId, a.now);
         && run[n + 1] == (if outcome.Committed? then outcome.db else run[n])
         && (outcome.Committed? && IsClaim(outcome.action) ==> ClaimStored(run[n], run[n + 1], a.row, a.paymentId))
  {
    var a := actions[n];
    assert Enabled(cfg, run[..n + 1], a) && run[n + 1] == Apply(cfg, run[..n + 1], a);
    assert run[..n + 1][n] == run[n] && run[..n + 1][a.readAt] == run[a.readAt];
    RunInvariant(cfg, run, actions, a.readAt, n);
    ClaimStoresCanonicalTotal(cfg, run[a.readAt], run[n], a.row, a.paymentId, a.now);
  }

  lemma ClaimStoredFrom(cur: Database, next: Database, event: Event, row: nat, id: string)
    requires id in cur.payments && cur.payments[id].terms.paymentId == id && UniqueIds(cur.events)
    requires event.interpretation == Some(Accepted)
    requires row < |cur.events| && IndexOf(cur.events, event.capture.eventId) == row
    requires EventEvolves(event, cur.events[row])
    requires ClaimWritten(cur, next, event, id)
    ensures ClaimStored(cur, next, row, id)
  {
    ClaimTotals(cur, event, id);
  }

  // ----- claims -----

  /**
   Claims are permanent, and a closed payment is closed to claims: its row's status and
   its whole claim set are the same in every later state.
   */
  lemma ClaimsArePermanent(cfg: Config, run: seq<Database>, actions: seq<Action>, i: nat, j: nat)
    requires IsRun(cfg, run, actions) && i <= j < |run|
    ensures forall k :: 0 <= k < |run[i].events| && run[i].events[k].owner.Some? ==>
              k < |run[j].events| && run[j].events[k].owner == run[i].events[k].owner
    ensures forall id :: id in run[i].payments && IsTerminal(run[i].payments[id].status) ==>
              && id in run[j].payments && run[j].payments[id].status == run[i].payments[id].status
              && Total(AllClaims, id, run[j].events) == Total(AllClaims, id, run[i].events)
              && (forall k :: 0 <= k < |run[j].events| && run[j].events[k].owner == Some(id) ==>
                    k < |run[i].events| && run[i].events[k].owner == Some(id))
  {
    RunInvariant(cfg, run, actions, i, j);
    forall k | 0 <= k < |run[i].events| && run[i].events[k].owner.Some?
      ensures k < |run[j].events| && run[j].events[k].owner == run[i].events[k].owner
    {
      assert EventEvolves(run[i].events[k], run[j].events[k]);
    }
    InvInterprets(cfg, run[i]);
    forall id | id in run[i].payments && IsTerminal(run[i].payments[id].status)
      ensures id in run[j].payments && run[j].payments[id].status == run[i].payments[id].status
      ensures Total(AllClaims, id, run[j].events) == Total(AllClaims, id, run[i].events)
      ensures forall k :: 0 <= k < |run[j].events| && run[j].events[k].owner == Some(id) ==>
                k < |run[i].events| && run[i].events[k].owner == Some(id)
    {
      ClosedToClaims(run[i], run[j], id);
    }
  }

  lemma ClosedToClaims(was: Database, now: Database, id: string)
    requires Evolves(was, now) && ClaimsAreInterpreted(was.events)
    requires id in was.payments && IsTerminal(was.payments[id].status)
    ensures now.payments[id].status == was.payments[id].status
    ensures Total(AllClaims, id, now.events) == Total(AllClaims, id, was.events)
    ensures forall k :: 0 <= k < |now.events| && now.events[k].owner == Some(id) ==>
              k < |was.events| && was.events[k].owner == Some(id)
  {
    assert PaymentEvolves(was.payments[id], now.payments[id]);
    forall k | 0 <= k < |now.events|
      ensures now.events[k].owner == Some(id) ==> k < |was.events| && was.events[k].owner == Some(id)
      ensures Share(AllClaims, id, now.events[k]) <= ShareAt(AllClaims, id, was.events, k)
    {
      assert !NewClaim(was, now, k, id);
      if k < |was.events| {
        assert EventEvolves(was.events[k], now.events[k]);
      }
    }
    TotalAtMost(AllClaims, id, now.events, AllClaims, was.events);
    TotalClaimsGrow(was, now, id);
  }

  /** Every claimed event was accepted and sent to its payment's own address, on its chain and in its token. */
  lemma ClaimsMatchTheirPayment(cfg: Config, run: seq<Database>, actions: seq<Action>, n: nat, k: nat)
    requires IsRun(cfg, run, actions) && n < |run| && k < |run[n].events|
    requires run[n].events[k].owner.Some?
    ensures run[n].events[k].interpretation == Some(Accepted)
    ensures run[n].events[k].owner.value in run[n].payments
    ensures
      var e := run[n].events[k];
      var terms := run[n].payments[e.owner.value].terms;
      && terms.paymentId == e.owner.value && terms.address == e.capture.toAddress && terms.chain == e.capture.chain
      && e.token == Some(terms.token)
  {
    RunInvariant(cfg, run, actions, n, n);
    assert ClaimOk(run[n], run[n].events[k]);
  }

  // ----- status histories and notifications -----

  /** The payment moved along at most one edge of the table, and if it moved the audit trail says so. */
  ghost predicate Recorded(cur: Database, next: Database, id: string)
    requires id in cur.payments
  {
    && id in next.payments
    && Follows(cur.payments[id].status, next.payments[id].status)
    && (next.payments[id].status != cur.payments[id].status ==>
          exists row: AuditRow :: next.audit == cur.audit + [row] && row.entityId == id
            && row.before == cur.payments[id].status && row.after == next.payments[id].status)
  }

  /** One action moves a payment along at most one edge of the table, and says so in the audit trail. */
  lemma StepFollowsTable(cfg: Config, past: seq<Database>, a: Action, id: string)
    requires Settled(cfg, past) && Enabled(cfg, past, a) && id in Last(past).payments
    ensures Recorded(Last(past), Apply(cfg, past, a), id)
  {
    var cur, n := Last(past), |past| - 1;
    match a
    case Claim(at, row, other, now) =>
      ClaimFollowsTable(cfg, cur, past[at].events[row], other, now, id);
    case Sweep(at, totalAt, other, now) =>
      SweepReads(cfg, past, at, totalAt, other);
      SweepFollowsTable(cfg, cur, past[at].payments[other],
          Total(CanonicalClaims, other, past[totalAt].events), now, id);
    case Confirm(at, eventAt, other, seen, now, now2, review, verdict, k) =>
      HistoryBefore(cfg, past, at, n);
      ReadStillCurrent(cfg, past[at], cur, other);
      var event := EventById(past[eventAt].events, MatchedId(past[at].payments[other]));
      ConfirmFollowsTable(cfg, cur, past[at].payments[other], event, seen, now, now2, review, verdict, k, id);
    case Recompute(at, totalAt, other) =>
      MarksKeepStatus(cur, past[at].payments[other], Total(CanonicalRaw, other, past[totalAt].events), Clear, id);
    case Incident(at, other) => MarksKeepStatus(cur, past[at].payments[other], 0, Clear, id);
    case Screen(at, other, status) => MarksKeepStatus(cur, past[at].payments[other], 0, status, id);
    case Create(_) =>
    case Ingest(_) =>
    case Interpret(_, _, _, _) =>
    case OrphanEvents(_, _) =>
    case Record(_) =>
    case Annotate(_) =>
  }

  lemma MarksKeepStatus(cur: Database, read: Payment, raw: nat, status: Screening, id: string)
    requires id in cur.payments
    ensures Recorded(cur, RecomputePartial(cur, read, raw), id)
    ensures Recorded(cur, HoldForIncident(cur, read), id)
    ensures Recorded(cur, SetScreening(cur, read, status), id)
  {
  }

  lemma ClaimFollowsTable(cfg: Config, cur: Database, event: Event, other: string, now: int, id: string)
    requires Inv(cfg, cur) && other in cur.payments && id in cur.payments
    ensures
      var outcome := ApplyClaim(cfg, cur, event, other, now);
      outcome.Committed? ==> Recorded(cur, outcome.db, id)
  {
    KeyedById(cfg, cur, other);
    ClaimShape(cfg, cur, event, other, now);
    var outcome := ApplyClaim(cfg, cur, event, other, now);
    if outcome.Committed? && outcome.db != cur {
      RecordedMove(cur, outcome.db, cur.payments[other], id);
    }
  }

  lemma RecordedMove(cur: Database, next: Database, p: Payment, id: string)
    requires id in cur.payments && p.terms.paymentId in cur.payments && cur.payments[p.terms.paymentId] == p
    requires p.terms.paymentId in next.payments && MovesTo(cur, next, p, next.payments[p.terms.paymentId].status)
    ensures Recorded(cur, next, id)
  {
    assert next.audit == cur.audit + [next.audit[|cur.audit|]];
  }

  lemma SweepFollowsTable(cfg: Config, cur: Database, read: Payment, total: nat, now: int, id: string)
    requires Inv(cfg, cur) && id in cur.payments && Genuine(cur, read)
    ensures Recorded(cur, SweepExpiry(cfg, cur, read, total, now), id)
  {
    SweepWritesWhen(cfg, cur, read, total, now);
  }

  lemma ConfirmFollowsTable(cfg: Config, cur: Database, read: Payment, event: Option<Event>, seen: Observation,
      now: int, now2: int, review: Option<ReviewDecision>, verdict: Verdict, k: nat, id: string)
    requires Inv(cfg, cur) && id in cur.payments && Genuine(cur, read)
    requires k < |Decide(cfg, read, event, seen, now, now2, review, verdict).writes|
    ensures Recorded(cur, ApplyWrite(cfg, cur, read, Decide(cfg, read, event, seen, now, now2, review,
        verdict).writes[k]), id)
  {
    var w := Decide(cfg, read, event, seen, now, now2, review, verdict).writes[k];
    if w.Transition? && StillAt(cur, read) {
      OpenPaymentBelowSnapshot(cfg, cur, read.terms.paymentId);
      DecidedWrites(cfg, read, event, seen, now, now2, review, verdict, k);
      TransitionAnnounces(cfg, cur, read, w);
    }
  }
}
