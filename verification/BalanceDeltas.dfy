/**
 Tokens whose claims count at a balance delta. The reader
 (src/infrastructure/chain/evm-balance-delta-reader.ts) reports the holder's change over a
 whole block, whichever transfer of the block it is asked about.
 */
module BalanceDeltas {
  import opened Common
  import opened Ledger
  import opened Commits
  import opened LedgerRuns
  import opened LedgerTheorems
  import LedgerReorgs
  import LedgerWitnesses

  /** What an address received of one token over a block, by chain, address and block number. */
  type Deltas = (string, string, nat) -> nat

  function DeltaOf(delta: Deltas, e: Event): nat {
    delta(e.capture.chain, e.capture.toAddress, e.capture.blockNumber)
  }

  /** In this run every acceptance for the token carries the positive delta read for its event's block. */
  ghost predicate Verifies(run: seq<Database>, actions: seq<Action>, token: string, delta: Deltas)
    requires |run| == |actions| + 1
  {
    forall k :: 0 <= k < |actions| && actions[k].Interpret? && actions[k].row < |run[k].events|
                && actions[k].judgment.Accepted? && actions[k].token == Some(token) ==>
      actions[k].verified == Some(DeltaOf(delta, run[k].events[actions[k].row]))
      && DeltaOf(delta, run[k].events[actions[k].row]) > 0
  }

  predicate AtDelta(e: Event, token: string, delta: Deltas) {
    e.interpretation == Some(Accepted) && e.token == Some(token) ==>
      e.verifiedReceivedAmount == Some(DeltaOf(delta, e)) && DeltaOf(delta, e) > 0
  }

  predicate SameJudgment(e: Event, f: Event) {
    e.interpretation == f.interpretation && e.token == f.token && e.verifiedReceivedAmount == f.verifiedReceivedAmount
  }

  lemma ClaimKeepsJudgments(cfg: Config, cur: Database, event: Event, id: string, now: int, row: nat)
    requires row < |cur.events| && ApplyClaim(cfg, cur, event, id, now).Committed?
    ensures
      var next := ApplyClaim(cfg, cur, event, id, now).db;
      |next.events| == |cur.events| && SameJudgment(next.events[row], cur.events[row])
  {
  }

  lemma ClaimAddsNoEvent(cfg: Config, cur: Database, event: Event, id: string, now: int)
    ensures ApplyClaim(cfg, cur, event, id, now).Committed? ==>
      |ApplyClaim(cfg, cur, event, id, now).db.events| == |cur.events|
  {
  }

  /** A step judges no event but the one it interprets, and adds none but an unjudged one. */
  lemma StepJudges(cfg: Config, past: seq<Database>, a: Action, row: nat)
    requires |past| > 0 && Enabled(cfg, past, a) && row < |Apply(cfg, past, a).events|
    ensures
      var cur, next := past[|past| - 1], Apply(cfg, past, a);
      if row < |cur.events| then (a.Interpret? && a.row == row) || SameJudgment(next.events[row], cur.events[row])
      else next.events[row].interpretation.None?
  {
    var cur := past[|past| - 1];
    if a.Claim? {
      ClaimAddsNoEvent(cfg, cur, past[a.readAt].events[a.row], a.paymentId, a.now);
      if row < |cur.events| && ApplyClaim(cfg, cur, past[a.readAt].events[a.row], a.paymentId, a.now).Committed? {
        ClaimKeepsJudgments(cfg, cur, past[a.readAt].events[a.row], a.paymentId, a.now, row);
      }
    } else if a.Sweep? {
      LedgerReorgs.SweepKeepsEvents(cfg, cur, past[a.paymentAt].payments[a.paymentId],
                                    Total(CanonicalClaims, a.paymentId, past[a.totalAt].events), a.now);
    } else if a.Confirm? {
      LedgerReorgs.WriteKeepsEvents(cfg, cur, past[a.paymentAt].payments[a.paymentId], WritesOf(cfg, past, a)[a.k]);
    } else {
      PlainStepJudges(cfg, past, a, row);
    }
  }

  lemma PlainStepJudges(cfg: Config, past: seq<Database>, a: Action, row: nat)
    requires |past| > 0 && Enabled(cfg, past, a) && row < |Apply(cfg, past, a).events|
    requires !a.Claim? && !a.Sweep? && !a.Confirm?
    ensures
      var cur, next := past[|past| - 1], Apply(cfg, past, a);
      if row < |cur.events| then (a.Interpret? && a.row == row) || SameJudgment(next.events[row], cur.events[row])
      else next.events[row].interpretation.None?
  {
  }

  /** Every accepted event of the token stands at its block's delta. */
  lemma {:induction false} AcceptedAtDelta(cfg: Config, run: seq<Database>, actions: seq<Action>, token: string,
      delta: Deltas, n: nat, row: nat)
    requires IsRun(cfg, run, actions) && Verifies(run, actions, token, delta) && n < |run| && row < |run[n].events|
    ensures AtDelta(run[n].events[row], token, delta)
  {
    if n > 0 {
      var k := n - 1;
      LedgerReorgs.StepAt(cfg, run, actions, k);
      StepJudges(cfg, run[..n], actions[k], row);
      if row < |run[k].events| {
        AcceptedAtDelta(cfg, run, actions, token, delta, k, row);
        RunInvariant(cfg, run, actions, k, n);
        assert EventEvolves(run[k].events[row], run[n].events[row]);
      }
    }
  }

  // ----- claimed against received -----

  predicate Counted(e: Event, id: string) {
    e.owner == Some(id) && e.canonical
  }

  predicate ShareBlock(e: Event, f: Event) {
    && e.token == f.token && e.capture.chain == f.capture.chain
    && e.capture.toAddress == f.capture.toAddress && e.capture.blockNumber == f.capture.blockNumber
  }

  predicate BlockSeen(events: seq<Event>, id: string, e: Event) {
    exists i :: 0 <= i < |events| && Counted(events[i], id) && ShareBlock(events[i], e)
  }

  /** What the address received over the blocks of the payment's canonical claims, each block once. */
  function Received(events: seq<Event>, id: string, delta: Deltas): nat {
    if events == [] then 0
    else
      var front, last := events[..|events| - 1], events[|events| - 1];
      Received(front, id, delta) + if Counted(last, id) && !BlockSeen(front, id, last) then DeltaOf(delta, last) else 0
  }

  predicate NoneShareBlock(events: seq<Event>, id: string) {
    forall i, j :: 0 <= i < j < |events| && Counted(events[i], id) && Counted(events[j], id) ==>
      !ShareBlock(events[i], events[j])
  }

  lemma {:induction false} ClaimedAgainstReceived(events: seq<Event>, id: string, delta: Deltas)
    requires forall i :: 0 <= i < |events| && Counted(events[i], id) ==>
      Effective(events[i]) == DeltaOf(delta, events[i]) && DeltaOf(delta, events[i]) > 0
    ensures Received(events, id, delta) <= Total(CanonicalClaims, id, events)
    ensures Total(CanonicalClaims, id, events) <= Received(events, id, delta) <==> NoneShareBlock(events, id)
  {
    if events != [] {
      var front, last := events[..|events| - 1], events[|events| - 1];
      ClaimedAgainstReceived(front, id, delta);
      if Counted(last, id) && BlockSeen(front, id, last) {
        var i :| 0 <= i < |front| && Counted(front[i], id) && ShareBlock(front[i], last);
        assert events[i] == front[i];
      }
      assert NoneShareBlock(events, id) <==>
        NoneShareBlock(front, id) && !(Counted(last, id) && BlockSeen(front, id, last)) by {
        assert forall i :: 0 <= i < |front| ==> front[i] == events[i];
      }
    }
  }

  /**
   In every state of every run over such a token, a payment's canonical claims come to no more
   than its address received over their blocks exactly if no two of them share token, address
   and block.
   */
  lemma ClaimedAtMostReceivedIff(cfg: Config, run: seq<Database>, actions: seq<Action>, n: nat, id: string,
      delta: Deltas)
    requires IsRun(cfg, run, actions) && n < |run| && id in run[n].payments
    requires Verifies(run, actions, run[n].payments[id].terms.token, delta)
    ensures Total(CanonicalClaims, id, run[n].events) <= Received(run[n].events, id, delta) <==>
      NoneShareBlock(run[n].events, id)
  {
    var events := run[n].events;
    forall i | 0 <= i < |events| && Counted(events[i], id)
      ensures Effective(events[i]) == DeltaOf(delta, events[i]) && DeltaOf(delta, events[i]) > 0
    {
      ClaimsMatchTheirPayment(cfg, run, actions, n, i);
      AcceptedAtDelta(cfg, run, actions, run[n].payments[id].terms.token, delta, n, i);
    }
    ClaimedAgainstReceived(events, id, delta);
  }

  /** The same change over every block. */
  function Always(sent: nat): Deltas {
    (_, _, _) => sent
  }

  lemma VerifiesAlways(run: seq<Database>, actions: seq<Action>, token: string, sent: nat)
    requires |run| == |actions| + 1 && sent > 0
    requires forall k :: 0 <= k < |actions| && actions[k].Interpret? ==> actions[k].verified == Some(sent)
    ensures Verifies(run, actions, token, Always(sent))
  {
  }

  lemma TwoAcceptances(actions: seq<Action>, p: Payment, first: Event, second: Event, sent: nat, a: Action, b: Action)
    requires !a.Interpret? && !b.Interpret?
    requires actions == [Create(p)] + LedgerWitnesses.Taking(first, p, Some(sent), 0) + [a]
                        + LedgerWitnesses.Taking(second, p, Some(sent), 1) + [b]
    ensures |actions| == 7
    ensures forall k :: 0 <= k < |actions| && actions[k].Interpret? ==> actions[k].verified == Some(sent)
  {
    var one, two := LedgerWitnesses.Taking(first, p, Some(sent), 0), LedgerWitnesses.Taking(second, p, Some(sent), 1);
    assert actions == [Create(p), one[0], one[1], a, two[0], two[1], b];
  }

  lemma ReceivedOnce(e: Event, f: Event, id: string, sent: nat)
    requires Counted(e, id) && Counted(f, id) && ShareBlock(e, f)
    ensures Received([e, f], id, Always(sent)) == sent
  {
    assert [e, f][..1] == [e] && [e][..0] == [];
    assert [e][0] == e && BlockSeen([e], id, f);
    assert Received([e], id, Always(sent)) == Received([], id, Always(sent)) + sent;
  }

  lemma TwoAtTotal(cfg: Config, p: Payment, first: Event, second: Event, sent: nat, now: int)
    returns (run: seq<Database>, actions: seq<Action>)
    requires IsNew(p) && LedgerWitnesses.IsDeposit(first, p) && LedgerWitnesses.IsDeposit(second, p)
    requires first.capture.eventId != second.capture.eventId && now <= p.terms.expiresAt && 2 * sent < p.terms.amount
    ensures IsRun(cfg, run, actions) && |actions| == 7
    ensures forall k :: 0 <= k < |actions| && actions[k].Interpret? ==> actions[k].verified == Some(sent)
    ensures run[7].events == [AtTotal(first, p, sent), AtTotal(second, p, sent)]
    ensures p.terms.paymentId in run[7].payments
    ensures run[7].payments[p.terms.paymentId].money.partialAmountReceived == Some(2 * sent)
  {
    var id := p.terms.paymentId;
    run, actions := LedgerWitnesses.TwoPartials(cfg, p, first, Some(sent), second, Some(sent), now);
    TwoAcceptances(actions, p, first, second, sent, Claim(3, 0, id, now), Claim(6, 1, id, now));
  }

  function AtTotal(e: Event, p: Payment, sent: nat): Event {
    LedgerWitnesses.OwnedBy(LedgerWitnesses.Judged(e, p, Some(sent)), p)
  }

  /** Two deposits of one block, each claimed at the block's total: the payment stores double what came in. */
  lemma BlockTotalCountsTwice(cfg: Config, p: Payment, first: Event, second: Event, now: int)
    returns (run: seq<Database>, actions: seq<Action>)
    requires IsNew(p) && LedgerWitnesses.IsDeposit(first, p) && LedgerWitnesses.IsDeposit(second, p)
    requires first.capture.eventId != second.capture.eventId && now <= p.terms.expiresAt
    requires first.capture.blockNumber == second.capture.blockNumber
    requires 0 < 2 * (first.capture.amount + second.capture.amount) < p.terms.amount
    ensures IsRun(cfg, run, actions) && |actions| == 7 && p.terms.paymentId in run[7].payments
    ensures
      var sent := first.capture.amount + second.capture.amount;
      && Verifies(run, actions, p.terms.token, Always(sent))
      && Received(run[7].events, p.terms.paymentId, Always(sent)) == sent
      && run[7].payments[p.terms.paymentId].money.partialAmountReceived == Some(2 * sent)
  {
    var sent := first.capture.amount + second.capture.amount;
    run, actions := TwoAtTotal(cfg, p, first, second, sent, now);
    VerifiesAlways(run, actions, p.terms.token, sent);
    ReceivedOnce(AtTotal(first, p, sent), AtTotal(second, p, sent), p.terms.paymentId, sent);
  }
}
