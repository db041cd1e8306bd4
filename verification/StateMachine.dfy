/**
 The guarded payment state machine
 (src/domain/payments/payment-state-machine.ts): pure evaluation of one
 transition attempt. Times are integer milliseconds.
 */
module StateMachine {

  datatype Status = Pending | Matched | Confirming | Confirmed | Expired | Failed

  predicate IsTerminal(status: Status) {
    status.Confirmed? || status.Expired? || status.Failed?
  }

  datatype RejectionReason =
    | IllegalTransition
    | PaymentExpired
    | QualifyingEventMissing
    | QualifyingEventAlreadyClaimed
    | EventNotCanonical
    | ConfirmationsBelowSnapshot
    | ComplianceHold
    | ReorgGraceNotElapsed
    | ExpiryNotReached
    | MatchingEventPresent

  datatype Evaluation = Legal | Rejected(reason: RejectionReason)

  datatype GuardInput = GuardInput(
    from: Status,
    to: Status,
    now: int,
    expiresAt: int,
    reorgGrace: nat,
    confirmations: nat,
    requiredConfirmations: nat,
    canonical: bool,
    complianceClear: bool,
    qualifyingEventClaimed: bool)

  function Evaluate(input: GuardInput): Evaluation {
    var expired := input.now > input.expiresAt;
    var reorgDeadline := input.expiresAt + input.reorgGrace;
    var pendingToMatched :=
      input.from.Pending? && input.to.Matched? && !expired && input.qualifyingEventClaimed;
    var matchedToConfirming := input.from.Matched? && input.to.Confirming? && input.canonical;
    var confirmingSelfLoop :=
      input.from.Confirming? && input.to.Confirming? && input.confirmations < input.requiredConfirmations;
    var confirmingToConfirmed :=
      input.from.Confirming? && input.to.Confirmed? && input.confirmations >= input.requiredConfirmations
      && input.canonical && input.complianceClear;
    var reorgFailure :=
      (input.from.Matched? || input.from.Confirming?) && input.to.Failed?
      && !input.canonical && input.now > reorgDeadline;
    var pendingToExpired :=
      input.from.Pending? && input.to.Expired? && expired && !input.qualifyingEventClaimed;
    if pendingToMatched || matchedToConfirming || confirmingSelfLoop || confirmingToConfirmed
       || reorgFailure || pendingToExpired
    then Legal
    else if input.from.Pending? && input.to.Matched? then
      Rejected(if expired then PaymentExpired else QualifyingEventMissing)
    else if input.from.Matched? && input.to.Confirming? then
      Rejected(EventNotCanonical)
    else if input.from.Confirming? && input.to.Confirming? then
      Rejected(ConfirmationsBelowSnapshot)
    else if input.from.Confirming? && input.to.Confirmed? then
      if input.confirmations < input.requiredConfirmations then Rejected(ConfirmationsBelowSnapshot)
      else if !input.canonical then Rejected(EventNotCanonical)
      else Rejected(ComplianceHold)
    else if (input.from.Matched? || input.from.Confirming?) && input.to.Failed? then
      Rejected(if input.canonical then EventNotCanonical else ReorgGraceNotElapsed)
    else if input.from.Pending? && input.to.Expired? then
      Rejected(if expired then MatchingEventPresent else ExpiryNotReached)
    else Rejected(IllegalTransition)
  }

  // ----- the transition table, stated on its own -----

  /** The edges of the table of ADR 0011. */
  const EDGES: set<(Status, Status)> :=
    { (Pending, Matched), (Matched, Confirming), (Confirming, Confirming), (Confirming, Confirmed),
      (Matched, Failed), (Confirming, Failed), (Pending, Expired) }

  /** What must hold for the payment to leave along an edge into `to`. */
  predicate Guard(input: GuardInput) {
    match input.to
    case Pending => false
    case Matched => input.now <= input.expiresAt && input.qualifyingEventClaimed
    case Confirming =>
      if input.from.Matched? then input.canonical else input.confirmations < input.requiredConfirmations
    case Confirmed =>
      input.confirmations >= input.requiredConfirmations && input.canonical && input.complianceClear
    case Failed => !input.canonical && input.now > input.expiresAt + input.reorgGrace
    case Expired => input.now > input.expiresAt && !input.qualifyingEventClaimed
  }

  /**
   The evaluator decides exactly the table: legal iff the edge exists and its
   guard holds, `illegal_transition` iff the edge does not exist, and one of the
   declared rejection reasons is never given.
   */
  lemma EvaluatesTheTable(input: GuardInput)
    ensures Evaluate(input).Legal? <==> (input.from, input.to) in EDGES && Guard(input)
    ensures Evaluate(input) == Rejected(IllegalTransition) <==> (input.from, input.to) !in EDGES
    ensures Evaluate(input) != Rejected(QualifyingEventAlreadyClaimed)
    ensures IsTerminal(input.from) ==> Evaluate(input).Rejected?
  {
  }

  /** What the guard of an edge demands, part by part in the table's order, with the reason for each missing part. */
  function Demands(input: GuardInput): seq<(bool, RejectionReason)> {
    match input.to
    case Pending => []
    case Matched =>
      [(input.now <= input.expiresAt, PaymentExpired), (input.qualifyingEventClaimed, QualifyingEventMissing)]
    case Confirming =>
      if input.from.Matched? then [(input.canonical, EventNotCanonical)]
      else [(input.confirmations < input.requiredConfirmations, ConfirmationsBelowSnapshot)]
    case Confirmed =>
      [(input.confirmations >= input.requiredConfirmations, ConfirmationsBelowSnapshot),
       (input.canonical, EventNotCanonical), (input.complianceClear, ComplianceHold)]
    case Failed =>
      [(!input.canonical, EventNotCanonical), (input.now > input.expiresAt + input.reorgGrace, ReorgGraceNotElapsed)]
    case Expired =>
      [(input.now > input.expiresAt, ExpiryNotReached), (!input.qualifyingEventClaimed, MatchingEventPresent)]
  }

  predicate FirstMissing(demands: seq<(bool, RejectionReason)>, i: nat) {
    i < |demands| && !demands[i].0 && forall j :: 0 <= j < i ==> demands[j].0
  }

  /** Along an edge the evaluator rejects for the first part of the guard that is missing, and for nothing else. */
  lemma RejectsForFirstMissing(input: GuardInput, i: nat)
    requires (input.from, input.to) in EDGES
    ensures Evaluate(input).Legal? <==> forall j :: 0 <= j < |Demands(input)| ==> Demands(input)[j].0
    ensures FirstMissing(Demands(input), i) ==> Evaluate(input) == Rejected(Demands(input)[i].1)
  {
    var d := Demands(input);
    assert 1 <= |d| <= 3;
    assert (forall j :: 0 <= j < |d| ==> d[j].0) <==>
      d[0].0 && (|d| > 1 ==> d[1].0) && (|d| > 2 ==> d[2].0);
    if FirstMissing(d, i) {
      assert i > 0 ==> d[0].0;
      assert i > 1 ==> d[1].0;
    }
  }

  /**
   Competing exits exclude each other under the same facts: a pending payment
   cannot both match and expire, and a confirming one that may confirm can
   neither fail nor loop.
   */
  lemma ExitsExclude(input: GuardInput)
    ensures !(Evaluate(input.(to := Matched)).Legal? && Evaluate(input.(to := Expired)).Legal?)
    ensures Evaluate(input.(to := Confirmed)).Legal? ==>
      Evaluate(input.(to := Failed)).Rejected? && Evaluate(input.(to := Confirming)).Rejected?
  {
  }

  // ----- histories -----

  predicate Follows(a: Status, b: Status) {
    a == b || (a, b) in EDGES
  }

  /** A status history whose every change is an edge of the table. */
  predicate IsHistory(h: seq<Status>) {
    |h| > 0 && h[0] == Pending && forall i :: 0 < i < |h| ==> Follows(h[i - 1], h[i])
  }

  /** Terminal statuses absorb, and each status implies the ones that must have come before it. */
  lemma {:induction false} HistoryShape(h: seq<Status>, i: nat, j: nat)
    requires IsHistory(h) && i <= j < |h|
    ensures IsTerminal(h[i]) ==> h[j] == h[i]
    ensures h[j].Confirming? || h[j].Confirmed? || h[j].Failed? ==> exists k :: 0 <= k < j && h[k] == Matched
    ensures h[j].Confirmed? ==> exists k :: 0 <= k < j && h[k] == Confirming
    ensures h[j].Pending? ==> h[i].Pending?
    ensures h[j].Matched? ==> h[i].Pending? || h[i].Matched?
  {
    if j > 0 {
      assert Follows(h[j - 1], h[j]);
      if i < j {
        HistoryShape(h, i, j - 1);
      } else {
        HistoryShape(h, j - 1, j - 1);
      }
      if h[j - 1] == Matched || h[j - 1] == Confirming {
        assert 0 <= j - 1 < j;
      }
    }
  }
}
