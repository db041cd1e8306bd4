/**
 The transactional webhook outbox (src/application/webhooks/webhook-outbox.ts):
 the unique idempotency key, the payload snapshot, and the write that a duplicate
 key turns into a no-op.
 */
module Outbox {
  import opened Common
  import opened StateMachine
  import BaseUnit

  datatype EventType = PaymentMatched | PaymentConfirmed | PaymentExpired | PaymentFailed

  function EventName(t: EventType): string {
    match t
    case PaymentMatched => "payment.matched"
    case PaymentConfirmed => "payment.confirmed"
    case PaymentExpired => "payment.expired"
    case PaymentFailed => "payment.failed"
  }

  /** The status a payment enters when it emits the notification. */
  function StatusOf(t: EventType): Status {
    match t
    case PaymentMatched => Matched
    case PaymentConfirmed => Confirmed
    case PaymentExpired => Expired
    case PaymentFailed => Failed
  }

  datatype Payload = Payload(
    paymentId: string,
    merchantId: string,
    eventType: EventType,
    status: Status,
    paymentVersion: nat,
    chain: string,
    token: string,
    amount: nat,
    amountReceived: Option<nat>,
    excessAmount: Option<nat>,
    partialAmountReceived: Option<nat>,
    transactionHash: Option<string>)

  datatype Row = Row(idempotencyKey: string, payload: Payload)

  /** `eventType.replace(/\./g, ":")` */
  function DotsToColons(s: string): string {
    seq(|s|, i requires 0 <= i < |s| => if s[i] == '.' then ':' else s[i])
  }

  function IdempotencyKey(paymentId: string, eventType: EventType, version: nat): string {
    "wh_" + paymentId + "_" + DotsToColons(EventName(eventType)) + "_v" + BaseUnit.Decimal(version)
  }

  function KeyOf(payload: Payload): string {
    IdempotencyKey(payload.paymentId, payload.eventType, payload.paymentVersion)
  }

  predicate HasKey(rows: seq<Row>, key: string) {
    exists i :: 0 <= i < |rows| && rows[i].idempotencyKey == key
  }

  /** `writeInTransaction`: a unique index turns the second write of a key into a no-op. */
  function Write(rows: seq<Row>, payload: Payload): seq<Row> {
    if HasKey(rows, KeyOf(payload)) then rows else rows + [Row(KeyOf(payload), payload)]
  }

  /** The identifier pattern of every stored id; in particular an id holds no colon. */
  predicate IsIdentifier(id: string) {
    && 3 <= |id| <= 128
    && IsAlphanumeric(id[0])
    && forall i :: 0 <= i < |id| ==> IsAlphanumeric(id[i]) || id[i] == '_' || id[i] == '-'
  }

  predicate IsAlphanumeric(c: char) {
    'A' <= c <= 'Z' || 'a' <= c <= 'z' || '0' <= c <= '9'
  }

  /** What follows the colon of a key. */
  function Tail(eventType: EventType, version: nat): string {
    DotsToColons(EventName(eventType))[8..] + "_v" + BaseUnit.Decimal(version)
  }

  lemma NameParts(eventType: EventType)
    ensures |DotsToColons(EventName(eventType))| >= 8
    ensures DotsToColons(EventName(eventType)) == "payment" + ":" + DotsToColons(EventName(eventType))[8..]
  {
    var name := DotsToColons(EventName(eventType));
    assert name[..8] == "payment" + ":";
    assert name == name[..8] + name[8..];
  }

  lemma Regroup(start: string, id: string, a: string, b: string, c: string, d: string, e: string, end: string)
    ensures start + id + a + (b + c + d) + e + end == (start + id + (a + b)) + c + (d + e + end)
  {
  }

  lemma KeyParts(paymentId: string, eventType: EventType, version: nat)
    ensures |DotsToColons(EventName(eventType))| >= 8
    ensures IdempotencyKey(paymentId, eventType, version)
         == ("wh_" + paymentId + ("_" + "payment")) + ":" + Tail(eventType, version)
  {
    NameParts(eventType);
    Regroup("wh_", paymentId, "_", "payment", ":", DotsToColons(EventName(eventType))[8..], "_v",
            BaseUnit.Decimal(version));
  }

  lemma TailInjective(t: EventType, v: nat, t': EventType, v': nat)
    requires Tail(t, v) == Tail(t', v')
    ensures t == t' && v == v'
  {
    assert Tail(t, v)[0] == EventName(t)[8];
    assert Tail(t', v')[0] == EventName(t')[8];
    var name := DotsToColons(EventName(t))[8..];
    assert name + "_v" + BaseUnit.Decimal(v) == name + "_v" + BaseUnit.Decimal(v');
    assert BaseUnit.Decimal(v) == Tail(t, v)[|name| + 2..];
    assert BaseUnit.Decimal(v') == Tail(t, v')[|name| + 2..];
    BaseUnit.DecimalInjective(v, v');
  }

  /**
   The flat key string is one per `(paymentId, eventType, paymentVersion)`, although
   identifiers may themselves hold underscores, a `v` and digits.
   */
  lemma KeyInjective(p: string, t: EventType, v: nat, p': string, t': EventType, v': nat)
    requires IsIdentifier(p) && IsIdentifier(p')
    ensures IdempotencyKey(p, t, v) == IdempotencyKey(p', t', v') <==> p == p' && t == t' && v == v'
  {
    if IdempotencyKey(p, t, v) == IdempotencyKey(p', t', v') {
      KeyParts(p, t, v);
      KeyParts(p', t', v');
      var a, b := "wh_" + p + ("_" + "payment"), "wh_" + p' + ("_" + "payment");
      SplitAt(':', a, Tail(t, v), b, Tail(t', v'));
      assert p == a[3..|a| - 8] && p' == b[3..|b| - 8];
      TailInjective(t, v, t', v');
    }
  }
}
