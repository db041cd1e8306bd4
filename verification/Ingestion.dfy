/**
 The persistence boundary for raw on-chain events
 (src/application/ingestion/event-ingestion-service.ts): the derived identity and the
 insert in which the first write wins.
 */
module Ingestion {
  import opened Common
  import BaseUnit
  import opened Transfers

  datatype AssetType = Erc20 | Native

  datatype Input = Input(
    chain: string,
    assetType: Option<AssetType>,
    transactionHash: string,
    logIndex: Option<nat>,
    blockNumber: nat,
    blockHash: string,
    contractAddress: Option<string>,
    fromAddress: string,
    toAddress: string,
    amount: string,
    rawEvent: RawEvent)

  datatype Document = Document(
    eventId: string,
    chain: string,
    assetType: AssetType,
    transactionHash: string,
    logIndex: Option<nat>,
    blockNumber: nat,
    blockHash: string,
    normalizedContractAddress: Option<string>,
    normalizedFromAddress: string,
    normalizedToAddress: string,
    amount: string,
    rawEvent: RawEvent)

  datatype IngestError = AmountNotCanonical | SchemaRejected | InsertFailed | EnqueueFailed

  /** What fails behind the endpoint: the insert, or the enqueue that follows it. */
  datatype Fault = NoFault | InsertFails | EnqueueFails

  datatype Outcome = Outcome(eventId: string, replayed: bool)

  // ----- identity -----

  /** SHA-256 stands for any digest under which no two texts collide. */
  ghost predicate CollisionFree(digest: string -> string) {
    forall a, b :: digest(a) == digest(b) ==> a == b
  }

  function DeriveEventId(digest: string -> string, chain: string, transactionHash: string,
      logIndex: Option<nat>): string {
    if logIndex.None? then "native_tx_" + Lower(transactionHash)
    else "event_" + digest(chain + "|" + transactionHash + "|" + BaseUnit.Decimal(logIndex.value))
  }

  function EventIdOf(digest: string -> string, input: Input): string {
    DeriveEventId(digest, input.chain, input.transactionHash,
                  if input.assetType == Some(Native) then None else input.logIndex)
  }

  /**
   Two transfers share an identity exactly when both are logs of the same chain,
   transaction and log index, or both are native transfers whose transaction hashes
   agree up to case. A native identity does not depend on the chain.
   */
  lemma IdentityIff(digest: string -> string, c: string, h: string, i: Option<nat>, c': string, h': string,
      i': Option<nat>)
    requires CollisionFree(digest)
    requires '|' !in c && '|' !in c' && '|' !in h && '|' !in h'
    ensures DeriveEventId(digest, c, h, i) == DeriveEventId(digest, c', h', i')
       <==> (i.None? && i'.None? && Lower(h) == Lower(h')) || (i.Some? && i == i' && c == c' && h == h')
  {
    var a, b := DeriveEventId(digest, c, h, i), DeriveEventId(digest, c', h', i');
    if i.None? != i'.None? {
      assert a[0] != b[0];
    } else if i.None? {
      assert a[10..] == Lower(h) && b[10..] == Lower(h');
    } else if a == b {
      var x, y := h + "|" + BaseUnit.Decimal(i.value), h' + "|" + BaseUnit.Decimal(i'.value);
      assert c + "|" + h + "|" + BaseUnit.Decimal(i.value) == c + ['|'] + x;
      assert c' + "|" + h' + "|" + BaseUnit.Decimal(i'.value) == c' + ['|'] + y;
      assert a[6..] == digest(c + ['|'] + x) && b[6..] == digest(c' + ['|'] + y);
      SplitAt('|', c, x, c', y);
      SplitAt('|', h, BaseUnit.Decimal(i.value), h', BaseUnit.Decimal(i'.value));
      BaseUnit.DecimalInjective(i.value, i'.value);
    }
  }

  // ----- the insert -----

  /** The row as written; `amount` went through parse and format. */
  function DocumentFor(digest: string -> string, input: Input): Document
    requires BaseUnit.IsBaseUnitString(input.amount)
  {
    Document(EventIdOf(digest, input), input.chain, input.assetType.GetOr(Erc20), input.transactionHash, input.logIndex,
             input.blockNumber, input.blockHash,
             if input.contractAddress.Some? then Some(Lower(input.contractAddress.value)) else None,
             Lower(input.fromAddress), Lower(input.toAddress),
             BaseUnit.FormatBaseUnits(BaseUnit.ParseBaseUnits(input.amount).value).value, input.rawEvent)
  }

  /** The collection's conditional `required` validators. */
  predicate SchemaAccepts(input: Input) {
    input.assetType != Some(Native) ==> input.contractAddress.Some? && input.logIndex.Some?
  }

  predicate Accepted(input: Input) {
    BaseUnit.IsBaseUnitString(input.amount) && SchemaAccepts(input)
  }

  /** One of the three unique indexes already holds the document's key. */
  predicate Collides(rows: map<string, Document>, d: Document) {
    || d.eventId in rows
    || exists id ::
      id in rows && rows[id].chain == d.chain && rows[id].transactionHash == d.transactionHash
        && rows[id].logIndex == d.logIndex
  }

  function Insert(digest: string -> string, rows: map<string, Document>, input: Input): map<string, Document> {
    if !Accepted(input) || Collides(rows, DocumentFor(digest, input)) then rows
    else rows[EventIdOf(digest, input) := DocumentFor(digest, input)]
  }

  /** The stored rows, and the identities handed to interpretation so far. */
  datatype Endpoint = Endpoint(rows: map<string, Document>, enqueued: seq<string>)

  class EventIngestionService {
    const digest: string -> string
    var rows: map<string, Document>
    var enqueued: seq<string>

    ghost function State(): Endpoint
      reads this
    {
      Endpoint(rows, enqueued)
    }

    constructor (digest: string -> string)
      ensures this.digest == digest && rows == map[] && enqueued == []
    {
      this.digest := digest;
      rows, enqueued := map[], [];
    }

    /** A failure at the enqueue leaves the row stored; the producer's retry enqueues it. */
    method Ingest(input: Input, fault: Fault) returns (r: Result<Outcome, IngestError>)
      modifies this
      ensures rows == if fault.InsertFails? then old(rows) else Insert(digest, old(rows), input)
      ensures r.Ok? <==> Accepted(input) && fault.NoFault?
      ensures r.Ok? ==> r.value == Outcome(EventIdOf(digest, input), Collides(old(rows), DocumentFor(digest, input)))
      ensures enqueued == if r.Ok? then old(enqueued) + [EventIdOf(digest, input)] else old(enqueued)
      ensures r == Err(AmountNotCanonical) <==> !BaseUnit.IsBaseUnitString(input.amount)
      ensures r == Err(InsertFailed) <==> BaseUnit.IsBaseUnitString(input.amount) && fault.InsertFails?
      ensures r == Err(SchemaRejected) <==>
        && BaseUnit.IsBaseUnitString(input.amount) && !fault.InsertFails?
        && input.assetType != Some(Native) && (input.contractAddress.None? || input.logIndex.None?)
      ensures r == Err(EnqueueFailed) <==> Accepted(input) && fault.EnqueueFails?
    {
      if !BaseUnit.IsBaseUnitString(input.amount) {
        return Err(AmountNotCanonical);
      }
      if fault.InsertFails? {
        return Err(InsertFailed);
      }
      if !SchemaAccepts(input) {
        return Err(SchemaRejected);
      }
      var document := DocumentFor(digest, input);
      var replayed := Collides(rows, document);
      if !replayed {
        rows := rows[document.eventId := document];
      }
      if fault.EnqueueFails? {
        return Err(EnqueueFailed);
      }
      enqueued := enqueued + [document.eventId];
      r := Ok(Outcome(document.eventId, replayed));
    }
  }

  // ----- first write wins, over every sequence of submissions -----

  /** A producer that numbers exactly its log transfers, as the watcher does. */
  predicate WellFormed(input: Input) {
    && (input.assetType == Some(Native) <==> input.logIndex.None?)
    && '|' !in input.chain && '|' !in input.transactionHash
  }

  predicate RowWellFormed(digest: string -> string, id: string, d: Document) {
    && d.eventId == id && id == DeriveEventId(digest, d.chain, d.transactionHash, d.logIndex)
  }

  function InsertFrom(digest: string -> string, rows: map<string, Document>, inputs: seq<Input>): map<string,
      Document> {
    if inputs == [] then rows
    else Insert(digest, InsertFrom(digest, rows, inputs[..|inputs| - 1]), inputs[|inputs| - 1])
  }

  function InsertAll(digest: string -> string, inputs: seq<Input>): map<string, Document> {
    InsertFrom(digest, map[], inputs)
  }

  lemma {:induction false} InsertFromAppend(digest: string -> string, rows: map<string, Document>, a: seq<Input>,
      b: seq<Input>)
    ensures InsertFrom(digest, InsertFrom(digest, rows, a), b) == InsertFrom(digest, rows, a + b)
  {
    if b == [] {
      assert a + b == a;
    } else {
      InsertFromAppend(digest, rows, a, b[..|b| - 1]);
      assert (a + b)[..|a + b| - 1] == a + b[..|b| - 1];
    }
  }

  /** Between well-formed transfers the other unique indexes never fire unless the event id does. */
  lemma CollisionIsReplay(digest: string -> string, rows: map<string, Document>, input: Input)
    requires forall id :: id in rows ==> RowWellFormed(digest, id, rows[id])
    requires WellFormed(input) && Accepted(input)
    ensures Collides(rows, DocumentFor(digest, input)) <==> EventIdOf(digest, input) in rows
  {
  }

  lemma InsertKeepsRows(digest: string -> string, rows: map<string, Document>, input: Input)
    requires forall id :: id in rows ==> RowWellFormed(digest, id, rows[id])
    requires WellFormed(input)
    ensures forall id :: id in Insert(digest, rows, input) ==>
      RowWellFormed(digest, id, Insert(digest, rows, input)[id])
  {
  }

  lemma {:induction false} RowsWellFormed(digest: string -> string, inputs: seq<Input>)
    requires forall i :: 0 <= i < |inputs| ==> WellFormed(inputs[i])
    ensures forall id :: id in InsertAll(digest, inputs) ==> RowWellFormed(digest, id, InsertAll(digest, inputs)[id])
  {
    if inputs != [] {
      RowsWellFormed(digest, inputs[..|inputs| - 1]);
      InsertKeepsRows(digest, InsertAll(digest, inputs[..|inputs| - 1]), inputs[|inputs| - 1]);
    }
  }

  predicate Delivers(digest: string -> string, input: Input, id: string) {
    Accepted(input) && EventIdOf(digest, input) == id
  }

  lemma InsertAt(digest: string -> string, rows: map<string, Document>, input: Input, id: string)
    requires forall id :: id in rows ==> RowWellFormed(digest, id, rows[id])
    requires WellFormed(input)
    ensures id in Insert(digest, rows, input) <==> id in rows || Delivers(digest, input, id)
    ensures id in rows ==> Insert(digest, rows, input)[id] == rows[id]
    ensures id !in rows && Delivers(digest, input, id) ==> Insert(digest, rows, input)[id] == DocumentFor(digest, input)
  {
    if Accepted(input) {
      CollisionIsReplay(digest, rows, input);
    }
  }

  /** The first accepted submission with this identity. */
  ghost predicate IsFirst(digest: string -> string, inputs: seq<Input>, id: string, k: nat) {
    && k < |inputs| && Delivers(digest, inputs[k], id)
    && forall j :: 0 <= j < k ==> !Delivers(digest, inputs[j], id)
  }

  lemma {:induction false} NoDeliveryNoRow(digest: string -> string, inputs: seq<Input>, id: string)
    requires forall i :: 0 <= i < |inputs| ==> WellFormed(inputs[i]) && !Delivers(digest, inputs[i], id)
    ensures id !in InsertAll(digest, inputs)
  {
    if inputs != [] {
      var front := inputs[..|inputs| - 1];
      RowsWellFormed(digest, front);
      NoDeliveryNoRow(digest, front, id);
      InsertAt(digest, InsertAll(digest, front), inputs[|inputs| - 1], id);
    }
  }

  /**
   However often and in whatever order transfers are delivered, there is one row for each
   identity that was ever accepted, and it holds the first payload delivered for it.
   */
  lemma {:induction false} FirstWriteWins(digest: string -> string, inputs: seq<Input>, id: string, k: nat)
    requires forall i :: 0 <= i < |inputs| ==> WellFormed(inputs[i])
    requires IsFirst(digest, inputs, id, k)
    ensures id in InsertAll(digest, inputs) && InsertAll(digest, inputs)[id] == DocumentFor(digest, inputs[k])
  {
    var front := inputs[..|inputs| - 1];
    RowsWellFormed(digest, front);
    if k < |front| {
      assert IsFirst(digest, front, id, k);
      FirstWriteWins(digest, front, id, k);
    } else {
      NoDeliveryNoRow(digest, front, id);
    }
    InsertAt(digest, InsertAll(digest, front), inputs[|inputs| - 1], id);
  }

  lemma {:induction false} FirstExists(digest: string -> string, inputs: seq<Input>, id: string, i: nat)
      returns (k: nat)
    requires i < |inputs| && Delivers(digest, inputs[i], id)
    ensures IsFirst(digest, inputs, id, k)
  {
    if j: nat :| j < i && Delivers(digest, inputs[j], id) {
      k := FirstExists(digest, inputs, id, j);
    } else {
      k := i;
    }
  }

  /** A row exists exactly for the identities some accepted submission carried. */
  lemma RowIffDelivered(digest: string -> string, inputs: seq<Input>, id: string)
    requires forall i :: 0 <= i < |inputs| ==> WellFormed(inputs[i])
    ensures id in InsertAll(digest, inputs) <==> exists i :: 0 <= i < |inputs| && Delivers(digest, inputs[i], id)
  {
    if i: nat :| i < |inputs| && Delivers(digest, inputs[i], id) {
      var k := FirstExists(digest, inputs, id, i);
      FirstWriteWins(digest, inputs, id, k);
    } else {
      NoDeliveryNoRow(digest, inputs, id);
    }
  }

  /** Every stored token transfer names its contract and its place in the transaction; every amount is canonical. */
  lemma {:induction false} RowsComplete(digest: string -> string, inputs: seq<Input>, id: string)
    requires id in InsertAll(digest, inputs)
    ensures
      var d := InsertAll(digest, inputs)[id];
      && (d.assetType.Erc20? ==> d.normalizedContractAddress.Some? && d.logIndex.Some?)
      && BaseUnit.IsBaseUnitString(d.amount)
  {
    var last := inputs[|inputs| - 1];
    var before := InsertAll(digest, inputs[..|inputs| - 1]);
    if id in before {
      RowsComplete(digest, inputs[..|inputs| - 1], id);
    }
    if Accepted(last) {
      BaseUnit.DecimalRoundTrip(BaseUnit.DecimalValue(last.amount));
    }
  }

  /**
   The same transaction hash on two chains: the second native transfer is reported as a
   replay of the first and is not stored.
   */
  lemma NativeTransferLostAcrossChains(digest: string -> string, first: Input, second: Input)
    requires Accepted(first) && Accepted(second) && WellFormed(first) && WellFormed(second)
    requires first.assetType == Some(Native) && second.assetType == Some(Native)
    requires first.chain != second.chain && Lower(first.transactionHash) == Lower(second.transactionHash)
    ensures InsertAll(digest, [first, second]) == map[EventIdOf(digest, first) := DocumentFor(digest, first)]
  {
    assert [first, second][..1] == [first] && [first][..0] == [];
    assert InsertAll(digest, [first]) == Insert(digest, InsertAll(digest, []), first);
    assert InsertAll(digest, [first, second]) == Insert(digest, InsertAll(digest, [first]), second);
  }
}
