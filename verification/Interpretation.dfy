/**
 Judging stored events (src/application/ingestion/event-interpretation-service.ts).
 */
module Interpretation {
  import opened Common
  import opened BaseUnit
  import opened Transfers
  import Ingestion

  datatype Verdict = Accepted | Rejected | Review

  datatype Reason =
    | DisabledOrUnknownChain | UnknownOrDisabledToken | MalformedLog | MalformedTransaction | NonzeroValueMissing
    | UnknownRecipient | BalanceDeltaDisagreement | BalanceDeltaUnavailable | BalanceDeltaNegative

  datatype Judgment = Judgment(status: Verdict, reason: Option<Reason>, tokenId: Option<string>,
      verified: Option<string>)

  datatype Token = Token(tokenId: string, chain: string, native: bool, contract: Option<string>, deltaRequired: bool)

  datatype Registry = Registry(chains: set<string>, tokens: seq<Token>)

  /** What the corroborated balance read reports. */
  datatype DeltaRead = Agreeing(delta: Option<string>) | Disagreeing | Unavailable

  function Reject(reason: Reason, tokenId: Option<string>): Judgment {
    Judgment(Rejected, Some(reason), tokenId, None)
  }

  /** `registry.tokens.find(...)`: the first match. */
  function FindToken(tokens: seq<Token>, chain: string, native: bool, contract: Option<string>): Option<Token> {
    if tokens == [] then None
    else if tokens[0].chain == chain && (if native then tokens[0].native else tokens[0].contract == contract) then
      Some(tokens[0])
    else FindToken(tokens[1..], chain, native, contract)
  }

  /** The stored fields are what the raw payload decodes to. */
  predicate MatchesLog(d: Ingestion.Document) {
    var t := DecodeTransferFromRaw(d.rawEvent);
    && t.Some?
    && (|d.normalizedFromAddress| >= 2 && "0x" + Lower(d.normalizedFromAddress[2..]) == Lower(t.value.fromAddress))
    && (|d.normalizedToAddress| >= 2 && "0x" + Lower(d.normalizedToAddress[2..]) == Lower(t.value.toAddress))
    && d.amount == t.value.amount
  }

  predicate MatchesNative(d: Ingestion.Document) {
    var t := DecodeNativeFromRaw(d.rawEvent);
    && t.Some?
    && Lower(d.normalizedFromAddress) == t.value.fromAddress
    && Lower(d.normalizedToAddress) == t.value.toAddress
    && d.amount == t.value.amount
  }

  /** None stands for an exception, after which nothing is written and the job is retried. */
  function JudgeDelta(token: Token, read: DeltaRead): Option<Judgment> {
    if !token.deltaRequired then Some(Judgment(Accepted, None, Some(token.tokenId), None))
    else match read
      case Disagreeing => Some(Judgment(Review, Some(BalanceDeltaDisagreement), Some(token.tokenId), None))
      case Unavailable => Some(Judgment(Review, Some(BalanceDeltaUnavailable), Some(token.tokenId), None))
      case Agreeing(delta) =>
        if delta.None? then Some(Judgment(Review, Some(BalanceDeltaUnavailable), Some(token.tokenId), None))
        else if JsBigInt(delta.value).None? then None
        else if JsBigInt(delta.value).value <= 0 then Some(Judgment(Review, Some(BalanceDeltaNegative),
            Some(token.tokenId), None))
        else Some(Judgment(Accepted, None, Some(token.tokenId), delta))
  }

  function JudgeToken(token: Option<Token>, known: bool, read: DeltaRead): Option<Judgment> {
    if token.None? then Some(Reject(UnknownOrDisabledToken, None))
    else if !known then Some(Reject(UnknownRecipient, Some(token.value.tokenId)))
    else JudgeDelta(token.value, read)
  }

  function Judge(d: Ingestion.Document, registry: Registry, recipients: set<(string, string)>,
      read: DeltaRead): Option<Judgment> {
    var known := (d.chain, d.normalizedToAddress) in recipients;
    if d.chain !in registry.chains then Some(Reject(DisabledOrUnknownChain, None))
    else if d.assetType.Native? then
      if !MatchesNative(d) then Some(Reject(MalformedTransaction, None))
      else if d.amount == "0" then Some(Reject(NonzeroValueMissing, None))
      else JudgeToken(FindToken(registry.tokens, d.chain, true, None), known, read)
    else if !MatchesLog(d) then Some(Reject(MalformedLog, None))
    else JudgeToken(FindToken(registry.tokens, d.chain, false, d.normalizedContractAddress), known, read)
  }

  /** The first registered token for the event, looked up as judging does. */
  function TokenOf(d: Ingestion.Document, registry: Registry): Option<Token> {
    FindToken(registry.tokens, d.chain, d.assetType.Native?,
              if d.assetType.Native? then None else d.normalizedContractAddress)
  }

  // ----- what the watcher submits is never malformed -----

  /** The submission the watcher makes for a decoded log. */
  function LogInput(chain: string, entry: Log): Ingestion.Input
    requires DecodeTransferLog(entry).Some?
  {
    var t := DecodeTransferLog(entry).value;
    Ingestion.Input(chain, Some(Ingestion.Erc20), entry.transactionHash, Some(entry.logIndex), entry.blockNumber,
        entry.blockHash,
                    Some(entry.contractAddress), t.fromAddress, t.toAddress, t.amount, RawOf(entry))
  }

  function NativeInput(chain: string, tx: NativeTransaction, blockNumber: nat, blockHash: string): Ingestion.Input
    requires tx.recipient.Some?
  {
    Ingestion.Input(chain, Some(Ingestion.Native), tx.hash, None, blockNumber, blockHash, None, tx.sender,
        tx.recipient.value,
                    Decimal(tx.value), RawOfNative(tx, blockHash, blockNumber))
  }

  /** The endpoint's limit on the amount field. */
  const MAX_AMOUNT_LENGTH := 80

  lemma AmountSurvives(input: Ingestion.Input, n: nat)
    requires input.amount == Decimal(n)
    ensures IsBaseUnitString(input.amount)
    ensures FormatBaseUnits(ParseBaseUnits(input.amount).value) == Ok(input.amount)
  {
    DecimalRoundTrip(n);
  }

  lemma LowerOfAddress(s: string)
    requires IsAddress(s)
    ensures |Lower(s)| == 42 && "0x" + Lower(Lower(s)[2..]) == Lower(s)
  {
    assert s[0] == s[..2][0] && s[1] == s[..2][1];
    var a, b := "0x" + Lower(Lower(s)[2..]), Lower(s);
    forall i | 0 <= i < 42 ensures a[i] == b[i] {}
  }

  /**
   A log the watcher decodes is accepted by the endpoint's amount limit and ingestion, and
   the stored row matches its own payload, so interpretation never calls it malformed.
   */
  lemma WatchedLogIsNeverMalformed(digest: string -> string, chain: string, entry: Log)
    requires DecodeTransferLog(entry).Some?
    ensures
      var input := LogInput(chain, entry);
      && Ingestion.Accepted(input) && |input.amount| <= MAX_AMOUNT_LENGTH
      && IsAddress(input.fromAddress) && IsAddress(input.toAddress)
      && MatchesLog(Ingestion.DocumentFor(digest, input))
  {
    var input := LogInput(chain, entry);
    DecodedFields(entry);
    DecodersAgree(entry);
    AmountSurvives(input, HexValue(entry.data[2..]));
    LowerOfAddress(input.fromAddress);
    LowerOfAddress(input.toAddress);
  }

  lemma WatchedNativeIsNeverMalformed(digest: string -> string, chain: string, tx: NativeTransaction,
      blockNumber: nat, blockHash: string)
    requires tx.recipient.Some? && IsAddress(tx.sender) && IsAddress(tx.recipient.value)
    ensures
      var input := NativeInput(chain, tx, blockNumber, blockHash);
      Ingestion.Accepted(input) && MatchesNative(Ingestion.DocumentFor(digest, input))
  {
    var input := NativeInput(chain, tx, blockNumber, blockHash);
    AmountSurvives(input, tx.value);
    NativeDecodes(tx, blockHash, blockNumber);
    LowerIdempotent(tx.sender);
    LowerIdempotent(tx.recipient.value);
  }

  /** A native row's amount matches its payload exactly if the payload's text denotes that number. */
  lemma NativeAmountIff(d: Ingestion.Document, t: Transfer)
    requires DecodeNativeFromRaw(d.rawEvent) == Some(t) && IsBaseUnitString(d.amount)
    ensures d.amount == t.amount <==> JsBigInt(d.rawEvent["value"].text) == Some(DecimalValue(d.amount))
  {
    var n := JsBigInt(d.rawEvent["value"].text).value;
    PrintOfParse(d.amount);
    assert n < 0 ==> t.amount[0] == '-';
    if n >= 0 {
      DecimalRoundTrip(n);
    }
  }

  // ----- what each judgment means -----

  /** The stored payload is the log of a transfer from `sender` to `recipient`, worth the 64-digit word. */
  predicate RawCarries(raw: RawEvent, topic: string, sender: string, recipient: string, word: string) {
    && "topics" in raw && "data" in raw
    && raw["topics"] == List([Text(topic), Text(Padded(sender)), Text(Padded(recipient))])
    && raw["data"] == Text("0x" + word)
    && IsTransferTopic(topic)
    && IsAddressDigits(sender) && IsAddressDigits(recipient) && |word| == 64 && AllHexDigits(word)
  }

  /** The row's fields are those of the transfer its payload holds, up to the addresses' case. */
  ghost predicate LogEvidence(d: Ingestion.Document) {
    exists topic, sender, recipient, word ::
      && RawCarries(d.rawEvent, topic, sender, recipient, word)
      && |d.normalizedFromAddress| >= 2 && Lower(d.normalizedFromAddress[2..]) == Lower(sender)
      && |d.normalizedToAddress| >= 2 && Lower(d.normalizedToAddress[2..]) == Lower(recipient)
      && d.amount == Decimal(HexValue(word))
  }

  predicate NativeEvidence(d: Ingestion.Document) {
    var raw := d.rawEvent;
    && "from" in raw && "to" in raw && "value" in raw
    && raw["from"].Text? && raw["to"].Text? && raw["value"].Text?
    && IsAddress(raw["from"].text) && Lower(d.normalizedFromAddress) == Lower(raw["from"].text)
    && IsAddress(raw["to"].text) && Lower(d.normalizedToAddress) == Lower(raw["to"].text)
    && JsBigInt(raw["value"].text).Some? && d.amount == ToDecimal(JsBigInt(raw["value"].text).value)
  }

  lemma FieldsOfRaw(raw: RawEvent) returns (topic: string, sender: string, recipient: string, word: string)
    requires DecodeTransferFromRaw(raw).Some?
    ensures RawCarries(raw, topic, sender, recipient, word)
  {
    var items := raw["topics"].items;
    topic, sender, recipient, word :=
      items[0].text, items[1].text[26..], items[2].text[26..], raw["data"].text[2..];
    TopicIsPadded(items[1].text);
    TopicIsPadded(items[2].text);
    assert items == [Text(topic), Text(Padded(sender)), Text(Padded(recipient))];
  }

  lemma RawDecodes(raw: RawEvent, topic: string, sender: string, recipient: string, word: string)
    requires RawCarries(raw, topic, sender, recipient, word)
    ensures DecodeTransferFromRaw(raw) == Some(Transfer("0x" + sender, "0x" + recipient, Decimal(HexValue(word))))
  {
    PaddedIsTopic(sender);
    PaddedIsTopic(recipient);
    assert raw["data"].text[2..] == word;
  }

  lemma PrefixedEqual(a: string, b: string)
    ensures "0x" + Lower(a) == Lower("0x" + b) <==> Lower(a) == Lower(b)
  {
    var x, y := "0x" + Lower(a), Lower("0x" + b);
    assert y == "0x" + Lower(b);
    assert x[2..] == Lower(a) && y[2..] == Lower(b);
  }

  lemma MatchesLogIff(d: Ingestion.Document)
    ensures MatchesLog(d) <==> LogEvidence(d)
  {
    if MatchesLog(d) {
      var topic, sender, recipient, word := FieldsOfRaw(d.rawEvent);
      RawDecodes(d.rawEvent, topic, sender, recipient, word);
      PrefixedEqual(d.normalizedFromAddress[2..], sender);
      PrefixedEqual(d.normalizedToAddress[2..], recipient);
    }
    if LogEvidence(d) {
      var topic, sender, recipient, word :|
        && RawCarries(d.rawEvent, topic, sender, recipient, word)
        && |d.normalizedFromAddress| >= 2 && Lower(d.normalizedFromAddress[2..]) == Lower(sender)
        && |d.normalizedToAddress| >= 2 && Lower(d.normalizedToAddress[2..]) == Lower(recipient)
        && d.amount == Decimal(HexValue(word));
      RawDecodes(d.rawEvent, topic, sender, recipient, word);
      PrefixedEqual(d.normalizedFromAddress[2..], sender);
      PrefixedEqual(d.normalizedToAddress[2..], recipient);
    }
  }

  /** The token is registered for the asset the event moved: its chain, and its contract unless it is the native one. */
  predicate Serves(token: Token, d: Ingestion.Document) {
    && token.chain == d.chain
    && if d.assetType.Native? then token.native else token.contract == d.normalizedContractAddress
  }

  predicate FirstServing(d: Ingestion.Document, tokens: seq<Token>, k: nat) {
    k < |tokens| && Serves(tokens[k], d) && forall j :: 0 <= j < k ==> !Serves(tokens[j], d)
  }

  /** Judging looks up the first serving token, if there is any. */
  lemma {:induction false} FindsFirst(d: Ingestion.Document, tokens: seq<Token>)
    ensures
      var found := FindToken(tokens, d.chain, d.assetType.Native?,
        if d.assetType.Native? then None else d.normalizedContractAddress);
      && (found.None? <==> forall j :: 0 <= j < |tokens| ==> !Serves(tokens[j], d))
      && forall k: nat :: FirstServing(d, tokens, k) ==> found == Some(tokens[k])
  {
    if tokens != [] && !Serves(tokens[0], d) {
      FindsFirst(d, tokens[1..]);
      forall k: nat | FirstServing(d, tokens, k) ensures FirstServing(d, tokens[1..], k - 1) {
        forall j | 0 <= j < k - 1 ensures !Serves(tokens[1..][j], d) {
          assert !Serves(tokens[j + 1], d);
        }
      }
      if forall j :: 0 <= j < |tokens[1..]| ==> !Serves(tokens[1..][j], d) {
        forall j | 0 <= j < |tokens| ensures !Serves(tokens[j], d) {
          assert j > 0 ==> tokens[j] == tokens[1..][j - 1];
        }
      }
    }
  }

  /** The chain is enabled and the row is what its payload holds; a native one moves something. */
  ghost predicate Sound(d: Ingestion.Document, registry: Registry) {
    && d.chain in registry.chains
    && if d.assetType.Native? then NativeEvidence(d) && d.amount != "0" else LogEvidence(d)
  }

  /** A corroborated balance read above zero. */
  predicate Positive(read: DeltaRead) {
    read.Agreeing? && read.delta.Some? && JsBigInt(read.delta.value).Some? && JsBigInt(read.delta.value).value > 0
  }

  predicate IsAccepted(r: Option<Judgment>) {
    r.Some? && r.value.status.Accepted?
  }

  /**
   An event is accepted exactly if it is sound, a token is registered for its chain and contract,
   its recipient is known and, where the first such token needs it, a positive corroborated
   balance was read.
   */
  lemma AcceptedIff(d: Ingestion.Document, registry: Registry, recipients: set<(string, string)>, read: DeltaRead)
    ensures IsAccepted(Judge(d, registry, recipients, read)) <==>
      exists k: nat ::
        && Sound(d, registry) && FirstServing(d, registry.tokens, k)
        && (d.chain, d.normalizedToAddress) in recipients
        && (!registry.tokens[k].deltaRequired || Positive(read))
  {
    MatchesLogIff(d);
    FindsFirst(d, registry.tokens);
    if exists j: nat :: j < |registry.tokens| && Serves(registry.tokens[j], d) {
      var k := FirstIndex(d, registry.tokens);
    }
  }

  /** The acceptance names that first token, and the balance where one was needed. */
  lemma AcceptedNames(d: Ingestion.Document, registry: Registry, recipients: set<(string, string)>, read: DeltaRead,
      k: nat)
    requires IsAccepted(Judge(d, registry, recipients, read)) && FirstServing(d, registry.tokens, k)
    ensures registry.tokens[k].deltaRequired ==> Positive(read)
    ensures Judge(d, registry, recipients, read) ==
      Some(Judgment(Accepted, None, Some(registry.tokens[k].tokenId),
                    if registry.tokens[k].deltaRequired then read.delta else None))
  {
    FindsFirst(d, registry.tokens);
  }

  lemma {:induction false} FirstIndex(d: Ingestion.Document, tokens: seq<Token>) returns (k: nat)
    requires exists j: nat :: j < |tokens| && Serves(tokens[j], d)
    ensures FirstServing(d, tokens, k)
  {
    k := 0;
    while !Serves(tokens[k], d)
      invariant exists j: nat :: k <= j < |tokens| && Serves(tokens[j], d)
      invariant forall j :: 0 <= j < k ==> !Serves(tokens[j], d)
      decreases |tokens| - k
    {
      k := k + 1;
    }
  }

  /** And every other judgment names what failed first, and the token once one was found. */
  lemma ReasonIff(d: Ingestion.Document, registry: Registry, recipients: set<(string, string)>, read: DeltaRead)
    ensures
      var r := Judge(d, registry, recipients, read);
      var enabled := d.chain in registry.chains;
      && (r == Some(Reject(DisabledOrUnknownChain, None)) <==> !enabled)
      && (r == Some(Reject(MalformedLog, None)) <==> enabled && d.assetType.Erc20? && !LogEvidence(d))
      && (r == Some(Reject(MalformedTransaction, None)) <==> enabled && d.assetType.Native? && !NativeEvidence(d))
      && (r == Some(Reject(NonzeroValueMissing, None)) <==>
            enabled && d.assetType.Native? && NativeEvidence(d) && d.amount == "0")
      && (r == Some(Reject(UnknownOrDisabledToken, None)) <==>
            Sound(d, registry) && forall j :: 0 <= j < |registry.tokens| ==> !Serves(registry.tokens[j], d))
  {
    MatchesLogIff(d);
    FindsFirst(d, registry.tokens);
  }

  /** What becomes of a sound event with a registered token, when it is not accepted. */
  lemma HeldBackIff(d: Ingestion.Document, registry: Registry, recipients: set<(string, string)>, read: DeltaRead,
      k: nat)
    requires Sound(d, registry) && FirstServing(d, registry.tokens, k)
    ensures
      var r := Judge(d, registry, recipients, read);
      var id := Some(registry.tokens[k].tokenId);
      var known := (d.chain, d.normalizedToAddress) in recipients;
      var judged := known && registry.tokens[k].deltaRequired;
      var absent := read.Unavailable? || (read.Agreeing? && read.delta.None?);
      var shown := read.Agreeing? && read.delta.Some?;
      && (r == Some(Reject(UnknownRecipient, id)) <==> !known)
      && (r == Some(Judgment(Review, Some(BalanceDeltaDisagreement), id, None)) <==> judged && read.Disagreeing?)
      && (r == Some(Judgment(Review, Some(BalanceDeltaUnavailable), id, None)) <==> judged && absent)
      && (r == Some(Judgment(Review, Some(BalanceDeltaNegative), id, None)) <==>
            judged && shown && JsBigInt(read.delta.value).Some? && JsBigInt(read.delta.value).value <= 0)
      && (r == None <==> judged && shown && JsBigInt(read.delta.value).None?)
  {
    MatchesLogIff(d);
    FindsFirst(d, registry.tokens);
  }

  // ----- from the chain to the judgment -----

  /** The event id of a log. */
  function LogEventId(digest: string -> string, chain: string, hash: string, index: nat): string {
    "event_" + digest(chain + "|" + hash + "|" + Decimal(index))
  }

  lemma LowerPrefixed(s: string)
    ensures Lower("0x" + s) == "0x" + Lower(s)
  {
    var a, b := Lower("0x" + s), "0x" + Lower(s);
    forall i | 0 <= i < |a| ensures a[i] == b[i] {}
  }

  /** The row of a transfer's log: its own chain, place and block, contract, sender, recipient and value. */
  lemma TransferRow(digest: string -> string, chain: string, entry: Log, sender: string, recipient: string, value: nat)
    requires value < Pow(2, 256) && Carries(entry, sender, recipient, HexPrint(value, 64))
    ensures DecodeTransferLog(entry).Some? && Ingestion.Accepted(LogInput(chain, entry))
    ensures Ingestion.DocumentFor(digest, LogInput(chain, entry)) == Ingestion.Document(
      LogEventId(digest, chain, entry.transactionHash, entry.logIndex), chain, Ingestion.Erc20, entry.transactionHash,
      Some(entry.logIndex), entry.blockNumber, entry.blockHash, Some(Lower(entry.contractAddress)),
      "0x" + Lower(sender), "0x" + Lower(recipient), Decimal(value), RawOf(entry))
  {
    EncodedDecodes(entry, sender, recipient, value);
    DecimalRoundTrip(value);
    LowerPrefixed(sender);
    LowerPrefixed(recipient);
  }

  /** The row of a native transfer, under its transaction's hash whatever the chain. */
  lemma NativeRow(digest: string -> string, chain: string, tx: NativeTransaction, blockNumber: nat, blockHash: string)
    requires tx.recipient.Some?
    ensures Ingestion.Accepted(NativeInput(chain, tx, blockNumber, blockHash))
    ensures Ingestion.DocumentFor(digest, NativeInput(chain, tx, blockNumber, blockHash)) == Ingestion.Document(
      "native_tx_" + Lower(tx.hash), chain, Ingestion.Native, tx.hash, None, blockNumber, blockHash, None,
      Lower(tx.sender), Lower(tx.recipient.value), Decimal(tx.value), RawOfNative(tx, blockHash, blockNumber))
  {
    DecimalRoundTrip(tx.value);
  }

  /** A decoded transfer is accepted exactly by registry, recipient and balance: its payload never stands against it. */
  lemma TransferAcceptedIff(digest: string -> string, chain: string, entry: Log, sender: string, recipient: string,
      value: nat, registry: Registry, recipients: set<(string, string)>, read: DeltaRead)
    requires value < Pow(2, 256) && Carries(entry, sender, recipient, HexPrint(value, 64))
    ensures DecodeTransferLog(entry).Some? && Ingestion.Accepted(LogInput(chain, entry))
    ensures
      var d := Ingestion.DocumentFor(digest, LogInput(chain, entry));
      IsAccepted(Judge(d, registry, recipients, read)) <==>
      && chain in registry.chains && (chain, "0x" + Lower(recipient)) in recipients
      && exists k: nat ::
           && FirstServing(d, registry.tokens, k) && registry.tokens[k].contract == Some(Lower(entry.contractAddress))
           && (!registry.tokens[k].deltaRequired || Positive(read))
  {
    TransferRow(digest, chain, entry, sender, recipient, value);
    WatchedLogIsNeverMalformed(digest, chain, entry);
    var d := Ingestion.DocumentFor(digest, LogInput(chain, entry));
    MatchesLogIff(d);
    AcceptedIff(d, registry, recipients, read);
  }

  lemma DeltaVerified(token: Token, read: DeltaRead)
    requires JudgeDelta(token, read).Some? && JudgeDelta(token, read).value.status.Accepted?
    ensures JudgeDelta(token, read).value.verified == if token.deltaRequired then read.delta else None
  {
  }

  lemma AcceptedByToken(d: Ingestion.Document, registry: Registry, recipients: set<(string, string)>, read: DeltaRead)
    requires Judge(d, registry, recipients, read).Some?
    requires Judge(d, registry, recipients, read).value.status.Accepted?
    ensures TokenOf(d, registry).Some?
    ensures Judge(d, registry, recipients, read) == JudgeDelta(TokenOf(d, registry).value, read)
  {
  }

  /**
   The balance read names chain, token, holder and block, not the transfer: two transfers
   that agree in those and are accepted on that read carry one verified amount, the block's.
   */
  lemma BlockSharesDelta(d: Ingestion.Document, e: Ingestion.Document, registry: Registry,
      recipients: set<(string, string)>, read: DeltaRead)
    requires d.chain == e.chain && d.assetType == e.assetType
    requires d.normalizedContractAddress == e.normalizedContractAddress
    requires Judge(d, registry, recipients, read).Some? && Judge(e, registry, recipients, read).Some?
    requires Judge(d, registry, recipients, read).value.status.Accepted?
    requires Judge(e, registry, recipients, read).value.status.Accepted?
    ensures Judge(d, registry, recipients, read).value.verified == Judge(e, registry, recipients, read).value.verified
    ensures TokenOf(d, registry).Some?
    ensures Judge(d, registry, recipients, read).value.verified ==
      if TokenOf(d, registry).value.deltaRequired then read.delta else None
  {
    AcceptedByToken(d, registry, recipients, read);
    AcceptedByToken(e, registry, recipients, read);
    DeltaVerified(TokenOf(d, registry).value, read);
  }

  // ----- one outcome per event -----

  /** The conditional update: written only while absent. */
  function Finalize(outcomes: map<string, Judgment>, id: string, j: Judgment): map<string, Judgment> {
    if id in outcomes then outcomes else outcomes[id := j]
  }

  class EventInterpretationService {
    var events: map<string, Ingestion.Document>
    var outcomes: map<string, Judgment>

    constructor (events: map<string, Ingestion.Document>)
      ensures this.events == events && outcomes == map[]
    {
      this.events, outcomes := events, map[];
    }

    /** The outcome that stands, and whether this call wrote it. */
    method FinalizeOutcome(eventId: string, j: Judgment) returns (stands: Judgment, applied: bool)
      modifies this`outcomes
      ensures outcomes == Finalize(old(outcomes), eventId, j)
      ensures applied <==> eventId !in old(outcomes)
      ensures stands == outcomes[eventId]
    {
      applied := eventId !in outcomes;
      if applied {
        outcomes := outcomes[eventId := j];
      }
      stands := outcomes[eventId];
    }

    /** None when the event does not exist or a read threw. */
    method Interpret(eventId: string, registry: Registry, recipients: set<(string, string)>, read: DeltaRead)
      returns (r: Option<(Judgment, bool)>)
      modifies this`outcomes
      ensures
        if eventId !in events then r.None? && outcomes == old(outcomes)
        else if eventId in old(outcomes) then r == Some((old(outcomes)[eventId], false)) && outcomes == old(outcomes)
        else
          var j := Judge(events[eventId], registry, recipients, read);
          if j.None? then r.None? && outcomes == old(outcomes)
          else r == Some((j.value, true)) && outcomes == old(outcomes)[eventId := j.value]
    {
      if eventId !in events {
        return None;
      }
      if eventId in outcomes {
        return Some((outcomes[eventId], false));
      }
      var j := Judge(events[eventId], registry, recipients, read);
      if j.None? {
        return None;
      }
      var stands, applied := FinalizeOutcome(eventId, j.value);
      return Some((stands, applied));
    }
  }

  datatype Call = Call(eventId: string, judgment: Judgment)

  function After(calls: seq<Call>): map<string, Judgment> {
    if calls == [] then map[]
    else
      var last := calls[|calls| - 1];
      Finalize(After(calls[..|calls| - 1]), last.eventId, last.judgment)
  }

  lemma {:induction false} AfterKeys(calls: seq<Call>, id: string)
    ensures id in After(calls) <==> exists i :: 0 <= i < |calls| && calls[i].eventId == id
  {
    if calls != [] {
      var front := calls[..|calls| - 1];
      AfterKeys(front, id);
      if i :| 0 <= i < |calls| && calls[i].eventId == id {
        assert i < |front| ==> front[i].eventId == id;
      }
    }
  }

  lemma {:induction false} AfterKeeps(calls: seq<Call>, k: nat, id: string)
    requires k <= |calls| && id in After(calls[..k])
    ensures id in After(calls) && After(calls)[id] == After(calls[..k])[id]
  {
    if k < |calls| {
      var front := calls[..|calls| - 1];
      assert front[..k] == calls[..k];
      AfterKeeps(front, k, id);
    } else {
      assert calls[..k] == calls;
    }
  }

  /**
   Duplicate deliveries judged at different times, by any number of workers: the outcome of
   an event is the first judgment to be written, every call returns it, and exactly the
   first call applied it.
   */
  lemma OneOutcomePerEvent(calls: seq<Call>, k: nat)
    requires k < |calls|
    ensures
      var id := calls[k].eventId;
      && id in After(calls) && id in After(calls[..k + 1]) && After(calls[..k + 1])[id] == After(calls)[id]
      && (id !in After(calls[..k]) <==> forall i :: 0 <= i < k ==> calls[i].eventId != id)
      && (id !in After(calls[..k]) ==> After(calls)[id] == calls[k].judgment)
  {
    var id := calls[k].eventId;
    assert calls[..k + 1][..k] == calls[..k];
    AfterKeys(calls[..k], id);
    AfterKeeps(calls, k + 1, id);
    forall i | 0 <= i < k ensures calls[..k][i] == calls[i] {}
  }
}
