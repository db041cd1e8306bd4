/**
 Transfer payloads and their two decoders: the watcher's, over provider logs
 (`decodeTransferLog`, src/infrastructure/chain/evm-chain-adapter.ts), and interpretation's,
 over the stored raw payload (`decodeTransferFromRaw` and `decodeNativeTransferFromRaw`,
 src/application/ingestion/event-interpretation-service.ts).
 */
module Transfers {
  import opened Common
  import opened BaseUnit

  /** A stored payload is any JSON object; the decoders look at text and lists of text. */
  datatype RawValue = Text(text: string) | List(items: seq<RawValue>) | Other

  type RawEvent = map<string, RawValue>

  datatype Log = Log(
    contractAddress: string,
    transactionHash: string,
    logIndex: nat,
    blockNumber: nat,
    blockHash: string,
    topics: seq<string>,
    data: string,
    rest: RawEvent)

  datatype Transfer = Transfer(fromAddress: string, toAddress: string, amount: string)

  const TRANSFER_TOPIC := "0xddf252ad1be2c89b69c2b068fc378daa952ba7f163c4a11628f55a4df523b3ef"

  predicate IsAddress(s: string) {
    |s| == 42 && s[..2] == "0x" && AllHexDigits(s[2..])
  }

  /** A left-padded address: `0x`, 24 zeros, 40 hexadecimal digits. */
  predicate IsAddressTopic(s: string) {
    && |s| == 66 && s[..2] == "0x"
    && (forall i :: 2 <= i < 26 ==> s[i] == '0')
    && AllHexDigits(s[26..])
  }

  predicate IsWord(s: string) {
    |s| == 66 && s[..2] == "0x" && AllHexDigits(s[2..])
  }

  predicate IsTransferTopic(s: string) {
    Lower(s) == TRANSFER_TOPIC
  }

  // ----- the watcher's decoder -----

  function DecodeTransferLog(entry: Log): Option<Transfer> {
    if |entry.topics| != 3 then None
    else if !IsTransferTopic(entry.topics[0]) || !IsAddressTopic(entry.topics[1]) || !IsAddressTopic(entry.topics[2])
            || !IsWord(entry.data) then None
    else Some(Transfer("0x" + entry.topics[1][26..], "0x" + entry.topics[2][26..], Decimal(HexValue(entry.data[2..]))))
  }

  /** The payload the watcher stores with a log: the topics and data verbatim among other fields. */
  function RawOf(entry: Log): RawEvent {
    entry.rest["topics" := List(seq(|entry.topics|, i requires 0 <= i < |entry.topics| => Text(entry.topics[i])))]
              ["data" := Text(entry.data)]
  }

  // ----- interpretation's decoder -----

  function DecodeTransferFromRaw(raw: RawEvent): Option<Transfer> {
    if "topics" !in raw || "data" !in raw then None
    else DecodeFields(raw["topics"], raw["data"])
  }

  function DecodeFields(topics: RawValue, data: RawValue): Option<Transfer> {
    if !topics.List? || !data.Text? || |topics.items| != 3 then None
    else
      var topic0, topic1, topic2 := topics.items[0], topics.items[1], topics.items[2];
      if !topic0.Text? || !topic1.Text? || !topic2.Text? then None
      else if !IsTransferTopic(topic0.text) || !IsAddressTopic(topic1.text) || !IsAddressTopic(topic2.text)
              || !IsWord(data.text) then None
      else
        Some(Transfer("0x" + topic1.text[26..], "0x" + topic2.text[26..], Decimal(HexValue(data.text[2..]))))
  }

  lemma RawFields(entry: Log)
    ensures "topics" in RawOf(entry) && "data" in RawOf(entry)
    ensures RawOf(entry)["topics"] ==
      List(seq(|entry.topics|, i requires 0 <= i < |entry.topics| => Text(entry.topics[i])))
    ensures RawOf(entry)["data"] == Text(entry.data)
  {
    assert |"topics"| != |"data"|;
  }

  /** On the payload of any log, the two decoders agree: same verdict, same fields. */
  lemma DecodersAgree(entry: Log)
    ensures DecodeTransferFromRaw(RawOf(entry)) == DecodeTransferLog(entry)
  {
    RawFields(entry);
  }

  // ----- what a transfer log is -----

  /** 24 zeros. */
  function Zeros(): (z: string)
    ensures |z| == 24 && forall i :: 0 <= i < 24 ==> z[i] == '0'
  {
    seq(24, _ => '0')
  }

  /** The topic of an indexed address: its 40 digits, left-padded to a word. */
  function Padded(address: string): string {
    "0x" + Zeros() + address
  }

  predicate IsAddressDigits(s: string) {
    |s| == 40 && AllHexDigits(s)
  }

  /**
   The log of one transfer: the event's topic, sender and recipient as indexed addresses, and
   the value as a 64-digit word.
   */
  predicate Carries(entry: Log, sender: string, recipient: string, word: string) {
    && IsAddressDigits(sender) && IsAddressDigits(recipient) && |word| == 64 && AllHexDigits(word)
    && |entry.topics| == 3 && IsTransferTopic(entry.topics[0])
    && entry.topics[1] == Padded(sender) && entry.topics[2] == Padded(recipient)
    && entry.data == "0x" + word
  }

  lemma PaddedIsTopic(address: string)
    requires IsAddressDigits(address)
    ensures IsAddressTopic(Padded(address)) && Padded(address)[26..] == address
  {
    var s := Padded(address);
    assert forall i :: 2 <= i < 26 ==> s[i] == Zeros()[i - 2];
  }

  lemma TopicIsPadded(s: string)
    requires IsAddressTopic(s)
    ensures IsAddressDigits(s[26..]) && s == Padded(s[26..])
  {
    var t := Padded(s[26..]);
    assert s == s[..2] + s[2..26] + s[26..];
    assert s[2..26] == Zeros();
  }

  /** A log of a transfer decodes to its own sender, its own recipient and its own value. */
  lemma TransferDecodes(entry: Log, sender: string, recipient: string, word: string)
    requires Carries(entry, sender, recipient, word)
    ensures DecodeTransferLog(entry) == Some(Transfer("0x" + sender, "0x" + recipient, Decimal(HexValue(word))))
  {
    PaddedIsTopic(sender);
    PaddedIsTopic(recipient);
    assert entry.data[2..] == word;
  }

  /** And nothing but the log of a transfer decodes. */
  lemma OnlyTransfersDecode(entry: Log) returns (sender: string, recipient: string, word: string)
    requires DecodeTransferLog(entry).Some?
    ensures Carries(entry, sender, recipient, word)
  {
    sender, recipient, word := entry.topics[1][26..], entry.topics[2][26..], entry.data[2..];
    TopicIsPadded(entry.topics[1]);
    TopicIsPadded(entry.topics[2]);
  }

  /** So the log of any value below 2^256, sent from one address to another, decodes to exactly that. */
  lemma EncodedDecodes(entry: Log, sender: string, recipient: string, value: nat)
    requires value < Pow(2, 256) && Carries(entry, sender, recipient, HexPrint(value, 64))
    ensures DecodeTransferLog(entry) == Some(Transfer("0x" + sender, "0x" + recipient, Decimal(value)))
  {
    TransferDecodes(entry, sender, recipient, HexPrint(value, 64));
    PowOfTwo(64);
    HexRoundTrip(value, 64);
  }

  lemma {:induction false} PowOfTwo(n: nat)
    ensures Pow(16, n) == Pow(2, 4 * n)
  {
    if n > 0 {
      PowOfTwo(n - 1);
      var m := 4 * n;
      assert Pow(2, m) == 2 * Pow(2, m - 1) == 4 * Pow(2, m - 2) == 8 * Pow(2, m - 3) == 16 * Pow(2, m - 4);
    }
  }

  /**
   What a decoded log amounts to: addresses of the accepted shape and a canonical amount
   that is the integer of the 256-bit data word, in at most 78 digits.
   */
  lemma DecodedFields(entry: Log)
    requires DecodeTransferLog(entry).Some?
    ensures
      var t := DecodeTransferLog(entry).value;
      && IsAddress(t.fromAddress) && IsAddress(t.toAddress)
      && IsBaseUnitString(t.amount) && |t.amount| <= 78
      && ParseBaseUnits(t.amount) == Ok(HexValue(entry.data[2..]))
      && JsBigInt(entry.data) == Some(HexValue(entry.data[2..]))
  {
    var word := entry.data[2..];
    HexBound(word);
    WordDigits(HexValue(word), Pow(16, 64));
    DecimalRoundTrip(HexValue(word));
    PrefixedHexIsBigInt(entry.data);
  }

  // ----- BigInt(text), as JavaScript reads it -----

  predicate IsSpace(c: char) {
    || '\t' <= c <= '\r' || c == ' ' || c == '\U{A0}' || c == '\U{1680}' || '\U{2000}' <= c <= '\U{200A}'
    || c == '\U{2028}' || c == '\U{2029}' || c == '\U{202F}' || c == '\U{205F}' || c == '\U{3000}' || c == '\U{FEFF}'
  }

  function Trim(s: string): string {
    if s != "" && IsSpace(s[0]) then Trim(s[1..])
    else if s != "" && IsSpace(s[|s| - 1]) then Trim(s[..|s| - 1])
    else s
  }

  predicate AllBelow(radix: nat, s: string) {
    forall i :: 0 <= i < |s| ==> IsDigit(s[i]) && DigitValue(s[i]) < radix
  }

  function RadixValue(radix: nat, s: string): nat
    requires AllBelow(radix, s)
  {
    if s == "" then 0 else RadixValue(radix, s[..|s| - 1]) * radix + DigitValue(s[|s| - 1])
  }

  function Signed(negative: bool, n: nat): int {
    if negative then -(n as int) else n
  }

  function JsBigInt(s: string): Option<int> {
    var t := Trim(s);
    if t == "" then Some(0)
    else if |t| >= 2 && t[0] == '0' && !IsDigit(t[1]) then Prefixed(t[1], t[2..])
    else if t[0] == '+' || t[0] == '-' then
      if |t| > 1 && AllDigits(t[1..]) then Some(Signed(t[0] == '-', DecimalValue(t[1..]))) else None
    else if AllDigits(t) then Some(DecimalValue(t))
    else None
  }

  function Prefixed(radix: char, digits: string): Option<int> {
    if digits == "" then None
    else if (radix == 'x' || radix == 'X') && AllHexDigits(digits) then Some(HexValue(digits))
    else if (radix == 'o' || radix == 'O') && AllBelow(8, digits) then Some(RadixValue(8, digits))
    else if (radix == 'b' || radix == 'B') && AllBelow(2, digits) then Some(RadixValue(2, digits))
    else None
  }

  lemma PrefixedHexIsBigInt(s: string)
    requires IsWord(s)
    ensures JsBigInt(s) == Some(HexValue(s[2..]))
  {
    assert s[0] == s[..2][0] && s[1] == s[..2][1];
    assert s[2..][63] == s[65];
    assert Trim(s) == s;
  }

  lemma DecimalIsBigInt(n: nat)
    ensures JsBigInt(Decimal(n)) == Some(n)
  {
    DecimalRoundTrip(n);
    var s := Decimal(n);
    assert IsDigit(s[0]) && IsDigit(s[|s| - 1]);
    assert Trim(s) == s;
  }

  /** `value.toString(10)` of any integer. */
  function ToDecimal(n: int): string {
    if n < 0 then "-" + Decimal(-n) else Decimal(n)
  }

  function DecodeNativeFromRaw(raw: RawEvent): Option<Transfer> {
    if "value" !in raw || "from" !in raw || "to" !in raw then None
    else if !raw["value"].Text? || !raw["from"].Text? || !raw["to"].Text? then None
    else if !IsAddress(raw["from"].text) || !IsAddress(raw["to"].text) then None
    else if JsBigInt(raw["value"].text).None? then None
    else Some(Transfer(Lower(raw["from"].text), Lower(raw["to"].text), ToDecimal(JsBigInt(raw["value"].text).value)))
  }

  datatype NativeTransaction = NativeTransaction(hash: string, sender: string, recipient: Option<string>, value: nat)

  /** The payload the watcher stores with a native transfer. */
  function RawOfNative(tx: NativeTransaction, blockHash: string, blockNumber: nat): RawEvent {
    map["hash" := Text(tx.hash), "from" := Text(tx.sender), "to" := Text(tx.recipient.GetOr("")),
        "value" := Text(Decimal(tx.value)), "blockNumber" := Other, "blockHash" := Text(blockHash)]
  }

  lemma NativeFields(tx: NativeTransaction, blockHash: string, blockNumber: nat)
    requires tx.recipient.Some?
    ensures
      var raw := RawOfNative(tx, blockHash, blockNumber);
      && "from" in raw && "to" in raw && "value" in raw
      && raw["from"] == Text(tx.sender) && raw["to"] == Text(tx.recipient.value)
        && raw["value"] == Text(Decimal(tx.value))
  {
    assert |"value"| == 5 && |"from"| == 4 && |"to"| == 2 && |"hash"| == 4 && |"blockNumber"| == 11
      && |"blockHash"| == 9;
    assert "from"[0] != "hash"[0];
  }

  /** A stored native transaction decodes to its own sender, recipient and value. */
  lemma NativeDecodes(tx: NativeTransaction, blockHash: string, blockNumber: nat)
    requires tx.recipient.Some? && IsAddress(tx.sender) && IsAddress(tx.recipient.value)
    ensures DecodeNativeFromRaw(RawOfNative(tx, blockHash, blockNumber)) ==
            Some(Transfer(Lower(tx.sender), Lower(tx.recipient.value), Decimal(tx.value)))
  {
    NativeFields(tx, blockHash, blockNumber);
    DecimalIsBigInt(tx.value);
  }
}
