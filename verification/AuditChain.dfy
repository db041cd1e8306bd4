/**
 The audit hash chain (src/infrastructure/mongodb/audit-service.ts): appending, verifying,
 and what acceptance by the verifier says about the retained entries.
 */
module AuditChain {
  import opened Common
  import opened BaseUnit
  import opened JsonText
  import opened CanonicalJson
  import opened CanonicalTheorems

  /** `body` holds an entry's other fields: identity, scope, actor, subject, payloads, time. */
  datatype Entry = Entry(body: List<Field>, sequence: nat, previousHash: string, entryHash: string)

  datatype Head = Head(sequence: nat, entryHash: string, version: nat)

  /** One scope's entries, in sequence order, and its head. */
  datatype Chain = Chain(entries: seq<Entry>, head: Option<Head>)

  const EMPTY: Chain := Chain([], None)

  /** The previous hash of a scope's first entry: 64 zeros. */
  function Genesis(): (r: string)
    ensures |r| == 64 && forall i :: 0 <= i < 64 ==> r[i] == '0'
  {
    seq(64, i => '0')
  }

  // ----- hashing -----

  predicate IsBody(body: List<Field>) {
    Distinct(body) && AreFields(body) && Lookup(body, "sequence").None? && Lookup(body, "previousHash").None?
  }

  function Payload(body: List<Field>, sequence: nat, previousHash: string): Json {
    Obj(Cons(Field("sequence", Num(Decimal(sequence))), Cons(Field("previousHash", Str(previousHash)), body)))
  }

  /** The hash of an entry's body, sequence and previous hash; None stands for the TypeError. */
  type EntryHash = (List<Field>, nat, string) -> Option<string>

  /** `calculateAuditHash` for a digest and the key comparison of the serializer. */
  function AuditHash(digest: string -> string, le: Order): EntryHash {
    (body: List<Field>, sequence: nat, previousHash: string) =>
      RequestFingerprint(digest, le, Payload(body, sequence, previousHash))
  }

  /** The same entry, up to key order and undefined fields inside its recorded payloads. */
  predicate SameEntry(a: Entry, b: Entry) {
    && a.sequence == b.sequence && a.previousHash == b.previousHash && a.entryHash == b.entryHash
    && MeanFields(Audit, a.body) == MeanFields(Audit, b.body)
  }

  lemma PayloadIsValue(body: List<Field>, sequence: nat, previousHash: string)
    requires IsBody(body)
    ensures IsValue(Payload(body, sequence, previousHash))
  {
    DecimalRoundTrip(sequence);
    var rest := Cons(Field("previousHash", Str(previousHash)), body);
    assert |"sequence"| != |"previousHash"|;
    assert Distinct(rest) && AreFields(rest);
    assert Lookup(rest, "sequence").None?;
  }

  lemma PayloadMeans(body: List<Field>, sequence: nat, previousHash: string)
    requires IsBody(body)
    ensures
      var m := MeanFields(Audit, body);
      && Mean(Audit, Payload(body, sequence, previousHash)) ==
           MObj(m["previousHash" := MStr(previousHash)]["sequence" := MNum(Decimal(sequence))])
      && "sequence" !in m && "previousHash" !in m && "sequence" != "previousHash"
  {
    assert |"sequence"| != |"previousHash"|;
    MeanLookup(Audit, body, "sequence");
    MeanLookup(Audit, body, "previousHash");
    var rest := Cons(Field("previousHash", Str(previousHash)), body);
    assert MeanFields(Audit, rest) == MeanFields(Audit, body)["previousHash" := MStr(previousHash)];
    assert MeanFields(Audit, Cons(Field("sequence", Num(Decimal(sequence))), rest)) ==
           MeanFields(Audit, rest)["sequence" := MNum(Decimal(sequence))];
  }

  lemma TwoKeysApart<V>(m: map<string, V>, n: map<string, V>, j: string, k: string, a: V, b: V, c: V, d: V)
    requires j !in m && j !in n && k !in m && k !in n && j != k
    requires m[j := a][k := b] == n[j := c][k := d]
    ensures m == n && a == c && b == d
  {
    var x, y := m[j := a][k := b], n[j := c][k := d];
    assert x[j] == a && x[k] == b && y[j] == c && y[k] == d;
    forall i ensures i in m <==> i in n {
      assert i != j && i != k ==> (i in m <==> i in x) && (i in n <==> i in y);
    }
    forall i | i in m ensures m[i] == n[i] {
      assert x[i] == m[i] && y[i] == n[i];
    }
  }

  predicate Hashed(hash: EntryHash, e: Entry) {
    hash(e.body, e.sequence, e.previousHash) == Some(e.entryHash)
  }

  /** A hash value stands for one body at one place in the chain. */
  ghost predicate Identifies(hash: EntryHash) {
    forall a, b ::
      Hashed(hash, a) && Hashed(hash, b) && IsBody(a.body) && IsBody(b.body) && a.entryHash == b.entryHash ==>
      SameEntry(a, b)
  }

  lemma HashDeterminesEntry(digest: string -> string, le: Order, a: Entry, b: Entry)
    requires forall x, y :: digest(x) == digest(y) ==> x == y
    requires IsBody(a.body) && IsBody(b.body) && a.entryHash == b.entryHash
    requires Hashed(AuditHash(digest, le), a) && Hashed(AuditHash(digest, le), b)
    ensures SameEntry(a, b)
  {
    var v, w := Payload(a.body, a.sequence, a.previousHash), Payload(b.body, b.sequence, b.previousHash);
    PayloadIsValue(a.body, a.sequence, a.previousHash);
    PayloadIsValue(b.body, b.sequence, b.previousHash);
    assert CanonicalAuditJson(le, v) == CanonicalAuditJson(le, w);
    TextDeterminesMeaning(Audit, le, v, w);
    PayloadMeans(a.body, a.sequence, a.previousHash);
    PayloadMeans(b.body, b.sequence, b.previousHash);
    TwoKeysApart(MeanFields(Audit, a.body), MeanFields(Audit, b.body), "previousHash", "sequence",
                 MStr(a.previousHash), MNum(Decimal(a.sequence)), MStr(b.previousHash), MNum(Decimal(b.sequence)));
    DecimalInjective(a.sequence, b.sequence);
  }

  /** With a collision-free digest, whatever the key comparison, the audit hash identifies its entry. */
  lemma AuditHashIdentifies(digest: string -> string, le: Order)
    requires forall x, y :: digest(x) == digest(y) ==> x == y
    ensures Identifies(AuditHash(digest, le))
  {
    var hash := AuditHash(digest, le);
    forall a, b | Hashed(hash, a) && Hashed(hash, b) && IsBody(a.body) && IsBody(b.body) && a.entryHash == b.entryHash
      ensures SameEntry(a, b)
    {
      HashDeterminesEntry(digest, le, a, b);
    }
  }

  // ----- verification -----

  function PreviousOf(entries: seq<Entry>, i: nat): string
    requires i <= |entries|
  {
    if i == 0 then Genesis() else entries[i - 1].entryHash
  }

  predicate EntryOk(hash: EntryHash, entries: seq<Entry>, i: nat)
    requires i < |entries|
  {
    && entries[i].sequence == i + 1
    && entries[i].previousHash == PreviousOf(entries, i)
    && Hashed(hash, entries[i])
  }

  /** Canonicalization throws on what was stored. */
  predicate Unhashable(hash: EntryHash, e: Entry) {
    hash(e.body, e.sequence, e.previousHash).None?
  }

  predicate HeadOk(entries: seq<Entry>, head: Option<Head>) {
    if entries == [] then head.None?
    else head.Some? && head.value.sequence == |entries| && head.value.entryHash == entries[|entries| - 1].entryHash
  }

  predicate Accepts(hash: EntryHash, entries: seq<Entry>, head: Option<Head>) {
    (forall i :: 0 <= i < |entries| ==> EntryOk(hash, entries, i)) && HeadOk(entries, head)
  }

  datatype Reason = NotContiguous | PreviousMismatch | HashMismatch | HeadWithoutEntries | HeadMismatch

  /** What is wrong where verification stopped. */
  predicate Faults(hash: EntryHash, entries: seq<Entry>, head: Option<Head>, k: nat, reason: Reason) {
    match reason
    case NotContiguous => k < |entries| && entries[k].sequence != k + 1
    case PreviousMismatch =>
      k < |entries| && entries[k].sequence == k + 1 && entries[k].previousHash != PreviousOf(entries, k)
    case HashMismatch => k < |entries| && InPlace(entries, k) && Mishashed(hash, entries[k])
    case HeadWithoutEntries => k == |entries| == 0 && head.Some?
    case HeadMismatch => k == |entries| > 0 && !HeadOk(entries, head)
  }

  predicate InPlace(entries: seq<Entry>, k: nat)
    requires k < |entries|
  {
    entries[k].sequence == k + 1 && entries[k].previousHash == PreviousOf(entries, k)
  }

  predicate Mishashed(hash: EntryHash, e: Entry) {
    var calculated := hash(e.body, e.sequence, e.previousHash);
    calculated.Some? && calculated.value != e.entryHash
  }

  datatype Verification = Valid(entriesChecked: nat) | Invalid(checked: nat, reason: Reason) | Threw

  method CheckEntry(hash: EntryHash, entry: Entry, expectedSequence: nat, previousHash: string)
    returns (fault: Option<Reason>, threw: bool)
    ensures threw <==>
      entry.sequence == expectedSequence && entry.previousHash == previousHash && Unhashable(hash, entry)
    ensures fault.None? && !threw <==>
      entry.sequence == expectedSequence && entry.previousHash == previousHash && Hashed(hash, entry)
    ensures fault.Some? ==>
      && !threw
      && match fault.value
         case NotContiguous => entry.sequence != expectedSequence
         case PreviousMismatch => entry.sequence == expectedSequence && entry.previousHash != previousHash
         case HashMismatch =>
           entry.sequence == expectedSequence && entry.previousHash == previousHash && Mishashed(hash, entry)
         case _ => false
  {
    if entry.sequence != expectedSequence {
      return Some(NotContiguous), false;
    }
    if entry.previousHash != previousHash {
      return Some(PreviousMismatch), false;
    }
    var calculated := hash(entry.body, entry.sequence, entry.previousHash);
    if calculated.None? {
      return None, true;
    }
    if calculated.value != entry.entryHash {
      return Some(HashMismatch), false;
    }
    return None, false;
  }

  /** All is well up to an entry that is in its place and cannot be hashed. */
  predicate ThrowsAt(hash: EntryHash, entries: seq<Entry>, i: nat) {
    && i < |entries| && InPlace(entries, i) && Unhashable(hash, entries[i])
    && forall j :: 0 <= j < i ==> EntryOk(hash, entries, j)
  }

  lemma NothingThrows(hash: EntryHash, entries: seq<Entry>, i: nat)
    requires i <= |entries| && forall j :: 0 <= j < i ==> EntryOk(hash, entries, j)
    requires i < |entries| ==> !EntryOk(hash, entries, i) && !ThrowsAt(hash, entries, i)
    ensures forall k: nat :: !ThrowsAt(hash, entries, k)
  {
    forall k: nat ensures !ThrowsAt(hash, entries, k) {
      if k < i {
        assert EntryOk(hash, entries, k);
      }
    }
  }

  /**
   Accepts exactly the chains in order; otherwise names the first entry that is not, or the
   head, and the entries before it were in order.
   */
  method VerifyAuditChain(hash: EntryHash, entries: seq<Entry>, head: Option<Head>) returns (r: Verification)
    ensures r.Valid? <==> Accepts(hash, entries, head)
    ensures r.Valid? ==> r.entriesChecked == |entries|
    ensures r.Invalid? ==>
      && r.checked <= |entries| && Faults(hash, entries, head, r.checked, r.reason)
      && forall i :: 0 <= i < r.checked ==> EntryOk(hash, entries, i)
    ensures r.Threw? <==> exists i: nat :: ThrowsAt(hash, entries, i)
  {
    var previousHash := Genesis();
    var expectedSequence: nat := 1;
    for i := 0 to |entries|
      invariant expectedSequence == i + 1 && previousHash == PreviousOf(entries, i)
      invariant forall j :: 0 <= j < i ==> EntryOk(hash, entries, j)
    {
      var fault, threw := CheckEntry(hash, entries[i], expectedSequence, previousHash);
      assert EntryOk(hash, entries, i) <==> fault.None? && !threw;
      if threw {
        assert ThrowsAt(hash, entries, i);
        return Threw;
      }
      if fault.Some? {
        NothingThrows(hash, entries, i);
        return Invalid(expectedSequence - 1, fault.value);
      }
      previousHash := entries[i].entryHash;
      expectedSequence := expectedSequence + 1;
    }
    NothingThrows(hash, entries, |entries|);
    if |entries| == 0 && head.Some? {
      return Invalid(0, HeadWithoutEntries);
    }
    if |entries| > 0 && (head.None? || head.value.sequence != |entries| || head.value.entryHash != previousHash) {
      return Invalid(|entries|, HeadMismatch);
    }
    return Valid(|entries|);
  }

  // ----- tamper evidence -----

  ghost predicate SameEntries(a: seq<Entry>, b: seq<Entry>) {
    |a| == |b| && forall i :: 0 <= i < |a| ==> SameEntry(a[i], b[i])
  }

  predicate EntryFine(hash: EntryHash, entries: seq<Entry>, i: nat)
    requires i < |entries|
  {
    EntryOk(hash, entries, i) && IsBody(entries[i].body)
  }

  ghost predicate InOrder(hash: EntryHash, entries: seq<Entry>) {
    forall i :: 0 <= i < |entries| ==> EntryFine(hash, entries, i)
  }

  lemma LastIsSame(hash: EntryHash, a: seq<Entry>, b: seq<Entry>, n: nat)
    requires Identifies(hash) && n < |a| && n < |b|
    requires EntryFine(hash, a, n) && EntryFine(hash, b, n)
    requires PreviousOf(a, n + 1) == PreviousOf(b, n + 1)
    ensures SameEntry(a[n], b[n]) && PreviousOf(a, n) == PreviousOf(b, n)
  {
  }

  lemma {:induction false} SameFromTheEnd(hash: EntryHash, a: seq<Entry>, b: seq<Entry>, n: nat)
    requires Identifies(hash) && InOrder(hash, a) && InOrder(hash, b)
    requires n <= |a| && n <= |b| && PreviousOf(a, n) == PreviousOf(b, n)
    ensures forall i :: 0 <= i < n ==> SameEntry(a[i], b[i])
  {
    if n > 0 {
      LastIsSame(hash, a, b, n - 1);
      SameFromTheEnd(hash, a, b, n - 1);
    }
  }

  /**
   Two lists of entries accepted against the same head are the same list, so no edited,
   dropped, reordered or inserted entry is accepted against a head that was not replaced.
   */
  lemma AcceptedEntriesAreTheSame(digest: string -> string, le: Order, a: seq<Entry>, b: seq<Entry>, head: Option<Head>)
    requires forall x, y :: digest(x) == digest(y) ==> x == y
    requires (forall i :: 0 <= i < |a| ==> IsBody(a[i].body)) && (forall i :: 0 <= i < |b| ==> IsBody(b[i].body))
    requires Accepts(AuditHash(digest, le), a, head) && Accepts(AuditHash(digest, le), b, head)
    ensures SameEntries(a, b)
  {
    var hash := AuditHash(digest, le);
    AuditHashIdentifies(digest, le);
    forall i | 0 <= i < |a| ensures EntryFine(hash, a, i) {}
    forall i | 0 <= i < |b| ensures EntryFine(hash, b, i) {}
    SameFromTheEnd(hash, a, b, |a|);
  }

  // ----- appending -----

  /** What one append adds to the chain it read; None where hashing throws. */
  function Next(hash: EntryHash, head: Option<Head>, body: List<Field>): Option<Entry> {
    var read := head.GetOr(Head(0, Genesis(), 0));
    var entryHash := hash(body, read.sequence + 1, read.entryHash);
    if entryHash.None? then None else Some(Entry(body, read.sequence + 1, read.entryHash, entryHash.value))
  }

  /** The transaction commits only while the head it read still stands. */
  function AppendCommit(hash: EntryHash, c: Chain, read: Option<Head>, body: List<Field>): Chain {
    var entry := Next(hash, read, body);
    if entry.None? || c.head != read then c
    else Chain(c.entries + [entry.value],
               Some(Head(entry.value.sequence, entry.value.entryHash, read.GetOr(Head(0, Genesis(), 0)).version + 1)))
  }

  datatype AppendError = NotCanonicalValue | ConflictRetried

  class AuditLog {
    const hash: EntryHash
    var entries: seq<Entry>
    var head: Option<Head>

    ghost function Contents(): Chain
      reads this
    {
      Chain(entries, head)
    }

    constructor (hash: EntryHash)
      ensures this.hash == hash && Contents() == EMPTY
    {
      this.hash := hash;
      entries, head := [], None;
    }

    /** One attempt of the transaction, with the head as its snapshot held it. */
    method Append(snapshot: Option<Head>, body: List<Field>) returns (r: Result<Entry, AppendError>)
      modifies this
      ensures Contents() == AppendCommit(hash, old(Contents()), snapshot, body)
      ensures r.Ok? <==> Next(hash, snapshot, body).Some? && old(head) == snapshot
      ensures r.Ok? ==> Some(r.value) == Next(hash, snapshot, body)
      ensures r.Err? ==> (r.error.NotCanonicalValue? <==> Next(hash, snapshot, body).None?)
      ensures r.Ok? ==> entries == old(entries) + [r.value] && r.value.body == body
      ensures r.Err? ==> Contents() == old(Contents())
    {
      var read := snapshot.GetOr(Head(0, Genesis(), 0));
      var sequence := read.sequence + 1;
      var entryHash := hash(body, sequence, read.entryHash);
      if entryHash.None? {
        return Err(NotCanonicalValue);
      }
      if head != snapshot {
        return Err(ConflictRetried);
      }
      var entry := Entry(body, sequence, read.entryHash, entryHash.value);
      entries := entries + [entry];
      head := Some(Head(sequence, entryHash.value, read.version + 1));
      r := Ok(entry);
    }
  }

  // ----- every interleaving of appends -----

  datatype Append = Append(readAt: nat, body: List<Field>)

  predicate IsRun(hash: EntryHash, run: seq<Chain>, appends: seq<Append>) {
    && |run| == |appends| + 1 && run[0] == EMPTY
    && forall i :: 0 <= i < |appends| ==>
         && appends[i].readAt <= i && IsBody(appends[i].body)
         && run[i + 1] == AppendCommit(hash, run[i], run[appends[i].readAt].head, appends[i].body)
  }

  predicate ChainOk(hash: EntryHash, c: Chain) {
    Accepts(hash, c.entries, c.head) && forall i :: 0 <= i < |c.entries| ==> IsBody(c.entries[i].body)
  }

  lemma AppendKeeps(hash: EntryHash, c: Chain, read: Option<Head>, body: List<Field>)
    requires ChainOk(hash, c) && IsBody(body)
    ensures ChainOk(hash, AppendCommit(hash, c, read, body))
  {
    var after := AppendCommit(hash, c, read, body);
    if after != c {
      forall i | 0 <= i < |after.entries| ensures EntryOk(hash, after.entries, i) {
        assert i < |c.entries| ==> EntryOk(hash, c.entries, i);
      }
    }
  }

  /** However appends race, verification accepts the chain after every step. */
  lemma {:induction false} EveryRunVerifies(hash: EntryHash, run: seq<Chain>, appends: seq<Append>, k: nat)
    requires IsRun(hash, run, appends) && k < |run|
    ensures ChainOk(hash, run[k])
  {
    if k > 0 {
      EveryRunVerifies(hash, run, appends, k - 1);
      AppendKeeps(hash, run[k - 1], run[appends[k - 1].readAt].head, appends[k - 1].body);
    }
  }

  /** The head names the last entry and counts the entries, as its version does. */
  lemma {:induction false} HeadCounts(hash: EntryHash, run: seq<Chain>, appends: seq<Append>, k: nat)
    requires IsRun(hash, run, appends) && k < |run|
    ensures
      var entries := run[k].entries;
      run[k].head ==
        if entries == [] then None else Some(Head(|entries|, entries[|entries| - 1].entryHash, |entries|))
  {
    if k > 0 {
      HeadCounts(hash, run, appends, k - 1);
      assert run[k] == AppendCommit(hash, run[k - 1], run[appends[k - 1].readAt].head, appends[k - 1].body);
    }
  }

  // ----- what an append records -----

  /** The hash of a body in the place right after these entries; None where hashing throws. */
  function HashAfter(hash: EntryHash, entries: seq<Entry>, body: List<Field>): Option<string> {
    hash(body, |entries| + 1, PreviousOf(entries, |entries|))
  }

  /** The head append `k` read is still the head, and its body can be hashed in the next place. */
  predicate Lands(hash: EntryHash, run: seq<Chain>, appends: seq<Append>, k: nat)
    requires k < |appends| && |run| == |appends| + 1 && appends[k].readAt <= k
  {
    run[appends[k].readAt].head == run[k].head && HashAfter(hash, run[k].entries, appends[k].body).Some?
  }

  /** An append that lands adds one entry of its own body, in the next place, under its hash; any other adds nothing. */
  lemma AppendRecords(hash: EntryHash, run: seq<Chain>, appends: seq<Append>, k: nat)
    requires IsRun(hash, run, appends) && k < |appends|
    ensures
      var entries, body := run[k].entries, appends[k].body;
      if Lands(hash, run, appends, k) then
        && |run[k + 1].entries| == |entries| + 1 && entries <= run[k + 1].entries
        && var e := run[k + 1].entries[|entries|];
           && e.body == body && e.sequence == |entries| + 1 && e.previousHash == PreviousOf(entries, |entries|)
           && Some(e.entryHash) == HashAfter(hash, entries, body)
      else run[k + 1] == run[k]
  {
    EveryRunVerifies(hash, run, appends, k);
    assert run[k + 1] == AppendCommit(hash, run[k], run[appends[k].readAt].head, appends[k].body);
  }

  function Bodies(entries: seq<Entry>): seq<List<Field>> {
    seq(|entries|, i requires 0 <= i < |entries| => entries[i].body)
  }

  lemma LandsOnce(hash: EntryHash, run: seq<Chain>, appends: seq<Append>, k: nat)
    requires IsRun(hash, run, appends) && k < |appends|
    ensures Bodies(run[k + 1].entries) ==
      Bodies(run[k].entries) + if Lands(hash, run, appends, k) then [appends[k].body] else []
  {
    AppendRecords(hash, run, appends, k);
  }

  /** The bodies of the first `n` appends that landed, in order. */
  function Landed(hash: EntryHash, run: seq<Chain>, appends: seq<Append>, n: nat): seq<List<Field>>
    requires IsRun(hash, run, appends) && n <= |appends|
  {
    if n == 0 then []
    else Landed(hash, run, appends, n - 1)
         + if Lands(hash, run, appends, n - 1) then [appends[n - 1].body] else []
  }

  /** The log of every run holds exactly the bodies whose appends landed, each once and in order. */
  lemma {:induction false} LogHoldsLanded(hash: EntryHash, run: seq<Chain>, appends: seq<Append>, n: nat)
    requires IsRun(hash, run, appends) && n <= |appends|
    ensures Bodies(run[n].entries) == Landed(hash, run, appends, n)
  {
    if n > 0 {
      LogHoldsLanded(hash, run, appends, n - 1);
      LandsOnce(hash, run, appends, n - 1);
    }
  }

  lemma {:induction false} EntriesOnlyGrow(hash: EntryHash, run: seq<Chain>, appends: seq<Append>, i: nat, j: nat)
    requires IsRun(hash, run, appends) && i <= j < |run|
    ensures run[i].entries <= run[j].entries
    ensures run[i].entries == run[j].entries <==> run[i] == run[j]
    decreases j - i
  {
    if i < j {
      EntriesOnlyGrow(hash, run, appends, i, j - 1);
      assert run[j] == AppendCommit(hash, run[j - 1], run[appends[j - 1].readAt].head, appends[j - 1].body);
    }
  }

  /**
   Verification reads the entries first and the head later. It accepts a healthy log exactly
   if no append committed in between; one that did makes it report a head mismatch.
   */
  lemma AcceptsAcrossReadsIff(hash: EntryHash, run: seq<Chain>, appends: seq<Append>, i: nat, j: nat)
    requires IsRun(hash, run, appends) && i <= j < |run|
    ensures Accepts(hash, run[i].entries, run[j].head) <==> run[i] == run[j]
  {
    EveryRunVerifies(hash, run, appends, i);
    EveryRunVerifies(hash, run, appends, j);
    EntriesOnlyGrow(hash, run, appends, i, j);
  }
}
