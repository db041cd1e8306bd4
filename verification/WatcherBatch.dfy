/**
 One batch of the watcher (`#processNextBatch`, src/application/watcher/watcher-service.ts).
 */
module WatcherBatch {
  import opened Common
  import opened CursorStorage
  import opened ChainFollower
  import opened ForkSearch
  import opened Transfers
  import opened Ingestion
  import opened Interpretation

  /** What one chain is watched for; contracts and recipients in lower case. */
  datatype Watchlist = Watchlist(chain: string, contracts: set<string>, native: bool, recipients: set<string>)

  /** The provider's answers during one batch; None stands for a request that throws. */
  datatype View = View(
    header: nat -> Option<Header>,
    corroboration: nat -> Corroboration,
    logs: Option<seq<Log>>,
    transactions: nat -> Option<seq<NativeTransaction>>)

  /**
   What befalls the k-th log or transaction examined: nothing, a stop request, or a
   submission that fails before its row is stored, after it, or on the way back.
   */
  datatype Fate = Goes | Stops | InsertFails | EnqueueFails | ResponseLost

  // ----- what a batch submits -----

  /** The log of a transfer whose recipient topic is a watched address. */
  predicate LogMatches(w: Watchlist, l: Log) {
    && |l.topics| == 3 && IsTransferTopic(l.topics[0]) && IsAddressTopic(l.topics[1]) && IsAddressTopic(l.topics[2])
    && IsWord(l.data) && Lower("0x" + l.topics[2][26..]) in w.recipients
  }

  /** In words: some transfer to a watched recipient, from whomever and of whatever value. */
  lemma LogMatchesIff(w: Watchlist, l: Log)
    ensures LogMatches(w, l) <==>
      exists sender, recipient, word :: Carries(l, sender, recipient, word) && Lower("0x" + recipient) in w.recipients
  {
    if LogMatches(w, l) {
      var sender, recipient, word := OnlyTransfersDecode(l);
      TransferDecodes(l, sender, recipient, word);
    }
    if sender, recipient, word :| Carries(l, sender, recipient, word) && Lower("0x" + recipient) in w.recipients {
      TransferDecodes(l, sender, recipient, word);
      PaddedIsTopic(sender);
      PaddedIsTopic(recipient);
    }
  }

  function LogPart(w: Watchlist, l: Log): seq<Input> {
    if LogMatches(w, l) then [LogInput(w.chain, l)] else []
  }

  function LogInputs(w: Watchlist, logs: seq<Log>): seq<Input> {
    if logs == [] then []
    else
      LogInputs(w, logs[..|logs| - 1]) + LogPart(w, logs[|logs| - 1])
  }

  predicate TransactionMatches(w: Watchlist, tx: NativeTransaction) {
    tx.recipient.Some? && tx.value > 0 && Lower(tx.recipient.value) in w.recipients
  }

  function TransactionPart(w: Watchlist, h: Header, tx: NativeTransaction): seq<Input> {
    if TransactionMatches(w, tx) then [NativeInput(w.chain, tx, h.blockNumber, h.blockHash)] else []
  }

  function TransactionInputs(w: Watchlist, h: Header, txs: seq<NativeTransaction>): seq<Input> {
    if txs == [] then []
    else
      TransactionInputs(w, h, txs[..|txs| - 1]) + TransactionPart(w, h, txs[|txs| - 1])
  }

  function NativeInputs(w: Watchlist, headers: seq<Header>, txs: nat -> Option<seq<NativeTransaction>>): seq<Input> {
    if headers == [] then []
    else
      var h := headers[|headers| - 1];
      NativeInputs(w, headers[..|headers| - 1], txs) + TransactionInputs(w, h, txs(h.blockNumber).GetOr([]))
  }

  predicate InOrder(a: Log, b: Log) {
    a.blockNumber < b.blockNumber || (a.blockNumber == b.blockNumber && a.logIndex <= b.logIndex)
  }

  function Place(sorted: seq<Log>, l: Log): seq<Log> {
    if sorted == [] || InOrder(sorted[|sorted| - 1], l) then sorted + [l]
    else Place(sorted[..|sorted| - 1], l) + [sorted[|sorted| - 1]]
  }

  /** The stable sort by block number, then log index. */
  function Ordered(logs: seq<Log>): seq<Log> {
    if logs == [] then [] else Place(Ordered(logs[..|logs| - 1]), logs[|logs| - 1])
  }

  /** Everything the batch has to submit: the logs in chain order, then the native transfers. */
  function Expected(w: Watchlist, headers: seq<Header>, view: View): seq<Input> {
    (if w.contracts != {} then LogInputs(w, Ordered(view.logs.GetOr([]))) else []) +
    (if w.native && w.recipients != {} then NativeInputs(w, headers, view.transactions) else [])
  }

  // ----- facts about them -----

  /** By block number, and within a block by log index. */
  predicate Sorted(logs: seq<Log>) {
    forall i, j :: 0 <= i < j < |logs| ==>
      && logs[i].blockNumber <= logs[j].blockNumber
      && (logs[i].blockNumber == logs[j].blockNumber ==> logs[i].logIndex <= logs[j].logIndex)
  }

  lemma {:induction false} PlaceKeeps(sorted: seq<Log>, l: Log)
    ensures multiset(Place(sorted, l)) == multiset(sorted) + multiset{l}
  {
    if sorted != [] {
      PlaceKeeps(sorted[..|sorted| - 1], l);
      assert sorted == sorted[..|sorted| - 1] + [sorted[|sorted| - 1]];
    }
  }

  lemma PlacedIsOneOf(sorted: seq<Log>, l: Log, i: nat)
    requires i < |Place(sorted, l)|
    ensures Place(sorted, l)[i] in sorted || Place(sorted, l)[i] == l
  {
    PlaceKeeps(sorted, l);
    assert Place(sorted, l)[i] in multiset(Place(sorted, l));
  }

  lemma {:induction false} PlaceSorts(sorted: seq<Log>, l: Log)
    requires Sorted(sorted)
    ensures Sorted(Place(sorted, l))
  {
    if sorted != [] && InOrder(sorted[|sorted| - 1], l) {
      var last := sorted[|sorted| - 1];
      assert forall i :: 0 <= i < |sorted| ==> InOrder(sorted[i], last);
    }
    if sorted != [] && !InOrder(sorted[|sorted| - 1], l) {
      var front, last := sorted[..|sorted| - 1], sorted[|sorted| - 1];
      PlaceSorts(front, l);
      forall i | 0 <= i < |Place(front, l)| ensures InOrder(Place(front, l)[i], last) {
        PlacedIsOneOf(front, l, i);
      }
    }
  }

  /** Ordering loses and repeats nothing, and leaves the logs in chain order. */
  lemma {:induction false} OrderedSorts(logs: seq<Log>)
    ensures multiset(Ordered(logs)) == multiset(logs)
    ensures Sorted(Ordered(logs))
  {
    if logs != [] {
      var front := logs[..|logs| - 1];
      OrderedSorts(front);
      PlaceKeeps(Ordered(front), logs[|logs| - 1]);
      PlaceSorts(Ordered(front), logs[|logs| - 1]);
      assert logs == front + [logs[|logs| - 1]];
    }
  }

  lemma {:induction false} LogIsSubmitted(w: Watchlist, logs: seq<Log>, l: Log)
    requires l in logs && LogMatches(w, l)
    ensures LogInput(w.chain, l) in LogInputs(w, logs)
  {
    if l != logs[|logs| - 1] {
      assert l in logs[..|logs| - 1];
      LogIsSubmitted(w, logs[..|logs| - 1], l);
    }
  }

  lemma {:induction false} TransactionIsSubmitted(w: Watchlist, h: Header, txs: seq<NativeTransaction>,
      tx: NativeTransaction)
    requires tx in txs && TransactionMatches(w, tx)
    ensures NativeInput(w.chain, tx, h.blockNumber, h.blockHash) in TransactionInputs(w, h, txs)
  {
    if tx != txs[|txs| - 1] {
      assert tx in txs[..|txs| - 1];
      TransactionIsSubmitted(w, h, txs[..|txs| - 1], tx);
    }
  }

  lemma {:induction false} NativeIsSubmitted(w: Watchlist, headers: seq<Header>,
      txs: nat -> Option<seq<NativeTransaction>>, h: Header, tx: NativeTransaction)
    requires h in headers && tx in txs(h.blockNumber).GetOr([]) && TransactionMatches(w, tx)
    ensures NativeInput(w.chain, tx, h.blockNumber, h.blockHash) in NativeInputs(w, headers, txs)
  {
    if h == headers[|headers| - 1] {
      TransactionIsSubmitted(w, h, txs(h.blockNumber).GetOr([]), tx);
    } else {
      assert h in headers[..|headers| - 1];
      NativeIsSubmitted(w, headers[..|headers| - 1], txs, h, tx);
    }
  }

  lemma {:induction false} LogInputsPrefix(w: Watchlist, logs: seq<Log>, n: nat)
    requires n <= |logs|
    ensures LogInputs(w, logs[..n]) <= LogInputs(w, logs)
  {
    if n < |logs| {
      assert logs[..|logs| - 1][..n] == logs[..n];
      LogInputsPrefix(w, logs[..|logs| - 1], n);
    } else {
      assert logs[..n] == logs;
    }
  }

  lemma LogInputsStep(w: Watchlist, logs: seq<Log>, n: nat)
    requires n < |logs|
    ensures LogInputs(w, logs[..n + 1]) == LogInputs(w, logs[..n]) + LogPart(w, logs[n])
    ensures LogInputs(w, logs[..n]) + LogPart(w, logs[n]) <= LogInputs(w, logs)
  {
    assert logs[..n + 1][..n] == logs[..n];
    LogInputsPrefix(w, logs, n + 1);
  }

  lemma {:induction false} TransactionInputsPrefix(w: Watchlist, h: Header, txs: seq<NativeTransaction>, n: nat)
    requires n <= |txs|
    ensures TransactionInputs(w, h, txs[..n]) <= TransactionInputs(w, h, txs)
  {
    if n < |txs| {
      assert txs[..|txs| - 1][..n] == txs[..n];
      TransactionInputsPrefix(w, h, txs[..|txs| - 1], n);
    } else {
      assert txs[..n] == txs;
    }
  }

  lemma {:induction false} NativeInputsPrefix(w: Watchlist, headers: seq<Header>,
      txs: nat -> Option<seq<NativeTransaction>>, n: nat)
    requires n <= |headers|
    ensures NativeInputs(w, headers[..n], txs) <= NativeInputs(w, headers, txs)
  {
    if n < |headers| {
      assert headers[..|headers| - 1][..n] == headers[..n];
      NativeInputsPrefix(w, headers[..|headers| - 1], txs, n);
    } else {
      assert headers[..n] == headers;
    }
  }

  lemma NativeInputsStep(w: Watchlist, headers: seq<Header>, txs: nat -> Option<seq<NativeTransaction>>, n: nat)
    requires n < |headers|
    ensures
      var block := TransactionInputs(w, headers[n], txs(headers[n].blockNumber).GetOr([]));
      && NativeInputs(w, headers[..n + 1], txs) == NativeInputs(w, headers[..n], txs) + block
      && NativeInputs(w, headers[..n], txs) + block <= NativeInputs(w, headers, txs)
  {
    assert headers[..n + 1][..n] == headers[..n];
    NativeInputsPrefix(w, headers, txs, n + 1);
  }

  lemma PrefixChain(a: seq<Input>, part: seq<Input>, all: seq<Input>, whole: seq<Input>)
    requires part <= all && a + all <= whole
    ensures a + part <= whole
  {
  }

  // ----- headers -----

  datatype Failure = Discontinuity | OtherError

  function ExpectedParent(cursor: Cursor, view: View, n: nat): string {
    if n == cursor.lastProcessedBlock + 1 || n == 0 || view.header(n - 1).None? then cursor.lastProcessedBlockHash
    else view.header(n - 1).value.blockHash
  }

  /** The provider answered for height `n` and the header continues the one before it. */
  predicate FollowsAt(cursor: Cursor, view: View, n: nat) {
    var h := view.header(n);
    h.Some? && h.value.blockNumber == n && h.value.parentHash == ExpectedParent(cursor, view, n)
  }

  predicate BreaksAt(cursor: Cursor, view: View, n: nat) {
    var h := view.header(n);
    h.Some? && h.value.blockNumber == n && !FollowsAt(cursor, view, n)
  }

  predicate AllFollow(cursor: Cursor, view: View, top: nat) {
    forall n :: cursor.lastProcessedBlock < n <= top ==> FollowsAt(cursor, view, n)
  }

  /** Some header breaks the chain, and all before it follow. */
  predicate FirstBreaks(cursor: Cursor, view: View, top: nat) {
    exists n :: cursor.lastProcessedBlock < n <= top && BreaksAt(cursor, view, n)
                && forall m :: cursor.lastProcessedBlock < m < n ==> FollowsAt(cursor, view, m)
  }

  predicate FetchedFrom(view: View, from: nat, headers: seq<Header>) {
    forall i :: 0 <= i < |headers| ==> view.header(from + i) == Some(headers[i])
  }

  method FetchHeaders(cursor: Cursor, toBlock: nat, view: View) returns (r: Result<seq<Header>, Failure>)
    requires cursor.lastProcessedBlock < toBlock
    ensures r.Ok? <==> AllFollow(cursor, view, toBlock)
    ensures r.Ok? ==>
      && Extends(cursor, r.value) && |r.value| == toBlock - cursor.lastProcessedBlock
      && FetchedFrom(view, cursor.lastProcessedBlock + 1, r.value)
    ensures r == Err(Discontinuity) <==> FirstBreaks(cursor, view, toBlock)
  {
    var headers: seq<Header> := [];
    var expectedParentHash := cursor.lastProcessedBlockHash;
    var from := cursor.lastProcessedBlock + 1;
    for number := from to toBlock + 1
      invariant |headers| == number - from && FetchedFrom(view, from, headers)
      invariant |headers| > 0 ==> Extends(cursor, headers)
      invariant expectedParentHash == if |headers| == 0 then cursor.lastProcessedBlockHash
          else headers[|headers| - 1].blockHash
      invariant forall n :: from <= n < number ==> FollowsAt(cursor, view, n)
    {
      assert number > from ==> view.header(from + (|headers| - 1)) == Some(headers[|headers| - 1]);
      assert expectedParentHash == ExpectedParent(cursor, view, number);
      var answer := view.header(number);
      if answer.None? || answer.value.blockNumber != number {
        assert !FollowsAt(cursor, view, number) && !BreaksAt(cursor, view, number);
        return Err(OtherError);
      }
      if answer.value.parentHash != expectedParentHash {
        assert BreaksAt(cursor, view, number) && !FollowsAt(cursor, view, number);
        return Err(Discontinuity);
      }
      headers := headers + [answer.value];
      expectedParentHash := answer.value.blockHash;
    }
    return Ok(headers);
  }

  method Corroborated(headers: seq<Header>, view: View) returns (agreed: bool)
    ensures agreed <==> forall i :: 0 <= i < |headers| ==> view.corroboration(headers[i].blockNumber).Agreeing?
  {
    for i := 0 to |headers|
      invariant forall j :: 0 <= j < i ==> view.corroboration(headers[j].blockNumber).Agreeing?
    {
      if !view.corroboration(headers[i].blockNumber).Agreeing? {
        return false;
      }
    }
    return true;
  }

  // ----- submissions -----

  /** Whether the loop ran to its end, and if not, why it stopped. */
  datatype Progress = Finished | Stopped | Threw

  /** One thing the loops do: a request, or a log or transaction looked at, with what befalls it. */
  datatype Exam = Ask(answered: bool) | Look(calls: bool, fate: Fate)

  /** The loop goes on after it. */
  predicate Passes(e: Exam) {
    match e
    case Ask(answered) => answered
    case Look(calls, fate) => fate.Goes? || (!calls && !fate.Stops?)
  }

  predicate FirstNot(exams: seq<Exam>, k: nat) {
    k < |exams| && !Passes(exams[k]) && forall j :: 0 <= j < k ==> Passes(exams[j])
  }

  predicate IsStop(e: Exam) {
    e.Look? && e.fate.Stops?
  }

  /** How the loops end: finished if all goes well, otherwise by the first thing that does not. */
  ghost predicate Ends(exams: seq<Exam>, progress: Progress) {
    match progress
    case Finished => forall k :: 0 <= k < |exams| ==> Passes(exams[k])
    case Stopped => exists k: nat :: FirstNot(exams, k) && IsStop(exams[k])
    case Threw => exists k: nat :: FirstNot(exams, k) && !IsStop(exams[k])
  }

  /** The first `n` logs looked at. */
  function LogExams(w: Watchlist, logs: seq<Log>, fates: nat -> Fate, n: nat): (exams: seq<Exam>)
    requires n <= |logs|
    ensures |exams| == n
  {
    if n == 0 then []
    else LogExams(w, logs, fates, n - 1) + [Look(LogMatches(w, logs[n - 1]), fates(n - 1))]
  }

  /** The first `n` transactions of a block looked at. */
  function TransactionExams(w: Watchlist, txs: seq<NativeTransaction>, start: nat, fates: nat -> Fate,
      n: nat): (exams: seq<Exam>)
    requires n <= |txs|
    ensures |exams| == n
  {
    if n == 0 then []
    else
      TransactionExams(w, txs, start, fates, n - 1)
      + [Look(TransactionMatches(w, txs[n - 1]), fates(start + (n - 1)))]
  }

  /** How many transactions the answers for the first `n` headers hold. */
  function Looked(headers: seq<Header>, txs: nat -> Option<seq<NativeTransaction>>, n: nat): nat
    requires n <= |headers|
  {
    if n == 0 then 0 else Looked(headers, txs, n - 1) + |txs(headers[n - 1].blockNumber).GetOr([])|
  }

  function BlockExams(w: Watchlist, answer: Option<seq<NativeTransaction>>, start: nat, fates: nat -> Fate): seq<Exam> {
    [Ask(answer.Some?)] + TransactionExams(w, answer.GetOr([]), start, fates, |answer.GetOr([])|)
  }

  function NativeExams(w: Watchlist, headers: seq<Header>, txs: nat -> Option<seq<NativeTransaction>>, start: nat,
      fates: nat -> Fate, n: nat): seq<Exam>
    requires n <= |headers|
  {
    if n == 0 then []
    else
      NativeExams(w, headers, txs, start, fates, n - 1)
      + BlockExams(w, txs(headers[n - 1].blockNumber), start + Looked(headers, txs, n - 1), fates)
  }

  function RangeExams(w: Watchlist, answer: Option<seq<Log>>, fates: nat -> Fate): seq<Exam> {
    var logs := Ordered(answer.GetOr([]));
    [Ask(answer.Some?)] + LogExams(w, logs, fates, |logs|)
  }

  /** Everything a batch does between its headers and its commit, in order. */
  function Exams(w: Watchlist, headers: seq<Header>, view: View, fates: nat -> Fate): seq<Exam> {
    var looked := if w.contracts != {} then |Ordered(view.logs.GetOr([]))| else 0;
    (if w.contracts != {} then RangeExams(w, view.logs, fates) else [])
    + (if w.native && w.recipients != {} then
         NativeExams(w, headers, view.transactions, looked, fates, |headers|)
       else [])
  }

  lemma EndsOnce(exams: seq<Exam>, p: Progress, q: Progress)
    requires Ends(exams, p) && Ends(exams, q)
    ensures p == q
  {
    if !p.Finished? && !q.Finished? {
      var i: nat :| FirstNot(exams, i) && (IsStop(exams[i]) <==> p.Stopped?);
      var j: nat :| FirstNot(exams, j) && (IsStop(exams[j]) <==> q.Stopped?);
      assert !(i < j) && !(j < i);
    }
  }

  /** What comes after a finished part decides; what comes after one that broke off does not matter. */
  lemma EndsThen(a: seq<Exam>, b: seq<Exam>, p: Progress, q: Progress)
    requires Ends(a, p) && (p.Finished? ==> Ends(b, q))
    ensures Ends(a + b, if p.Finished? then q else p)
  {
    if !p.Finished? {
      var k: nat :| FirstNot(a, k) && (IsStop(a[k]) <==> p.Stopped?);
      assert FirstNot(a + b, k);
    } else if !q.Finished? {
      var k: nat :| FirstNot(b, k) && (IsStop(b[k]) <==> q.Stopped?);
      BehindFinished(a, b, k);
    }
  }

  lemma BehindFinished(a: seq<Exam>, b: seq<Exam>, k: nat)
    requires Ends(a, Finished) && FirstNot(b, k)
    ensures FirstNot(a + b, |a| + k) && (a + b)[|a| + k] == b[k]
  {
    assert forall j :: |a| <= j < |a| + k ==> (a + b)[j] == b[j - |a|];
  }

  lemma AskFirst(answered: bool, rest: seq<Exam>, progress: Progress)
    requires answered ==> Ends(rest, progress)
    ensures Ends([Ask(answered)] + rest, if answered then progress else Threw)
  {
    var ask := [Ask(answered)];
    if !answered {
      assert FirstNot(ask, 0) && !IsStop(ask[0]);
    }
    EndsThen(ask, rest, if answered then Finished else Threw, progress);
  }

  // ----- where each loop ends -----

  predicate LogPasses(w: Watchlist, logs: seq<Log>, fates: nat -> Fate, i: nat)
    requires i < |logs|
  {
    Passes(Look(LogMatches(w, logs[i]), fates(i)))
  }

  /** The first `n` logs passed. */
  predicate LogsPass(w: Watchlist, logs: seq<Log>, fates: nat -> Fate, n: nat)
    requires n <= |logs|
  {
    n == 0 || (LogsPass(w, logs, fates, n - 1) && LogPasses(w, logs, fates, n - 1))
  }

  /** The logs before this one passed, and it is the end or did not. */
  ghost predicate LogsEnd(w: Watchlist, logs: seq<Log>, fates: nat -> Fate, at: nat, progress: Progress) {
    && at <= |logs| && LogsPass(w, logs, fates, at)
    && (progress.Finished? <==> at == |logs|)
    && (at < |logs| ==> !LogPasses(w, logs, fates, at) && (progress.Stopped? <==> fates(at).Stops?))
  }

  lemma {:induction false} PassedLog(w: Watchlist, logs: seq<Log>, fates: nat -> Fate, n: nat, i: nat)
    requires i < n <= |logs| && LogsPass(w, logs, fates, n)
    ensures LogPasses(w, logs, fates, i)
  {
    if i < n - 1 {
      PassedLog(w, logs, fates, n - 1, i);
    }
  }

  lemma {:induction false} LogExamsAt(w: Watchlist, logs: seq<Log>, fates: nat -> Fate, n: nat, i: nat)
    requires i < n <= |logs|
    ensures Passes(LogExams(w, logs, fates, n)[i]) <==> LogPasses(w, logs, fates, i)
    ensures IsStop(LogExams(w, logs, fates, n)[i]) <==> fates(i).Stops?
  {
    if i < n - 1 {
      LogExamsAt(w, logs, fates, n - 1, i);
    }
  }

  /** The loop over the logs runs to its end exactly if nothing stops it and every matching log is acknowledged. */
  lemma LogsFinishIff(w: Watchlist, logs: seq<Log>, fates: nat -> Fate)
    ensures Ends(LogExams(w, logs, fates, |logs|), Finished) <==>
      forall i :: 0 <= i < |logs| ==> fates(i).Goes? || (!fates(i).Stops? && !LogMatches(w, logs[i]))
  {
    var exams := LogExams(w, logs, fates, |logs|);
    forall i | 0 <= i < |logs|
      ensures Passes(exams[i]) <==> fates(i).Goes? || (!fates(i).Stops? && !LogMatches(w, logs[i]))
    {
      LogExamsAt(w, logs, fates, |logs|, i);
    }
  }

  lemma LogsEndMeans(w: Watchlist, logs: seq<Log>, fates: nat -> Fate, at: nat, progress: Progress)
    requires LogsEnd(w, logs, fates, at, progress)
    ensures Ends(LogExams(w, logs, fates, |logs|), progress)
  {
    var exams := LogExams(w, logs, fates, |logs|);
    forall i | 0 <= i < at ensures Passes(exams[i]) {
      PassedLog(w, logs, fates, at, i);
      LogExamsAt(w, logs, fates, |logs|, i);
    }
    if at < |logs| {
      LogExamsAt(w, logs, fates, |logs|, at);
      assert FirstNot(exams, at);
    }
  }

  predicate TransactionPasses(w: Watchlist, txs: seq<NativeTransaction>, start: nat, fates: nat -> Fate, i: nat)
    requires i < |txs|
  {
    Passes(Look(TransactionMatches(w, txs[i]), fates(start + i)))
  }

  /** The first `n` transactions passed. */
  predicate TransactionsPass(w: Watchlist, txs: seq<NativeTransaction>, start: nat, fates: nat -> Fate, n: nat)
    requires n <= |txs|
  {
    n == 0 || (TransactionsPass(w, txs, start, fates, n - 1) && TransactionPasses(w, txs, start, fates, n - 1))
  }

  ghost predicate TransactionsEnd(w: Watchlist, txs: seq<NativeTransaction>, start: nat, fates: nat -> Fate, at: nat,
      progress: Progress) {
    && at <= |txs| && TransactionsPass(w, txs, start, fates, at)
    && (progress.Finished? <==> at == |txs|)
    && (at < |txs| ==>
          !TransactionPasses(w, txs, start, fates, at) && (progress.Stopped? <==> fates(start + at).Stops?))
  }

  lemma {:induction false} PassedTransaction(w: Watchlist, txs: seq<NativeTransaction>, start: nat, fates: nat -> Fate,
      n: nat, i: nat)
    requires i < n <= |txs| && TransactionsPass(w, txs, start, fates, n)
    ensures TransactionPasses(w, txs, start, fates, i)
  {
    if i < n - 1 {
      PassedTransaction(w, txs, start, fates, n - 1, i);
    }
  }

  lemma {:induction false} TransactionExamsAt(w: Watchlist, txs: seq<NativeTransaction>, start: nat, fates: nat -> Fate,
      n: nat, i: nat)
    requires i < n <= |txs|
    ensures Passes(TransactionExams(w, txs, start, fates, n)[i]) <==> TransactionPasses(w, txs, start, fates, i)
    ensures IsStop(TransactionExams(w, txs, start, fates, n)[i]) <==> fates(start + i).Stops?
  {
    if i < n - 1 {
      TransactionExamsAt(w, txs, start, fates, n - 1, i);
    }
  }

  lemma TransactionsEndMeans(w: Watchlist, txs: seq<NativeTransaction>, start: nat, fates: nat -> Fate, at: nat,
      progress: Progress)
    requires TransactionsEnd(w, txs, start, fates, at, progress)
    ensures Ends(TransactionExams(w, txs, start, fates, |txs|), progress)
  {
    var exams := TransactionExams(w, txs, start, fates, |txs|);
    forall i | 0 <= i < at ensures Passes(exams[i]) {
      PassedTransaction(w, txs, start, fates, at, i);
      TransactionExamsAt(w, txs, start, fates, |txs|, i);
    }
    if at < |txs| {
      TransactionExamsAt(w, txs, start, fates, |txs|, at);
      assert FirstNot(exams, at);
    }
  }

  /** How block `i` of a batch ends. */
  ghost predicate BlockEnds(w: Watchlist, headers: seq<Header>, txs: nat -> Option<seq<NativeTransaction>>, start: nat,
      fates: nat -> Fate, i: nat, progress: Progress)
    requires i < |headers|
  {
    Ends(BlockExams(w, txs(headers[i].blockNumber), start + Looked(headers, txs, i), fates), progress)
  }

  /** The first `n` blocks finished. */
  ghost predicate BlocksFinish(w: Watchlist, headers: seq<Header>, txs: nat -> Option<seq<NativeTransaction>>,
      start: nat, fates: nat -> Fate, n: nat)
    requires n <= |headers|
  {
    n == 0
    || (BlocksFinish(w, headers, txs, start, fates, n - 1) && BlockEnds(w, headers, txs, start, fates, n - 1, Finished))
  }

  lemma {:induction false} FinishedBlock(w: Watchlist, headers: seq<Header>,
      txs: nat -> Option<seq<NativeTransaction>>, start: nat, fates: nat -> Fate, n: nat, i: nat)
    requires i < n <= |headers| && BlocksFinish(w, headers, txs, start, fates, n)
    ensures BlockEnds(w, headers, txs, start, fates, i, Finished)
  {
    if i < n - 1 {
      FinishedBlock(w, headers, txs, start, fates, n - 1, i);
    }
  }

  ghost predicate BlocksEnd(w: Watchlist, headers: seq<Header>, txs: nat -> Option<seq<NativeTransaction>>, start: nat,
      fates: nat -> Fate, at: nat, progress: Progress) {
    && at <= |headers| && BlocksFinish(w, headers, txs, start, fates, at)
    && (progress.Finished? <==> at == |headers|)
    && (at < |headers| ==> BlockEnds(w, headers, txs, start, fates, at, progress))
  }

  lemma {:induction false} BlocksEndMeans(w: Watchlist, headers: seq<Header>,
      txs: nat -> Option<seq<NativeTransaction>>, start: nat, fates: nat -> Fate, at: nat, progress: Progress, n: nat)
    requires BlocksEnd(w, headers, txs, start, fates, at, progress) && n <= |headers|
    ensures Ends(NativeExams(w, headers, txs, start, fates, n), if n <= at then Finished else progress)
  {
    if n > 0 {
      BlocksEndMeans(w, headers, txs, start, fates, at, progress, n - 1);
      if n - 1 < at {
        FinishedBlock(w, headers, txs, start, fates, at, n - 1);
      }
      EndsThen(NativeExams(w, headers, txs, start, fates, n - 1),
               BlockExams(w, txs(headers[n - 1].blockNumber), start + Looked(headers, txs, n - 1), fates),
               if n - 1 <= at then Finished else progress, if n <= at then Finished else progress);
    }
  }

  lemma FinishedIsAnswered(w: Watchlist, headers: seq<Header>, txs: nat -> Option<seq<NativeTransaction>>, start: nat,
      fates: nat -> Fate, i: nat)
    requires i < |headers| && BlockEnds(w, headers, txs, start, fates, i, Finished)
    ensures txs(headers[i].blockNumber).Some?
  {
    var exams := BlockExams(w, txs(headers[i].blockNumber), start + Looked(headers, txs, i), fates);
    assert Passes(exams[0]);
  }

  /** A watched transfer is never refused for its form, so its fate alone decides. */
  lemma WatchedIsAccepted(w: Watchlist, l: Log)
    requires LogMatches(w, l)
    ensures Ingestion.Accepted(LogInput(w.chain, l))
  {
    WatchedLogIsNeverMalformed(x => x, w.chain, l);
  }

  lemma WatchedNativeIsAccepted(w: Watchlist, tx: NativeTransaction, h: Header)
    requires TransactionMatches(w, tx)
    ensures Ingestion.Accepted(NativeInput(w.chain, tx, h.blockNumber, h.blockHash))
  {
    AmountSurvives(NativeInput(w.chain, tx, h.blockNumber, h.blockHash), tx.value);
  }

  /** What reached the client, the queue and the store; each is a prefix of the next. */
  datatype Sent = Sent(acknowledged: seq<Input>, queued: seq<Input>, stored: seq<Input>)

  const NOTHING := Sent([], [], [])

  function SentAll(inputs: seq<Input>): Sent {
    Sent(inputs, inputs, inputs)
  }

  function SentOne(input: Input, fate: Fate): Sent {
    Sent(if Ingestion.Accepted(input) && fate.Goes? then [input] else [],
         if Ingestion.Accepted(input) && (fate.Goes? || fate.ResponseLost?) then [input] else [],
         if fate.InsertFails? then [] else [input])
  }

  function Then(inputs: seq<Input>, more: Sent): Sent {
    Sent(inputs + more.acknowledged, inputs + more.queued, inputs + more.stored)
  }

  /** At most the one submission in flight is stored, or queued as well, without being acknowledged. */
  predicate InStep(sent: Sent, expected: seq<Input>) {
    && sent.acknowledged <= sent.queued <= sent.stored <= expected
    && |sent.stored| <= |sent.acknowledged| + 1
  }

  function Ids(digest: string -> string, inputs: seq<Input>): seq<string> {
    seq(|inputs|, i requires 0 <= i < |inputs| => EventIdOf(digest, inputs[i]))
  }

  /** The endpoint once these submissions reached it. */
  function Received(digest: string -> string, before: Endpoint, sent: Sent): Endpoint {
    Endpoint(InsertFrom(digest, before.rows, sent.stored), before.enqueued + Ids(digest, sent.queued))
  }

  lemma IdsThen(digest: string -> string, queue: seq<string>, inputs: seq<Input>, more: seq<Input>)
    ensures queue + Ids(digest, inputs) + Ids(digest, more) == queue + Ids(digest, inputs + more)
  {
  }

  lemma ReceivedThen(digest: string -> string, before: Endpoint, inputs: seq<Input>, more: Sent)
    ensures Received(digest, Received(digest, before, SentAll(inputs)), more) ==
      Received(digest, before, Then(inputs, more))
  {
    InsertFromAppend(digest, before.rows, inputs, more.stored);
    IdsThen(digest, before.enqueued, inputs, more.queued);
  }

  lemma ThenInStep(inputs: seq<Input>, more: Sent, part: seq<Input>, expected: seq<Input>)
    requires InStep(more, part) && inputs + part <= expected
    ensures InStep(Then(inputs, more), expected)
  {
    PrefixChain(inputs, more.stored, part, expected);
  }

  /** One submission to the ingestion endpoint; not acknowledged where it throws. */
  method Submit(input: Input, fate: Fate, ingestion: EventIngestionService)
    returns (acknowledged: bool, ghost sent: Sent)
    requires !fate.Stops?
    modifies ingestion
    ensures sent == SentOne(input, fate) && (acknowledged <==> sent == SentAll([input]))
    ensures ingestion.State() == Received(ingestion.digest, old(ingestion.State()), sent)
  {
    var fault := match fate
      case InsertFails => Fault.InsertFails
      case EnqueueFails => Fault.EnqueueFails
      case _ => NoFault;
    var r := ingestion.Ingest(input, fault);
    assert [input][..0] == [] && Ids(ingestion.digest, [input]) == [EventIdOf(ingestion.digest, input)];
    acknowledged, sent := r.Ok? && !fate.ResponseLost?, SentOne(input, fate);
    assert acknowledged <==> sent == SentAll([input]);
    assert ingestion.rows == InsertFrom(ingestion.digest, old(ingestion.rows), sent.stored);
    assert ingestion.enqueued == old(ingestion.enqueued) + Ids(ingestion.digest, sent.queued);
  }

  /** One log of the range: decoded, matched against the watchlist and, if it matches, submitted. */
  method SubmitLog(w: Watchlist, entry: Log, fate: Fate, ingestion: EventIngestionService)
    returns (done: bool, ghost sent: Sent)
    requires !fate.Stops?
    modifies ingestion
    ensures ingestion.State() == Received(ingestion.digest, old(ingestion.State()), sent)
    ensures sent == if LogMatches(w, entry) then SentOne(LogInput(w.chain, entry), fate) else NOTHING
    ensures done <==> sent == SentAll(LogPart(w, entry))
    ensures done <==> Passes(Look(LogMatches(w, entry), fate))
  {
    done, sent := true, NOTHING;
    if LogMatches(w, entry) {
      WatchedIsAccepted(w, entry);
    }
    var decoded := DecodeTransferLog(entry);
    if decoded.Some? && Lower(decoded.value.toAddress) in w.recipients {
      done, sent := Submit(LogInput(w.chain, entry), fate, ingestion);
    }
  }

  lemma LogStep(digest: string -> string, before: Endpoint, w: Watchlist, logs: seq<Log>, fates: nat -> Fate, k: nat,
      one: Sent)
    requires k < |logs| && !fates(k).Stops?
    requires one == if LogMatches(w, logs[k]) then SentOne(LogInput(w.chain, logs[k]), fates(k)) else NOTHING
    ensures
      var sent := Then(LogInputs(w, logs[..k]), one);
      && Received(digest, Received(digest, before, SentAll(LogInputs(w, logs[..k]))), one) ==
           Received(digest, before, sent)
      && InStep(sent, LogInputs(w, logs))
      && (one == SentAll(LogPart(w, logs[k])) ==> sent == SentAll(LogInputs(w, logs[..k + 1])))
  {
    LogInputsStep(w, logs, k);
    ReceivedThen(digest, before, LogInputs(w, logs[..k]), one);
    ThenInStep(LogInputs(w, logs[..k]), one, LogPart(w, logs[k]), LogInputs(w, logs));
  }

  /** The next log of a loop that went well so far. */
  method SubmitNextLog(w: Watchlist, logs: seq<Log>, fates: nat -> Fate, k: nat, ingestion: EventIngestionService,
      ghost before: Endpoint)
    returns (done: bool, ghost sent: Sent)
    requires k < |logs| && !fates(k).Stops? && LogsPass(w, logs, fates, k)
    requires ingestion.State() == Received(ingestion.digest, before, SentAll(LogInputs(w, logs[..k])))
    modifies ingestion
    ensures ingestion.State() == Received(ingestion.digest, before, sent) && InStep(sent, LogInputs(w, logs))
    ensures done ==> sent == SentAll(LogInputs(w, logs[..k + 1])) && LogsPass(w, logs, fates, k + 1)
    ensures !done ==> LogsEnd(w, logs, fates, k, Threw)
  {
    ghost var one: Sent;
    done, one := SubmitLog(w, logs[k], fates(k), ingestion);
    LogStep(ingestion.digest, before, w, logs, fates, k, one);
    sent := Then(LogInputs(w, logs[..k]), one);
  }

  method SubmitLogs(w: Watchlist, logs: seq<Log>, fates: nat -> Fate, ingestion: EventIngestionService)
    returns (progress: Progress, examined: nat, ghost sent: Sent)
    modifies ingestion
    ensures ingestion.State() == Received(ingestion.digest, old(ingestion.State()), sent)
    ensures InStep(sent, LogInputs(w, logs))
    ensures progress.Finished? ==> sent == SentAll(LogInputs(w, logs))
    ensures LogsEnd(w, logs, fates, examined, progress)
  {
    sent, examined := NOTHING, 0;
    for k := 0 to |logs|
      invariant examined == k && sent == SentAll(LogInputs(w, logs[..k]))
      invariant LogsPass(w, logs, fates, k)
      invariant ingestion.State() == Received(ingestion.digest, old(ingestion.State()), sent)
    {
      if fates(k).Stops? {
        LogInputsPrefix(w, logs, k);
        return Stopped, k, sent;
      }
      var done;
      done, sent := SubmitNextLog(w, logs, fates, k, ingestion, old(ingestion.State()));
      if !done {
        return Threw, k, sent;
      }
      examined := k + 1;
    }
    assert logs[..|logs|] == logs;
    return Finished, examined, sent;
  }

  /** One transaction of a block: submitted if it moves value to a watched recipient. */
  method SubmitTransaction(w: Watchlist, h: Header, tx: NativeTransaction, fate: Fate, ingestion: EventIngestionService)
    returns (done: bool, ghost sent: Sent)
    requires !fate.Stops?
    modifies ingestion
    ensures ingestion.State() == Received(ingestion.digest, old(ingestion.State()), sent)
    ensures sent ==
      if TransactionMatches(w, tx) then SentOne(NativeInput(w.chain, tx, h.blockNumber, h.blockHash), fate) else NOTHING
    ensures done <==> sent == SentAll(TransactionPart(w, h, tx))
    ensures done <==> Passes(Look(TransactionMatches(w, tx), fate))
  {
    done, sent := true, NOTHING;
    if tx.recipient.Some? && tx.value > 0 && Lower(tx.recipient.value) in w.recipients {
      WatchedNativeIsAccepted(w, tx, h);
      done, sent := Submit(NativeInput(w.chain, tx, h.blockNumber, h.blockHash), fate, ingestion);
    }
  }

  lemma TransactionStep(digest: string -> string, before: Endpoint, w: Watchlist, h: Header,
      txs: seq<NativeTransaction>, fate: Fate, k: nat, one: Sent)
    requires k < |txs| && !fate.Stops?
    requires one ==
      if TransactionMatches(w, txs[k]) then SentOne(NativeInput(w.chain, txs[k], h.blockNumber, h.blockHash), fate)
      else NOTHING
    ensures
      var soFar := TransactionInputs(w, h, txs[..k]);
      var sent := Then(soFar, one);
      && Received(digest, Received(digest, before, SentAll(soFar)), one) == Received(digest, before, sent)
      && InStep(sent, TransactionInputs(w, h, txs))
      && (one == SentAll(TransactionPart(w, h, txs[k])) ==> sent == SentAll(TransactionInputs(w, h, txs[..k + 1])))
  {
    assert txs[..k + 1][..k] == txs[..k];
    TransactionInputsPrefix(w, h, txs, k + 1);
    ReceivedThen(digest, before, TransactionInputs(w, h, txs[..k]), one);
    ThenInStep(TransactionInputs(w, h, txs[..k]), one, TransactionPart(w, h, txs[k]), TransactionInputs(w, h, txs));
  }

  /** The next transaction of a loop that went well so far. */
  method SubmitNextTransaction(w: Watchlist, h: Header, txs: seq<NativeTransaction>, start: nat, fates: nat -> Fate,
      k: nat, ingestion: EventIngestionService, ghost before: Endpoint)
    returns (done: bool, ghost sent: Sent)
    requires k < |txs| && !fates(start + k).Stops? && TransactionsPass(w, txs, start, fates, k)
    requires ingestion.State() == Received(ingestion.digest, before, SentAll(TransactionInputs(w, h, txs[..k])))
    modifies ingestion
    ensures ingestion.State() == Received(ingestion.digest, before, sent) && InStep(sent, TransactionInputs(w, h, txs))
    ensures done ==>
      sent == SentAll(TransactionInputs(w, h, txs[..k + 1])) && TransactionsPass(w, txs, start, fates, k + 1)
    ensures !done ==> TransactionsEnd(w, txs, start, fates, k, Threw)
  {
    ghost var one: Sent;
    done, one := SubmitTransaction(w, h, txs[k], fates(start + k), ingestion);
    TransactionStep(ingestion.digest, before, w, h, txs, fates(start + k), k, one);
    sent := Then(TransactionInputs(w, h, txs[..k]), one);
  }

  method SubmitTransactions(w: Watchlist, h: Header, txs: seq<NativeTransaction>, start: nat, fates: nat -> Fate,
      ingestion: EventIngestionService)
    returns (progress: Progress, ghost at: nat, ghost sent: Sent)
    modifies ingestion
    ensures ingestion.State() == Received(ingestion.digest, old(ingestion.State()), sent)
    ensures InStep(sent, TransactionInputs(w, h, txs))
    ensures progress.Finished? ==> sent == SentAll(TransactionInputs(w, h, txs))
    ensures TransactionsEnd(w, txs, start, fates, at, progress)
  {
    sent := NOTHING;
    for k := 0 to |txs|
      invariant sent == SentAll(TransactionInputs(w, h, txs[..k])) && TransactionsPass(w, txs, start, fates, k)
      invariant ingestion.State() == Received(ingestion.digest, old(ingestion.State()), sent)
    {
      if fates(start + k).Stops? {
        TransactionInputsPrefix(w, h, txs, k);
        return Stopped, k, sent;
      }
      var done;
      done, sent := SubmitNextTransaction(w, h, txs, start, fates, k, ingestion, old(ingestion.State()));
      if !done {
        return Threw, k, sent;
      }
    }
    assert txs[..|txs|] == txs;
    return Finished, |txs|, sent;
  }

  lemma BlockExamsEnd(w: Watchlist, answer: Option<seq<NativeTransaction>>, start: nat, fates: nat -> Fate, at: nat,
      progress: Progress)
    requires if answer.Some? then TransactionsEnd(w, answer.value, start, fates, at, progress) else progress == Threw
    ensures Ends(BlockExams(w, answer, start, fates), progress)
  {
    var rest := TransactionExams(w, answer.GetOr([]), start, fates, |answer.GetOr([])|);
    if answer.Some? {
      TransactionsEndMeans(w, answer.value, start, fates, at, progress);
    }
    AskFirst(answer.Some?, rest, progress);
    assert BlockExams(w, answer, start, fates) == [Ask(answer.Some?)] + rest;
  }

  /** The transactions of one block, if the provider answers for it. */
  method SubmitBlock(w: Watchlist, headers: seq<Header>, transactions: nat -> Option<seq<NativeTransaction>>,
      ghost start: nat, fates: nat -> Fate, k: nat, examined: nat, ingestion: EventIngestionService)
    returns (progress: Progress, ghost sent: Sent)
    requires k < |headers| && examined == start + Looked(headers, transactions, k)
    modifies ingestion
    ensures ingestion.State() == Received(ingestion.digest, old(ingestion.State()), sent)
    ensures InStep(sent, TransactionInputs(w, headers[k], transactions(headers[k].blockNumber).GetOr([])))
    ensures progress.Finished? ==>
      && transactions(headers[k].blockNumber).Some?
      && sent == SentAll(TransactionInputs(w, headers[k], transactions(headers[k].blockNumber).GetOr([])))
    ensures BlockEnds(w, headers, transactions, start, fates, k, progress)
  {
    var answer := transactions(headers[k].blockNumber);
    if answer.None? {
      BlockExamsEnd(w, answer, examined, fates, 0, Threw);
      return Threw, NOTHING;
    }
    ghost var at: nat;
    progress, at, sent := SubmitTransactions(w, headers[k], answer.value, examined, fates, ingestion);
    BlockExamsEnd(w, answer, examined, fates, at, progress);
  }

  lemma NativeStep(digest: string -> string, before: Endpoint, w: Watchlist, headers: seq<Header>,
      txs: nat -> Option<seq<NativeTransaction>>, k: nat, part: Sent)
    requires k < |headers|
    requires InStep(part, TransactionInputs(w, headers[k], txs(headers[k].blockNumber).GetOr([])))
    ensures
      var soFar, block := NativeInputs(w, headers[..k], txs),
          TransactionInputs(w, headers[k], txs(headers[k].blockNumber).GetOr([]));
      var sent := Then(soFar, part);
      && Received(digest, Received(digest, before, SentAll(soFar)), part) == Received(digest, before, sent)
      && InStep(sent, NativeInputs(w, headers, txs))
      && (part == SentAll(block) ==> sent == SentAll(NativeInputs(w, headers[..k + 1], txs)))
  {
    NativeInputsStep(w, headers, txs, k);
    var soFar, block := NativeInputs(w, headers[..k], txs),
        TransactionInputs(w, headers[k], txs(headers[k].blockNumber).GetOr([]));
    ReceivedThen(digest, before, soFar, part);
    ThenInStep(soFar, part, block, NativeInputs(w, headers, txs));
  }

  method SubmitNative(w: Watchlist, headers: seq<Header>, transactions: nat -> Option<seq<NativeTransaction>>,
      start: nat, fates: nat -> Fate, ingestion: EventIngestionService)
    returns (progress: Progress, ghost at: nat, ghost sent: Sent)
    modifies ingestion
    ensures ingestion.State() == Received(ingestion.digest, old(ingestion.State()), sent)
    ensures InStep(sent, NativeInputs(w, headers, transactions))
    ensures progress.Finished? ==> sent == SentAll(NativeInputs(w, headers, transactions))
    ensures BlocksEnd(w, headers, transactions, start, fates, at, progress)
  {
    sent := NOTHING;
    var examined: nat := start;
    for k := 0 to |headers|
      invariant sent == SentAll(NativeInputs(w, headers[..k], transactions))
      invariant ingestion.State() == Received(ingestion.digest, old(ingestion.State()), sent)
      invariant examined == start + Looked(headers, transactions, k)
      invariant BlocksFinish(w, headers, transactions, start, fates, k)
    {
      var answer := transactions(headers[k].blockNumber);
      var step: Progress;
      ghost var part: Sent;
      step, part := SubmitBlock(w, headers, transactions, start, fates, k, examined, ingestion);
      NativeStep(ingestion.digest, old(ingestion.State()), w, headers, transactions, k, part);
      sent := Then(NativeInputs(w, headers[..k], transactions), part);
      if !step.Finished? {
        return step, k, sent;
      }
      examined := examined + |answer.value|;
    }
    assert headers[..|headers|] == headers;
    return Finished, |headers|, sent;
  }

  // ----- the batch -----

  function BatchAt(s: ChainStore, version: nat, headers: seq<Header>): ChainStore
    requires |headers| > 0
  {
    var tip := headers[|headers| - 1];
    AdvanceCommit(s, version, tip.blockNumber, tip.blockHash, NewHeaders(s.blocks, headers))
  }

  /** The provider answered every request for what the headers' range holds. */
  predicate Answered(w: Watchlist, headers: seq<Header>, view: View) {
    && (w.contracts != {} ==> view.logs.Some?)
    && (w.native && w.recipients != {} ==>
          forall i :: 0 <= i < |headers| ==> view.transactions(headers[i].blockNumber).Some?)
  }

  /** One batch from the store it met at its commit to the one it left, and what it sent before. */
  ghost predicate IsBatch(w: Watchlist, view: View, cursor: Cursor, before: ChainStore, after: ChainStore,
      headers: seq<Header>, sent: Sent, committed: bool) {
    && InStep(sent, Expected(w, headers, view))
    && (!committed ==> after == before)
    && (committed ==>
          && sent == SentAll(Expected(w, headers, view)) && Answered(w, headers, view)
          && Extends(cursor, headers) && FetchedFrom(view, cursor.lastProcessedBlock + 1, headers)
          && (forall i :: 0 <= i < |headers| ==> view.corroboration(headers[i].blockNumber).Agreeing?)
          && VersionOf(before) == cursor.version
          && (forall i :: 0 <= i < |headers| ==> !Conflicts(before.blocks, headers[i]))
          && after == BatchAt(before, cursor.version, headers))
  }

  /** Once a batch committed, every transfer its range holds has been handed to interpretation. */
  lemma CommittedIsQueued(digest: string -> string, w: Watchlist, view: View, cursor: Cursor, before: ChainStore,
      after: ChainStore, headers: seq<Header>, sent: Sent, endpoint: Endpoint, input: Input)
    requires IsBatch(w, view, cursor, before, after, headers, sent, true) && input in Expected(w, headers, view)
    ensures EventIdOf(digest, input) in Received(digest, endpoint, sent).enqueued
  {
    var i :| 0 <= i < |sent.queued| && sent.queued[i] == input;
    assert Ids(digest, sent.queued)[i] == EventIdOf(digest, input);
  }

  /** Logs, then native transfers. */
  lemma ExamsEnd(w: Watchlist, headers: seq<Header>, view: View, fates: nat -> Fate, first: Progress, second: Progress)
    requires if w.contracts != {} then Ends(RangeExams(w, view.logs, fates), first) else first == Finished
    requires
      var looked := if w.contracts != {} then |Ordered(view.logs.GetOr([]))| else 0;
      if w.native && w.recipients != {} then
        first.Finished? ==> Ends(NativeExams(w, headers, view.transactions, looked, fates, |headers|), second)
      else second == Finished
    ensures Ends(Exams(w, headers, view, fates), if first.Finished? then second else first)
  {
    var looked := if w.contracts != {} then |Ordered(view.logs.GetOr([]))| else 0;
    var a := if w.contracts != {} then RangeExams(w, view.logs, fates) else [];
    var b := if w.native && w.recipients != {} then
               NativeExams(w, headers, view.transactions, looked, fates, |headers|)
             else [];
    EndsThen(a, b, first, second);
    assert Exams(w, headers, view, fates) == a + b;
  }

  datatype BatchResult = Sleep | Continue | Failed(failure: Failure)

  // ----- what a batch comes to, by what it meets -----

  /** The last height of the batch. */
  function Top(cursor: Cursor, head: nat, batchSize: nat): nat {
    if head < cursor.lastProcessedBlock + batchSize then head else cursor.lastProcessedBlock + batchSize
  }

  predicate AllAgree(cursor: Cursor, view: View, top: nat) {
    forall n :: cursor.lastProcessedBlock < n <= top ==> view.corroboration(n).Agreeing?
  }

  function HeadersOf(cursor: Cursor, view: View, top: nat): seq<Header> {
    seq(if top > cursor.lastProcessedBlock then top - cursor.lastProcessedBlock else 0,
        i requires 0 <= i => view.header(cursor.lastProcessedBlock + 1 + i).GetOr(Header(0, "", "")))
  }

  predicate AnyConflict(blocks: map<BlockId, Observed>, headers: seq<Header>) {
    exists i :: 0 <= i < |headers| && Conflicts(blocks, headers[i])
  }

  /** There is a range, it follows and is corroborated; only then is anything submitted. */
  predicate Ready(cursor: Cursor, head: nat, batchSize: nat, view: View) {
    var top := Top(cursor, head, batchSize);
    head > cursor.lastProcessedBlock && AllFollow(cursor, view, top) && AllAgree(cursor, view, top)
  }

  /** The batch's range is ready, and its submissions end this way. */
  ghost predicate Submits(cursor: Cursor, head: nat, batchSize: nat, w: Watchlist, view: View, fates: nat -> Fate,
      progress: Progress) {
    && Ready(cursor, head, batchSize, view)
    && Ends(Exams(w, HeadersOf(cursor, view, Top(cursor, head, batchSize)), view, fates), progress)
  }

  /** The live chain breaks off the cursor's, or what was submitted for contradicts recorded history. */
  ghost predicate Discontinues(cursor: Cursor, head: nat, batchSize: nat, w: Watchlist, view: View, fates: nat -> Fate,
      blocks: map<BlockId, Observed>) {
    var top := Top(cursor, head, batchSize);
    || (head > cursor.lastProcessedBlock && FirstBreaks(cursor, view, top))
    || (Submits(cursor, head, batchSize, w, view, fates, Finished) && AnyConflict(blocks, HeadersOf(cursor, view, top)))
  }

  /** Everything in the range was submitted, and contradicts nothing. */
  ghost predicate Completes(cursor: Cursor, head: nat, batchSize: nat, w: Watchlist, view: View, fates: nat -> Fate,
      blocks: map<BlockId, Observed>) {
    && Submits(cursor, head, batchSize, w, view, fates, Finished)
    && !AnyConflict(blocks, HeadersOf(cursor, view, Top(cursor, head, batchSize)))
  }

  /** What the batch answers, in every case. */
  ghost predicate Meets(cursor: Cursor, head: nat, batchSize: nat, w: Watchlist, view: View, fates: nat -> Fate,
      blocks: map<BlockId, Observed>, r: BatchResult) {
    var top := Top(cursor, head, batchSize);
    && (r == Failed(Discontinuity) <==> Discontinues(cursor, head, batchSize, w, view, fates, blocks))
    && (r == Continue <==> Completes(cursor, head, batchSize, w, view, fates, blocks))
    && (r == Sleep <==>
          || head <= cursor.lastProcessedBlock
          || (AllFollow(cursor, view, top) && !AllAgree(cursor, view, top))
          || Submits(cursor, head, batchSize, w, view, fates, Stopped))
    && (r == Failed(OtherError) <==>
          || (head > cursor.lastProcessedBlock && !AllFollow(cursor, view, top) && !FirstBreaks(cursor, view, top))
          || Submits(cursor, head, batchSize, w, view, fates, Threw))
  }

  lemma BreaksDoNotFollow(cursor: Cursor, view: View, top: nat)
    requires FirstBreaks(cursor, view, top)
    ensures !AllFollow(cursor, view, top)
  {
  }

  /** The headers fetched for a range that follows are the provider's own. */
  lemma FetchedAreHeaders(cursor: Cursor, view: View, top: nat, headers: seq<Header>)
    requires Extends(cursor, headers) && |headers| == top - cursor.lastProcessedBlock
    requires FetchedFrom(view, cursor.lastProcessedBlock + 1, headers)
    ensures headers == HeadersOf(cursor, view, top)
    ensures AllAgree(cursor, view, top) <==>
      forall i :: 0 <= i < |headers| ==> view.corroboration(headers[i].blockNumber).Agreeing?
  {
    forall i | 0 <= i < |headers| ensures headers[i] == HeadersOf(cursor, view, top)[i] {
      var from := cursor.lastProcessedBlock + 1;
      assert view.header(from + i) == Some(headers[i]);
      assert HeadersOf(cursor, view, top)[i] == view.header(from + i).GetOr(Header(0, "", ""));
    }
    if forall i :: 0 <= i < |headers| ==> view.corroboration(headers[i].blockNumber).Agreeing? {
      forall n | cursor.lastProcessedBlock < n <= top ensures view.corroboration(n).Agreeing? {
        var i := n - cursor.lastProcessedBlock - 1;
        assert headers[i].blockNumber == n && view.corroboration(headers[i].blockNumber).Agreeing?;
      }
    }
  }

  /** A batch that broke off before its submissions. */
  lemma UnsubmittedMeets(cursor: Cursor, head: nat, batchSize: nat, w: Watchlist, view: View, fates: nat -> Fate,
      blocks: map<BlockId, Observed>)
    ensures
      var top := Top(cursor, head, batchSize);
      var r :=
        if head > cursor.lastProcessedBlock && !AllFollow(cursor, view, top) then
          Failed(if FirstBreaks(cursor, view, top) then Discontinuity else OtherError)
        else Sleep;
      (head > cursor.lastProcessedBlock && AllFollow(cursor, view, top) ==> !AllAgree(cursor, view, top)) ==>
        && Meets(cursor, head, batchSize, w, view, fates, blocks, r)
        && !Completes(cursor, head, batchSize, w, view, fates, blocks)
  {
    if FirstBreaks(cursor, view, Top(cursor, head, batchSize)) {
      BreaksDoNotFollow(cursor, view, Top(cursor, head, batchSize));
    }
  }

  /** A batch that got as far as its submissions. */
  lemma SubmittedMeets(cursor: Cursor, head: nat, batchSize: nat, w: Watchlist, view: View, fates: nat -> Fate,
      blocks: map<BlockId, Observed>, progress: Progress)
    requires Submits(cursor, head, batchSize, w, view, fates, progress)
    ensures
      var headers := HeadersOf(cursor, view, Top(cursor, head, batchSize));
      Meets(cursor, head, batchSize, w, view, fates, blocks,
            match progress
            case Finished => if AnyConflict(blocks, headers) then Failed(Discontinuity) else Continue
            case Stopped => Sleep
            case Threw => Failed(OtherError))
  {
    var exams := Exams(w, HeadersOf(cursor, view, Top(cursor, head, batchSize)), view, fates);
    forall q | Ends(exams, q) ensures q == progress {
      EndsOnce(exams, progress, q);
    }
    if FirstBreaks(cursor, view, Top(cursor, head, batchSize)) {
      BreaksDoNotFollow(cursor, view, Top(cursor, head, batchSize));
    }
  }

  class WatcherService {
    const batchSize: nat
    const initialLookbackBlocks: nat
    const storage: MongoChainCursorStorage
    const ingestion: EventIngestionService

    constructor (batchSize: nat, initialLookbackBlocks: nat, storage: MongoChainCursorStorage,
        ingestion: EventIngestionService)
      ensures this.batchSize == batchSize && this.initialLookbackBlocks == initialLookbackBlocks
      ensures this.storage == storage && this.ingestion == ingestion
    {
      this.batchSize, this.initialLookbackBlocks := batchSize, initialLookbackBlocks;
      this.storage, this.ingestion := storage, ingestion;
    }

    /** The stored cursor, or one anchored at the look-back height once that header is corroborated. */
    method ReadOrBootstrap(head: nat, view: View) returns (cursor: Option<Cursor>, threw: bool)
      modifies storage
      ensures
        var anchor := view.header(if head < initialLookbackBlocks then 0 else head - initialLookbackBlocks);
        var started :=
          old(storage.cursor).None? && anchor.Some? && view.corroboration(anchor.value.blockNumber).Agreeing?;
        && storage.Store() == (if started then BootstrapCommit(old(storage.Store()), anchor.value)
            else old(storage.Store()))
        && cursor == storage.cursor
        && (threw <==> old(storage.cursor).None? && anchor.None?)
    {
      threw := false;
      if storage.cursor.None? {
        var anchor := view.header(if head < initialLookbackBlocks then 0 else head - initialLookbackBlocks);
        if anchor.None? {
          return None, true;
        }
        if view.corroboration(anchor.value.blockNumber).Agreeing? {
          var _ := storage.Bootstrap(anchor.value);
        }
      }
      return storage.cursor, threw;
    }

    /** The logs of the range, if the provider answers for them. */
    method SubmitRange(w: Watchlist, answer: Option<seq<Log>>, fates: nat -> Fate)
      returns (progress: Progress, examined: nat, ghost sent: Sent)
      modifies ingestion
      ensures ingestion.State() == Received(ingestion.digest, old(ingestion.State()), sent)
      ensures InStep(sent, LogInputs(w, Ordered(answer.GetOr([]))))
      ensures progress.Finished? ==>
        && answer.Some? && sent == SentAll(LogInputs(w, Ordered(answer.value)))
        && examined == |Ordered(answer.value)|
      ensures Ends(RangeExams(w, answer, fates), progress)
    {
      if answer.None? {
        AskFirst(false, LogExams(w, Ordered([]), fates, |Ordered([])|), Threw);
        return Threw, 0, NOTHING;
      }
      progress, examined, sent := SubmitLogs(w, Ordered(answer.value), fates, ingestion);
      LogsEndMeans(w, Ordered(answer.value), fates, examined, progress);
      AskFirst(true, LogExams(w, Ordered(answer.value), fates, |Ordered(answer.value)|), progress);
    }

    /** The native transfers of the range, block by block. */
    method SubmitBlocks(w: Watchlist, headers: seq<Header>, view: View, start: nat, fates: nat -> Fate)
      returns (progress: Progress, ghost sent: Sent)
      modifies ingestion
      ensures ingestion.State() == Received(ingestion.digest, old(ingestion.State()), sent)
      ensures InStep(sent, NativeInputs(w, headers, view.transactions))
      ensures progress.Finished? ==>
        && sent == SentAll(NativeInputs(w, headers, view.transactions))
        && forall i :: 0 <= i < |headers| ==> view.transactions(headers[i].blockNumber).Some?
      ensures Ends(NativeExams(w, headers, view.transactions, start, fates, |headers|), progress)
    {
      ghost var at: nat;
      progress, at, sent := SubmitNative(w, headers, view.transactions, start, fates, ingestion);
      BlocksEndMeans(w, headers, view.transactions, start, fates, at, progress, |headers|);
      forall i | progress.Finished? && 0 <= i < |headers| ensures view.transactions(headers[i].blockNumber).Some? {
        FinishedBlock(w, headers, view.transactions, start, fates, at, i);
        FinishedIsAnswered(w, headers, view.transactions, start, fates, i);
      }
    }

    /** Submits what the fetched headers' range holds, in the source's order. */
    method SubmitAll(w: Watchlist, headers: seq<Header>, view: View, fates: nat -> Fate)
      returns (progress: Progress, ghost sent: Sent)
      modifies ingestion
      ensures ingestion.State() == Received(ingestion.digest, old(ingestion.State()), sent)
      ensures InStep(sent, Expected(w, headers, view))
      ensures progress.Finished? ==> sent == SentAll(Expected(w, headers, view)) && Answered(w, headers, view)
      ensures Ends(Exams(w, headers, view, fates), progress)
    {
      ghost var logged: seq<Input> := [];
      ghost var first := Finished;
      sent := NOTHING;
      var examined := 0;
      if w.contracts != {} {
        progress, examined, sent := SubmitRange(w, view.logs, fates);
        first, logged := progress, LogInputs(w, Ordered(view.logs.GetOr([])));
        if !progress.Finished? {
          ExamsEnd(w, headers, view, fates, first, Finished);
          return progress, sent;
        }
      }
      if w.native && w.recipients != {} {
        ghost var natives: Sent;
        progress, natives := SubmitBlocks(w, headers, view, examined, fates);
        ReceivedThen(ingestion.digest, old(ingestion.State()), logged, natives);
        ThenInStep(logged, natives, NativeInputs(w, headers, view.transactions), Expected(w, headers, view));
        sent := Then(logged, natives);
        ExamsEnd(w, headers, view, fates, first, progress);
        return progress, sent;
      }
      ExamsEnd(w, headers, view, fates, first, Finished);
      return Finished, sent;
    }

    method Commit(cursor: Cursor, headers: seq<Header>) returns (r: BatchResult, committed: bool)
      requires OneCanonical(storage.blocks) && Extends(cursor, headers)
      modifies storage
      ensures committed <==>
        VersionOf(old(storage.Store())) == cursor.version && forall i :: 0 <= i < |headers| ==>
          !Conflicts(old(storage.blocks), headers[i])
      ensures !committed ==> storage.Store() == old(storage.Store())
      ensures committed ==> storage.Store() == BatchAt(old(storage.Store()), cursor.version, headers)
      ensures r ==
        (if exists i ::
          0 <= i < |headers| && Conflicts(old(storage.blocks), headers[i]) then Failed(Discontinuity) else Continue)
    {
      var added := storage.ClassifyObservedBlocks(headers);
      if added.Err? {
        return Failed(Discontinuity), false;
      }
      var tip := headers[|headers| - 1];
      var conflict := storage.CommitAdvance(cursor.version, tip.blockNumber, tip.blockHash, added.value);
      return Continue, !conflict;
    }

    /**
     The rest of a batch, for a cursor that may have been read long ago. The store changes
     only by one version-checked commit of corroborated, linked headers, and only after
     everything their range holds for the watchlist was stored, queued and acknowledged.
     */
    method ProcessFrom(cursor: Cursor, head: nat, w: Watchlist, view: View, fates: nat -> Fate)
      returns (r: BatchResult, ghost committed: bool, ghost headers: seq<Header>, ghost sent: Sent)
      requires OneCanonical(storage.blocks) && batchSize > 0
      modifies storage, ingestion
      ensures ingestion.State() == Received(ingestion.digest, old(ingestion.State()), sent)
      ensures IsBatch(w, view, cursor, old(storage.Store()), storage.Store(), headers, sent, committed)
      ensures committed ==> headers[|headers| - 1].blockNumber <= head && |headers| <= batchSize
      ensures committed ==> headers[|headers| - 1].blockNumber == head || |headers| == batchSize
      ensures Meets(cursor, head, batchSize, w, view, fates, old(storage.blocks), r)
      ensures committed <==>
        && Completes(cursor, head, batchSize, w, view, fates, old(storage.blocks))
        && VersionOf(old(storage.Store())) == cursor.version
      ensures
        if Ready(cursor, head, batchSize, view) then headers == HeadersOf(cursor, view, Top(cursor, head, batchSize))
        else sent == NOTHING
      ensures r.Continue? ==> committed || VersionOf(old(storage.Store())) != cursor.version
      ensures committed ==> r.Continue?
    {
      committed, headers, sent := false, [], NOTHING;
      if cursor.lastProcessedBlock + 1 > head {
        UnsubmittedMeets(cursor, head, batchSize, w, view, fates, storage.blocks);
        return Sleep, committed, headers, sent;
      }
      var toBlock :=
        if head < cursor.lastProcessedBlock + batchSize then head else cursor.lastProcessedBlock + batchSize;
      var fetched := FetchHeaders(cursor, toBlock, view);
      if fetched.Err? {
        UnsubmittedMeets(cursor, head, batchSize, w, view, fates, storage.blocks);
        assert fetched.error == if FirstBreaks(cursor, view, toBlock) then Discontinuity else OtherError;
        return Failed(fetched.error), committed, headers, sent;
      }
      r, committed, sent := ProcessFetched(cursor, head, toBlock, fetched.value, w, view, fates);
      headers := fetched.value;
    }

    /** A batch whose headers were fetched. */
    method ProcessFetched(cursor: Cursor, ghost head: nat, ghost top: nat, headers: seq<Header>, w: Watchlist,
        view: View, fates: nat -> Fate)
      returns (r: BatchResult, ghost committed: bool, ghost sent: Sent)
      requires OneCanonical(storage.blocks) && Extends(cursor, headers)
      requires head > cursor.lastProcessedBlock && top == Top(cursor, head, batchSize)
      requires |headers| == top - cursor.lastProcessedBlock
      requires AllFollow(cursor, view, top) && FetchedFrom(view, cursor.lastProcessedBlock + 1, headers)
      modifies storage, ingestion
      ensures ingestion.State() == Received(ingestion.digest, old(ingestion.State()), sent)
      ensures IsBatch(w, view, cursor, old(storage.Store()), storage.Store(), headers, sent, committed)
      ensures Meets(cursor, head, batchSize, w, view, fates, old(storage.blocks), r)
      ensures committed <==>
        && Completes(cursor, head, batchSize, w, view, fates, old(storage.blocks))
        && VersionOf(old(storage.Store())) == cursor.version
      ensures headers == HeadersOf(cursor, view, top)
      ensures !Ready(cursor, head, batchSize, view) ==> sent == NOTHING
    {
      FetchedAreHeaders(cursor, view, top, headers);
      var agreed := Corroborated(headers, view);
      if !agreed {
        UnsubmittedMeets(cursor, head, batchSize, w, view, fates, storage.blocks);
        return Sleep, false, NOTHING;
      }
      ghost var progress: Progress;
      r, committed, progress, sent := SubmitAndCommit(cursor, headers, w, view, fates);
      SubmittedMeets(cursor, head, batchSize, w, view, fates, old(storage.blocks), progress);
    }

    /** The second half of a batch: submissions, and the commit if they all went well. */
    method SubmitAndCommit(cursor: Cursor, headers: seq<Header>, w: Watchlist, view: View, fates: nat -> Fate)
      returns (r: BatchResult, ghost committed: bool, ghost progress: Progress, ghost sent: Sent)
      requires OneCanonical(storage.blocks) && Extends(cursor, headers)
      modifies storage, ingestion
      ensures ingestion.State() == Received(ingestion.digest, old(ingestion.State()), sent)
      ensures InStep(sent, Expected(w, headers, view)) && Ends(Exams(w, headers, view, fates), progress)
      ensures progress.Finished? ==> sent == SentAll(Expected(w, headers, view)) && Answered(w, headers, view)
      ensures r == match progress
        case Finished => if AnyConflict(old(storage.blocks), headers) then Failed(Discontinuity) else Continue
        case Stopped => Sleep
        case Threw => Failed(OtherError)
      ensures committed <==>
        && progress.Finished? && !AnyConflict(old(storage.blocks), headers)
        && VersionOf(old(storage.Store())) == cursor.version
      ensures storage.Store() ==
        if committed then BatchAt(old(storage.Store()), cursor.version, headers) else old(storage.Store())
    {
      var end: Progress;
      committed := false;
      end, sent := SubmitAll(w, headers, view, fates);
      progress := end;
      if end.Stopped? {
        return Sleep, committed, progress, sent;
      }
      if end.Threw? {
        return Failed(OtherError), committed, progress, sent;
      }
      r, committed := Commit(cursor, headers);
    }
  }
}
