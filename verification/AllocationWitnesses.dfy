/** A short run that registers one extended key under two wallet ids, the second replacing the first. */
module AllocationWitnesses {
  import opened Common
  import opened SnapshotStore
  import opened Registry
  import opened RegistryRuns
  import opened Allocation

  /** The chain, token, wallets and requests of the run. */
  datatype Scene = Scene(chain: Doc, token: Doc, owner: string, extendedKey: string, request: Request, first: Draw,
    second: Draw)

  predicate Draws(d: Draw) {
    d.merchantActive && d.networkAllowed && d.screened
  }

  /** A chain and a token as registered, a request within the token's bounds, two wallets and two payment ids. */
  predicate Fits(s: Scene) {
    && s.chain.ChainDoc? && !s.chain.chain.registration.enabled
    && s.token.TokenDoc? && !s.token.token.registration.enabled && s.token.token.home == s.request.chain
    && s.token.token.minAmount <= s.request.amount <= s.token.token.maxAmount
    && s.request.merchantId == s.owner && s.request.idempotencyKey.None?
    && Draws(s.first) && Draws(s.second)
    && s.first.xpubId != s.second.xpubId && s.first.paymentId != s.second.paymentId
  }

  /** A transaction begun on the last state meets no conflict. */
  lemma Now(run: seq<State>, steps: seq<Step>, t: Txn) returns (longer: seq<State>)
    requires IsRun(run, steps) && Execute(run[|steps|].docs, t).Ok?
    ensures IsRun(longer, steps + [Step(|steps|, t)]) && run <= longer
    ensures longer[|steps| + 1].docs == Install(run[|steps|].docs, Execute(run[|steps|].docs, t).value)
  {
    var cur := run[|steps|];
    RunLater(run, steps, |steps|, |steps|);
    longer := run + [Take(cur, cur, t)];
    var more := steps + [Step(|steps|, t)];
    forall i | 0 <= i < |more|
      ensures more[i].startedAt <= i && longer[i + 1] == Take(longer[i], longer[more[i].startedAt], more[i].txn)
    {
      if i < |steps| {
        assert longer[i] == run[i] && longer[more[i].startedAt] == run[steps[i].startedAt];
      }
    }
  }

  /** Chain and token are open, the wallet is active at this index, and these are all the documents. */
  predicate Open(docs: Docs, s: Scene, keys: set<Key>) {
    && docs.Keys == keys && ChainOpenFor(docs, s.request.chain)
    && TokenOpenFor(docs, s.request.chain, s.request.token)
    && docs[TokenKey(s.request.token)].token.minAmount <= s.request.amount
       <= docs[TokenKey(s.request.token)].token.maxAmount
  }

  predicate HasWallet(docs: Docs, s: Scene, x: string, active: bool, index: nat) {
    var k := WalletKey(x);
    k in docs && docs[k] == WalletDoc(Wallet(s.owner, s.request.chain, s.extendedKey, active, index))
  }

  function Entities(s: Scene): set<Key> {
    {ChainKey(s.request.chain), TokenKey(s.request.token)}
  }

  /** Both entities registered and activated. */
  function Prelude(s: Scene): seq<Txn>
    requires Fits(s)
  {
    [Register(ChainKey(s.request.chain), s.chain), Register(TokenKey(s.request.token), s.token),
     Activate(ChainKey(s.request.chain), RegistrationOf(s.chain).version),
     Activate(TokenKey(s.request.token), RegistrationOf(s.token).version)]
  }

  function InTurn(txns: seq<Txn>): seq<Step> {
    seq(|txns|, i requires 0 <= i < |txns| => Step(i, txns[i]))
  }

  lemma InTurnSnoc(txns: seq<Txn>, t: Txn)
    ensures InTurn(txns + [t]) == InTurn(txns) + [Step(|txns|, t)]
  {
  }

  lemma Registering(run: seq<State>, txns: seq<Txn>, e: Key, d: Doc) returns (longer: seq<State>)
    requires IsRun(run, InTurn(txns)) && e !in run[|txns|].docs && RightKind(e, d) && !RegistrationOf(d).enabled
    ensures IsRun(longer, InTurn(txns + [Register(e, d)]))
    ensures longer[|txns| + 1].docs == run[|txns|].docs[e := d]
  {
    InTurnSnoc(txns, Register(e, d));
    longer := Now(run, InTurn(txns), Register(e, d));
  }

  lemma Activating(run: seq<State>, txns: seq<Txn>, e: Key, d: Doc) returns (longer: seq<State>)
    requires IsRun(run, InTurn(txns)) && At(run[|txns|].docs, e) == Some(d) && RightKind(e, d)
    requires !RegistrationOf(d).enabled
    ensures IsRun(longer, InTurn(txns + [Activate(e, RegistrationOf(d).version)]))
    ensures longer[|txns| + 1].docs == run[|txns|].docs[e := WithEnabled(d, true)]
  {
    InTurnSnoc(txns, Activate(e, RegistrationOf(d).version));
    longer := Now(run, InTurn(txns), Activate(e, RegistrationOf(d).version));
  }

  lemma Opening(s: Scene) returns (run: seq<State>)
    requires Fits(s)
    ensures IsRun(run, InTurn(Prelude(s))) && Open(run[4].docs, s, Entities(s))
  {
    var c, t := ChainKey(s.request.chain), TokenKey(s.request.token);
    var p := Prelude(s);
    run := [EMPTY];
    assert InTurn([]) == [] && [] + [p[0]] == [p[0]];
    run := Registering(run, [], c, s.chain);
    run := Registering(run, [p[0]], t, s.token);
    assert [p[0]] + [p[1]] == [p[0], p[1]] && [p[0], p[1]] + [p[2]] == [p[0], p[1], p[2]];
    run := Activating(run, [p[0], p[1]], c, s.chain);
    run := Activating(run, [p[0], p[1], p[2]], t, s.token);
    assert p == [p[0], p[1], p[2]] + [p[3]];
  }

  lemma Onboarding(s: Scene, run: seq<State>, txns: seq<Txn>, x: string, keys: set<Key>) returns (longer: seq<State>)
    requires IsRun(run, InTurn(txns)) && Open(run[|txns|].docs, s, keys) && WalletKey(x) !in keys
    ensures
      var t := Onboard(x, s.owner, s.request.chain, s.extendedKey, None);
      IsRun(longer, InTurn(txns + [t]))
    ensures Open(longer[|txns| + 1].docs, s, keys + {WalletKey(x)}) && HasWallet(longer[|txns| + 1].docs, s, x, true, 0)
  {
    var t := Onboard(x, s.owner, s.request.chain, s.extendedKey, None);
    InTurnSnoc(txns, t);
    longer := Now(run, InTurn(txns), t);
  }

  /** The documents once wallet `d.xpubId` issued its first address. */
  function Issuing(s: Scene, d: Draw): set<Key> {
    Entities(s) + {WalletKey(d.xpubId), AddressKey(d.xpubId, 0), PaymentKey(d.paymentId),
                   DerivedKey(s.request.chain, s.extendedKey, 0)}
  }

  lemma Paying(s: Scene, run: seq<State>, txns: seq<Txn>) returns (longer: seq<State>)
    requires Fits(s) && IsRun(run, InTurn(txns))
    requires Open(run[|txns|].docs, s, Entities(s) + {WalletKey(s.first.xpubId)})
    requires HasWallet(run[|txns|].docs, s, s.first.xpubId, true, 0)
    ensures IsRun(longer, InTurn(txns + [Create(s.request, s.first)]))
    ensures Open(longer[|txns| + 1].docs, s, Issuing(s, s.first))
    ensures HasWallet(longer[|txns| + 1].docs, s, s.first.xpubId, true, 1)
  {
    var t, docs := Create(s.request, s.first), run[|txns|].docs;
    assert AddressKey(s.first.xpubId, 0) !in docs && NextAddress(docs[WalletKey(s.first.xpubId)].wallet) !in docs;
    assert PaymentKey(s.first.paymentId) !in docs;
    InTurnSnoc(txns, t);
    longer := Now(run, InTurn(txns), t);
  }

  lemma Rotating(s: Scene, run: seq<State>, txns: seq<Txn>) returns (longer: seq<State>)
    requires Fits(s) && IsRun(run, InTurn(txns)) && Open(run[|txns|].docs, s, Issuing(s, s.first))
    requires HasWallet(run[|txns|].docs, s, s.first.xpubId, true, 1)
    ensures
      var t := Onboard(s.second.xpubId, s.owner, s.request.chain, s.extendedKey, Some(s.first.xpubId));
      IsRun(longer, InTurn(txns + [t]))
    ensures
      var docs := longer[|txns| + 1].docs;
      && Open(docs, s, Issuing(s, s.first) + {WalletKey(s.second.xpubId)})
      && HasWallet(docs, s, s.first.xpubId, false, 1) && HasWallet(docs, s, s.second.xpubId, true, 0)
  {
    var t := Onboard(s.second.xpubId, s.owner, s.request.chain, s.extendedKey, Some(s.first.xpubId));
    InTurnSnoc(txns, t);
    longer := Now(run, InTurn(txns), t);
  }

  lemma RefusedNow(s: Scene, docs: Docs)
    requires Fits(s) && Open(docs, s, Issuing(s, s.first) + {WalletKey(s.second.xpubId)})
    requires HasWallet(docs, s, s.first.xpubId, false, 1) && HasWallet(docs, s, s.second.xpubId, true, 0)
    ensures OtherwiseFine(docs, s.request, s.second) && Creation(docs, s.request, s.second) == Err(DuplicateKey)
  {
    assert NextAddress(docs[WalletKey(s.second.xpubId)].wallet) == DerivedKey(s.request.chain, s.extendedKey, 0);
    assert AddressKey(s.second.xpubId, 0) !in docs && PaymentKey(s.second.paymentId) !in docs;
  }

  /**
   A merchant pays once under a key, rotates its wallet to a new id with the same key, and
   its next payment, which nothing else stands in the way of, is refused.
   */
  lemma RotatedKeyIsRefused(s: Scene) returns (run: seq<State>, txns: seq<Txn>)
    requires Fits(s)
    ensures txns == Prelude(s) +
      [Onboard(s.first.xpubId, s.owner, s.request.chain, s.extendedKey, None), Create(s.request, s.first),
       Onboard(s.second.xpubId, s.owner, s.request.chain, s.extendedKey, Some(s.first.xpubId))]
    ensures IsRun(run, InTurn(txns)) && OtherwiseFine(run[|txns|].docs, s.request, s.second)
    ensures Creation(run[|txns|].docs, s.request, s.second) == Err(DuplicateKey)
  {
    run := Opening(s);
    txns := Prelude(s);
    run := Onboarding(s, run, txns, s.first.xpubId, Entities(s));
    txns := txns + [Onboard(s.first.xpubId, s.owner, s.request.chain, s.extendedKey, None)];
    run := Paying(s, run, txns);
    txns := txns + [Create(s.request, s.first)];
    run := Rotating(s, run, txns);
    txns := txns + [Onboard(s.second.xpubId, s.owner, s.request.chain, s.extendedKey, Some(s.first.xpubId))];
    RefusedNow(s, run[|txns|].docs);
  }
}
