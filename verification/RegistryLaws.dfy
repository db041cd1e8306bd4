/**
 What each committed creation and switch of a run found and left, told by the documents
 before and after it.
 */
module RegistryLaws {
  import opened Common
  import opened StateMachine
  import opened SnapshotStore
  import opened Registry
  import opened RegistryRuns

  // ----- payment creation -----

  /** The registration admits payments. */
  predicate Admits(r: Registration) {
    r.enabled && r.verified
  }

  predicate ChainAdmits(docs: Docs, r: Request) {
    ChainKey(r.chain) in docs && docs[ChainKey(r.chain)].ChainDoc? && Admits(docs[ChainKey(r.chain)].chain.registration)
  }

  predicate TokenAdmits(docs: Docs, r: Request) {
    && TokenKey(r.token) in docs && docs[TokenKey(r.token)].TokenDoc?
    && Admits(docs[TokenKey(r.token)].token.registration) && docs[TokenKey(r.token)].token.home == r.chain
  }

  predicate AmountAdmitted(docs: Docs, r: Request) {
    TokenAdmits(docs, r) ==>
      var token := docs[TokenKey(r.token)].token;
      token.minAmount <= r.amount <= token.maxAmount
  }

  /** The wallet drawn is active and the merchant's own on this chain. */
  predicate WalletServes(docs: Docs, r: Request, d: Draw) {
    && WalletKey(d.xpubId) in docs && docs[WalletKey(d.xpubId)].WalletDoc?
    && var w := docs[WalletKey(d.xpubId)].wallet;
       w.active && w.owner == r.merchantId && w.network == r.chain
  }

  predicate IndexLeft(docs: Docs, r: Request, d: Draw) {
    WalletServes(docs, r, d) ==> docs[WalletKey(d.xpubId)].wallet.nextDerivationIndex < 0x8000_0000
  }

  /** The documents a creation adds, none of which may exist. */
  function AddedKeys(w: Wallet, r: Request, d: Draw): set<Key> {
    { AddressKey(d.xpubId, w.nextDerivationIndex), DerivedKey(w.network, w.extendedKey, w.nextDerivationIndex),
      PaymentKey(d.paymentId) }
    + if r.idempotencyKey.Some? then {RecordKey(r.merchantId, r.idempotencyKey.value)} else {}
  }

  predicate AllFresh(docs: Docs, r: Request, d: Draw) {
    WalletServes(docs, r, d) ==> AddedKeys(docs[WalletKey(d.xpubId)].wallet, r, d) !! docs.Keys
  }

  /** The checks a creation passes, in the order it makes them, each with the error it ends in. */
  function Checks(docs: Docs, r: Request, d: Draw): (checks: seq<(bool, Error)>)
    ensures |checks| == 9
  {
    [(ChainAdmits(docs, r), ChainNotEnabled), (TokenAdmits(docs, r), TokenNotEnabled),
     (AmountAdmitted(docs, r), AmountOutOfBounds), (d.merchantActive, MerchantNotActive),
     (WalletServes(docs, r, d), NoActiveWallet), (IndexLeft(docs, r, d), AllocationExhausted),
     (d.networkAllowed, NetworkNotAllowed), (d.screened, ScreeningUnavailable), (AllFresh(docs, r, d), DuplicateKey)]
  }

  predicate AllPass(docs: Docs, r: Request, d: Draw) {
    forall i :: 0 <= i < 9 ==> Checks(docs, r, d)[i].0
  }

  predicate FirstToFail(docs: Docs, r: Request, d: Draw, i: nat) {
    i < 9 && !Checks(docs, r, d)[i].0 && forall j :: 0 <= j < i ==> Checks(docs, r, d)[j].0
  }

  /** A creation is refused by the first check that fails, and by nothing else. */
  lemma RefusedByFirst(docs: Docs, r: Request, d: Draw)
    ensures Creation(docs, r, d).Ok? <==> AllPass(docs, r, d)
    ensures forall i: nat :: FirstToFail(docs, r, d, i) ==> Creation(docs, r, d) == Err(Checks(docs, r, d)[i].1)
  {
    RefusalIsFirst(docs, r, d);
  }

  lemma RefusalIsFirst(docs: Docs, r: Request, d: Draw)
    ensures
      var c := Checks(docs, r, d);
      Refusal(docs, r, d) ==
        if !c[0].0 then Some(c[0].1) else if !c[1].0 then Some(c[1].1) else if !c[2].0 then Some(c[2].1)
        else if !c[3].0 then Some(c[3].1) else if !c[4].0 then Some(c[4].1) else if !c[5].0 then Some(c[5].1)
        else if !c[6].0 then Some(c[6].1) else if !c[7].0 then Some(c[7].1) else if !c[8].0 then Some(c[8].1)
        else None
  {
  }

  /** One more payment was allocated under this registration; nothing else about it changed. */
  function Counted(r: Registration): Registration {
    r.(allocationSequence := r.allocationSequence + 1)
  }

  /**
   The store after a creation: one pending payment of the request at the wallet's next index,
   its address taken under wallet and index, wallet and counters one on, the record of the
   reply if there is a key, and every other document as it was.
   */
  ghost predicate Created(before: Docs, after: Docs, r: Request, d: Draw)
    requires ChainAdmits(before, r) && TokenAdmits(before, r) && WalletServes(before, r, d)
  {
    var chain, token, w := before[ChainKey(r.chain)].chain, before[TokenKey(r.token)].token,
        before[WalletKey(d.xpubId)].wallet;
    var i := w.nextDerivationIndex;
    && At(after, ChainKey(r.chain)) == Some(ChainDoc(chain.(registration := Counted(chain.registration))))
    && At(after, TokenKey(r.token)) == Some(TokenDoc(token.(registration := Counted(token.registration))))
    && At(after, WalletKey(d.xpubId)) == Some(WalletDoc(w.(nextDerivationIndex := i + 1)))
    && At(after, AddressKey(d.xpubId, i)) == Some(AddressDoc(d.paymentId))
    && At(after, DerivedKey(r.chain, w.extendedKey, i)) == Some(DerivedDoc(d.xpubId))
    && At(after, PaymentKey(d.paymentId)) ==
         Some(PaymentDoc(Payment(r.merchantId, r.chain, r.token, Pending, d.xpubId, i)))
    && (r.idempotencyKey.Some? ==>
          At(after, RecordKey(r.merchantId, r.idempotencyKey.value)) == Some(RecordDoc(r.fingerprint, d.response)))
    && forall k :: k !in AddedKeys(w, r, d) + {ChainKey(r.chain), TokenKey(r.token), WalletKey(d.xpubId)} ==>
         At(after, k) == At(before, k)
  }

  /** Everything a creation reads it also writes. */
  function Touched(docs: Docs, r: Request, d: Draw): set<Key>
    requires WalletServes(docs, r, d)
  {
    AddedKeys(docs[WalletKey(d.xpubId)].wallet, r, d) + {ChainKey(r.chain), TokenKey(r.token), WalletKey(d.xpubId)}
  }

  lemma TouchesAll(docs: Docs, r: Request, d: Draw)
    requires AllPass(docs, r, d)
    ensures WalletServes(docs, r, d) && Creation(docs, r, d).Ok?
    ensures Creation(docs, r, d).value.Keys == Touched(docs, r, d)
  {
    RefusedByFirst(docs, r, d);
    assert Checks(docs, r, d)[4].0;
  }

  /** A creation whose documents all stand as it read them writes what a creation on the current store would. */
  lemma SameOnCurrent(snapshot: Docs, cur: Docs, r: Request, d: Draw)
    requires AllPass(snapshot, r, d) && WalletServes(snapshot, r, d)
    requires forall k :: k in Touched(snapshot, r, d) ==> At(snapshot, k) == At(cur, k)
    ensures AllPass(cur, r, d) && Creation(cur, r, d) == Creation(snapshot, r, d)
  {
    var c := Checks(snapshot, r, d);
    assert c[0].0 && c[1].0 && c[2].0 && c[4].0 && c[5].0 && c[8].0;
    assert At(snapshot, ChainKey(r.chain)) == At(cur, ChainKey(r.chain));
    assert At(snapshot, TokenKey(r.token)) == At(cur, TokenKey(r.token));
    assert At(snapshot, WalletKey(d.xpubId)) == At(cur, WalletKey(d.xpubId));
    forall k | k in AddedKeys(snapshot[WalletKey(d.xpubId)].wallet, r, d) ensures k !in cur {
      assert At(snapshot, k) == At(cur, k);
    }
    RefusedByFirst(snapshot, r, d);
    RefusedByFirst(cur, r, d);
  }

  lemma InstallCreates(docs: Docs, r: Request, d: Draw)
    requires AllPass(docs, r, d)
    ensures ChainAdmits(docs, r) && TokenAdmits(docs, r) && WalletServes(docs, r, d) && Creation(docs, r, d).Ok?
    ensures Created(docs, Install(docs, Creation(docs, r, d).value), r, d)
  {
    RefusedByFirst(docs, r, d);
    var c := Checks(docs, r, d);
    assert c[0].0 && c[1].0 && c[4].0;
  }

  /**
   Creations are serializable: in every run one commits exactly if it passes every check on the
   snapshot it began on and nothing it touches was written since; it then passes every check on
   the state it commits on, too, and leaves exactly one more payment there.
   */
  lemma CreationStep(run: seq<State>, steps: seq<Step>, n: nat)
    requires IsRun(run, steps) && n < |steps| && steps[n].txn.Create?
    ensures
      var r, d, s := steps[n].txn.request, steps[n].txn.draw, steps[n].startedAt;
      && s <= n
      && (CommittedAt(run, steps, n) <==>
            && AllPass(run[s].docs, r, d) && WalletServes(run[s].docs, r, d)
            && forall k :: k in Touched(run[s].docs, r, d) ==> Unwritten(run[s], run[n], k))
      && if CommittedAt(run, steps, n) then
           && AllPass(run[n].docs, r, d)
           && ChainAdmits(run[n].docs, r) && TokenAdmits(run[n].docs, r) && WalletServes(run[n].docs, r, d)
           && Created(run[n].docs, run[n + 1].docs, r, d)
         else run[n + 1] == run[n]
  {
    var r, d, s := steps[n].txn.request, steps[n].txn.draw, steps[n].startedAt;
    assert run[n + 1] == Take(run[n], run[s], steps[n].txn);
    RunLater(run, steps, s, n);
    RefusedByFirst(run[s].docs, r, d);
    if AllPass(run[s].docs, r, d) {
      TouchesAll(run[s].docs, r, d);
      if CommittedAt(run, steps, n) {
        assert forall k :: Unwritten(run[s], run[n], k) ==> At(run[s].docs, k) == At(run[n].docs, k);
        SameOnCurrent(run[s].docs, run[n].docs, r, d);
        InstallCreates(run[n].docs, r, d);
      }
    }
  }

  // ----- switching chains and tokens off and on -----

  predicate EnabledIn(docs: Docs, entity: Key) {
    && entity in docs
    && match docs[entity]
       case ChainDoc(c) => entity.ChainKey? && c.registration.enabled
       case TokenDoc(t) => entity.TokenKey? && t.registration.enabled
       case _ => false
  }

  /** In every run nothing but a committed activation enables a chain or token: a new one starts disabled. */
  lemma OnlyActivationEnables(run: seq<State>, steps: seq<Step>, n: nat, entity: Key)
    requires IsRun(run, steps) && n < |steps| && !EnabledIn(run[n].docs, entity) && EnabledIn(run[n + 1].docs, entity)
    ensures steps[n].txn.Activate? && steps[n].txn.entity == entity && steps[n].startedAt <= n
    ensures CommittedAt(run, steps, n)
  {
    var t, s := steps[n].txn, steps[n].startedAt;
    assert run[n + 1] == Take(run[n], run[s], t);
    RunLater(run, steps, s, n);
    StepAt(run[n], run[s], t, entity);
    EnablingWrites(run[s].docs, t, entity);
  }

  lemma EnablingWrites(docs: Docs, t: Txn, entity: Key)
    ensures
      var w := Execute(docs, t);
      w.Ok? && entity in w.value && w.value[entity].Some? && EnabledIn(map[entity := w.value[entity].value], entity) ==>
        EnabledIn(docs, entity) || (t.Activate? && t.entity == entity)
  {
  }

  /** The registration once it was switched: enabled or not, verified for good once on, and one version on. */
  function Switched(r: Registration, on: bool): Registration {
    Registration(on, r.verified || on, r.version + 1, r.allocationSequence)
  }

  /** That document changed, and no other. */
  predicate SwitchedTo(before: Docs, after: Docs, entity: Key, on: bool) {
    && entity in before
    && match before[entity]
       case ChainDoc(c) => after == before[entity := ChainDoc(c.(registration := Switched(c.registration, on)))]
       case TokenDoc(t) => after == before[entity := TokenDoc(t.(registration := Switched(t.registration, on)))]
       case _ => false
  }

  /** The entity is a chain or token on record, in this position at this version. */
  predicate Stands(docs: Docs, entity: Key, on: bool, version: nat) {
    && entity in docs
    && match docs[entity]
       case ChainDoc(c) => entity.ChainKey? && c.registration.enabled == on && c.registration.version == version
       case TokenDoc(t) => entity.TokenKey? && t.registration.enabled == on && t.registration.version == version
       case _ => false
  }

  predicate IsOpenPayment(entity: Key, d: Doc) {
    && d.PaymentDoc? && !IsTerminal(d.payment.status)
    && (entity == ChainKey(d.payment.chain) || entity == TokenKey(d.payment.token))
  }

  lemma DeactivationIff(docs: Docs, entity: Key, version: nat, forced: bool)
    ensures
      var counted := exists k :: k in docs && IsOpenPayment(entity, docs[k]);
      var w := Deactivation(docs, entity, version, forced);
      && (w.Ok? <==> Stands(docs, entity, true, version) && (forced || !counted))
      && (w == Err(Conflict) <==> counted && !forced)
      && (w.Ok? || w == Err(Conflict) || w == Err(NotFound))
  {
    assert forall k :: k in docs ==> (OpenOn(docs, entity, k) <==> IsOpenPayment(entity, docs[k]));
  }

  lemma SwitchLands(cur: State, snapshot: State, t: Txn)
    requires Sane(cur) && Later(snapshot, cur) && (t.Deactivate? || t.Activate?) && Commits(cur, snapshot, t)
    ensures Stands(cur.docs, t.entity, t.Deactivate?, t.expectedVersion)
    ensures SwitchedTo(cur.docs, Take(cur, snapshot, t).docs, t.entity, t.Activate?)
  {
    StepAt(cur, snapshot, t, t.entity);
    if t.Deactivate? {
      DeactivationIff(snapshot.docs, t.entity, t.expectedVersion, t.forced);
    }
  }

  /**
   In every run a switch commits exactly if the entity stood in the other position at the
   expected version when it began and was not written since (for a deactivation also: no open
   payment was counted, or it was forced); it then switches that document and no other.
   */
  lemma SwitchStep(run: seq<State>, steps: seq<Step>, n: nat)
    requires IsRun(run, steps) && n < |steps| && (steps[n].txn.Deactivate? || steps[n].txn.Activate?)
    ensures
      var t, s := steps[n].txn, steps[n].startedAt;
      && s <= n
      && (CommittedAt(run, steps, n) <==>
            && Stands(run[s].docs, t.entity, t.Deactivate?, t.expectedVersion)
            && Unwritten(run[s], run[n], t.entity)
            && (t.Activate? || t.forced ||
                forall k :: k in run[s].docs ==> !IsOpenPayment(t.entity, run[s].docs[k])))
      && if CommittedAt(run, steps, n) then SwitchedTo(run[n].docs, run[n + 1].docs, t.entity, t.Activate?)
         else run[n + 1] == run[n]
  {
    var t, s := steps[n].txn, steps[n].startedAt;
    assert run[n + 1] == Take(run[n], run[s], t);
    RunLater(run, steps, s, n);
    if t.Deactivate? {
      DeactivationIff(run[s].docs, t.entity, t.expectedVersion, t.forced);
    }
    if CommittedAt(run, steps, n) {
      SwitchLands(run[n], run[s], t);
    }
  }
}
