/**
 Address allocation and idempotency over the same runs
 (src/application/payments/payment-service.ts).
 */
module Allocation {
  import opened Common
  import opened SnapshotStore
  import opened Registry
  import opened RegistryRuns

  // ----- allocation -----

  predicate KindOk(k: Key, d: Doc) {
    match k
    case ChainKey(_) => d.ChainDoc?
    case TokenKey(_) => d.TokenDoc?
    case PaymentKey(_) => d.PaymentDoc?
    case WalletKey(_) => d.WalletDoc?
    case AddressKey(_, _) => d.AddressDoc?
    case DerivedKey(_, _, _) => d.DerivedDoc?
    case RecordKey(_, _) => d.RecordDoc?
  }

  /** How many indexes a wallet has given out. */
  function Issued(docs: Docs, xpub: string): nat {
    var k := WalletKey(xpub);
    if k in docs && docs[k].WalletDoc? then docs[k].wallet.nextDerivationIndex else 0
  }

  ghost predicate AddressesOk(docs: Docs) {
    forall x, i: nat :: AddressKey(x, i) in docs <==> i < Issued(docs, x)
  }

  ghost predicate IndexesInRange(docs: Docs) {
    forall x :: Issued(docs, x) <= MAXIMUM_DERIVATION_INDEX + 1
  }

  predicate IsWallet(docs: Docs, x: string) {
    WalletKey(x) in docs && docs[WalletKey(x)].WalletDoc?
  }

  /** The address wallet `x` derives at an index, as its chain's unique index holds it. */
  function Derived(docs: Docs, x: string, i: nat): Key
    requires IsWallet(docs, x)
  {
    DerivedKey(docs[WalletKey(x)].wallet.network, docs[WalletKey(x)].wallet.extendedKey, i)
  }

  /** Every address a wallet issued stands in the index under that wallet. */
  ghost predicate DerivedOk(docs: Docs) {
    forall x, i: nat :: IsWallet(docs, x) && i < Issued(docs, x) ==>
      At(docs, Derived(docs, x, i)) == Some(DerivedDoc(x))
  }

  /** An entry of the index stands for an address its wallet issued. */
  predicate IssuedByWallet(docs: Docs, k: Key) {
    k.DerivedKey? && k in docs && docs[k].DerivedDoc? ==>
      var x := docs[k].xpubId;
      IsWallet(docs, x) && k == Derived(docs, x, k.position) && k.position < Issued(docs, x)
  }

  predicate HoldsAddress(docs: Docs, k: Key) {
    k.PaymentKey? && k in docs && docs[k].PaymentDoc? ==>
      At(docs, AddressKey(docs[k].payment.xpubId, docs[k].payment.derivationIndex)) == Some(AddressDoc(k.paymentId))
  }

  /** A payment's address is one of a wallet of its own chain. */
  predicate OnItsChain(docs: Docs, k: Key) {
    k.PaymentKey? && k in docs && docs[k].PaymentDoc? ==>
      && IsWallet(docs, docs[k].payment.xpubId)
      && docs[WalletKey(docs[k].payment.xpubId)].wallet.network == docs[k].payment.chain
  }

  ghost predicate Inv(docs: Docs) {
    && (forall k :: k in docs ==> KindOk(k, docs[k]))
    && AddressesOk(docs) && IndexesInRange(docs) && DerivedOk(docs)
    && (forall k :: k in docs ==> HoldsAddress(docs, k))
    && (forall k :: k in docs ==> OnItsChain(docs, k))
    && forall k :: k in docs ==> IssuedByWallet(docs, k)
  }

  lemma WritesKind(docs: Docs, t: Txn, k: Key)
    requires Execute(docs, t).Ok? && k in Execute(docs, t).value && Execute(docs, t).value[k].Some?
    ensures KindOk(k, Execute(docs, t).value[k].value)
  {
  }

  /** Every transaction but a creation leaves each wallet's counter and the address rows alone. */
  lemma OthersKeepAddresses(docs: Docs, t: Txn, x: string, i: nat)
    requires (forall k :: k in docs ==> KindOk(k, docs[k])) && Execute(docs, t).Ok? && !t.Create?
    ensures AddressKey(x, i) !in Execute(docs, t).value
    ensures WalletKey(x) in Execute(docs, t).value ==>
      var w := Execute(docs, t).value[WalletKey(x)];
      w.Some? && w.value.WalletDoc? && w.value.wallet.nextDerivationIndex == Issued(docs, x)
  {
  }

  lemma OthersKeepPayments(docs: Docs, t: Txn, id: string)
    requires Execute(docs, t).Ok? && !t.Create? && PaymentKey(id) in Execute(docs, t).value
    ensures PaymentKey(id) in docs && docs[PaymentKey(id)].PaymentDoc?
    ensures
      var w := Execute(docs, t).value[PaymentKey(id)];
      && w.Some? && w.value.PaymentDoc? && w.value.payment.xpubId == docs[PaymentKey(id)].payment.xpubId
      && w.value.payment.derivationIndex == docs[PaymentKey(id)].payment.derivationIndex
      && w.value.payment.chain == docs[PaymentKey(id)].payment.chain
  {
  }

  /** A creation's writes: the next index of one wallet, its address and its payment, and rows that are neither. */
  lemma CreationAllocates(docs: Docs, r: Request, d: Draw, k: Key)
    requires Creation(docs, r, d).Ok?
    ensures
      var w := Creation(docs, r, d).value;
      var n := Issued(docs, d.xpubId);
      && n <= MAXIMUM_DERIVATION_INDEX
      && (k.WalletKey? && k in w ==> k == WalletKey(d.xpubId))
      && (k.AddressKey? && k in w ==> k == AddressKey(d.xpubId, n))
      && (k.PaymentKey? && k in w ==> k == PaymentKey(d.paymentId))
      && WalletKey(d.xpubId) in w && w[WalletKey(d.xpubId)].Some? && w[WalletKey(d.xpubId)].value.WalletDoc?
      && w[WalletKey(d.xpubId)].value.wallet.nextDerivationIndex == n + 1
      && AddressKey(d.xpubId, n) in w && w[AddressKey(d.xpubId, n)] == Some(AddressDoc(d.paymentId))
      && PaymentKey(d.paymentId) in w && w[PaymentKey(d.paymentId)].Some?
        && w[PaymentKey(d.paymentId)].value.PaymentDoc?
      && w[PaymentKey(d.paymentId)].value.payment.xpubId == d.xpubId
      && w[PaymentKey(d.paymentId)].value.payment.derivationIndex == n
  {
  }

  lemma StepKinds(cur: State, snapshot: State, t: Txn)
    requires Sane(cur) && Later(snapshot, cur)
    requires forall k :: k in cur.docs ==> KindOk(k, cur.docs[k])
    ensures forall k :: k in Take(cur, snapshot, t).docs ==> KindOk(k, Take(cur, snapshot, t).docs[k])
  {
    var after := Take(cur, snapshot, t).docs;
    forall k | k in after ensures KindOk(k, after[k]) {
      StepAt(cur, snapshot, t, k);
      if Commits(cur, snapshot, t) && k in Execute(snapshot.docs, t).value {
        WritesKind(snapshot.docs, t, k);
      }
    }
  }

  /** Key material and chain of a wallet never change, and a wallet is never removed. */
  ghost predicate SameMaterial(a: Docs, b: Docs, x: string) {
    && IsWallet(a, x) && IsWallet(b, x)
    && a[WalletKey(x)].wallet.network == b[WalletKey(x)].wallet.network
    && a[WalletKey(x)].wallet.extendedKey == b[WalletKey(x)].wallet.extendedKey
  }

  lemma WritesKeepMaterial(docs: Docs, t: Txn, x: string)
    requires IsWallet(docs, x) && Execute(docs, t).Ok? && WalletKey(x) in Execute(docs, t).value
    ensures
      var w := Execute(docs, t).value[WalletKey(x)];
      && w.Some? && w.value.WalletDoc? && w.value.wallet.network == docs[WalletKey(x)].wallet.network
      && w.value.wallet.extendedKey == docs[WalletKey(x)].wallet.extendedKey
  {
  }

  lemma StepMaterial(cur: State, snapshot: State, t: Txn, x: string)
    requires Sane(cur) && Later(snapshot, cur) && IsWallet(cur.docs, x)
    ensures SameMaterial(cur.docs, Take(cur, snapshot, t).docs, x)
  {
    StepAt(cur, snapshot, t, WalletKey(x));
    if Commits(cur, snapshot, t) && WalletKey(x) in Execute(snapshot.docs, t).value {
      WritesKeepMaterial(snapshot.docs, t, x);
    }
  }

  lemma DerivedWrites(docs: Docs, t: Txn, k: Key)
    requires Execute(docs, t).Ok? && k.DerivedKey? && k in Execute(docs, t).value
    ensures t.Create? && IsWallet(docs, t.draw.xpubId) && k == Derived(docs, t.draw.xpubId, Issued(docs, t.draw.xpubId))
    ensures k !in docs && Execute(docs, t).value[k] == Some(DerivedDoc(t.draw.xpubId))
  {
  }

  lemma CreationDerives(docs: Docs, r: Request, d: Draw)
    requires Creation(docs, r, d).Ok?
    ensures IsWallet(docs, d.xpubId) && docs[WalletKey(d.xpubId)].wallet.network == r.chain
    ensures Derived(docs, d.xpubId, Issued(docs, d.xpubId)) in Creation(docs, r, d).value
    ensures Creation(docs, r, d).value[PaymentKey(d.paymentId)].value.payment.chain == r.chain
  {
  }

  /** An entry of the index is only ever added, and the entry a creation adds was free until it committed. */
  lemma StepDerived(cur: State, snapshot: State, t: Txn, k: Key)
    requires Sane(cur) && Later(snapshot, cur) && k.DerivedKey?
    ensures k in cur.docs ==> At(Take(cur, snapshot, t).docs, k) == At(cur.docs, k)
  {
    StepAt(cur, snapshot, t, k);
    if Commits(cur, snapshot, t) && k in Execute(snapshot.docs, t).value {
      DerivedWrites(snapshot.docs, t, k);
    }
  }

  /** A creation on wallet `x` commits only while the address it derives next is free on its chain. */
  lemma CreationDerivesNext(cur: State, snapshot: State, t: Txn, x: string)
    requires Sane(cur) && Later(snapshot, cur) && Creates(cur, snapshot, t, x)
    ensures IsWallet(cur.docs, x) && Derived(cur.docs, x, Issued(cur.docs, x)) !in cur.docs
    ensures
      At(Take(cur, snapshot, t).docs, Derived(cur.docs, x, Issued(cur.docs, x))) == Some(DerivedDoc(x))
  {
    CreationDerives(snapshot.docs, t.request, t.draw);
    StepAt(cur, snapshot, t, WalletKey(x));
    CreationAllocates(snapshot.docs, t.request, t.draw, WalletKey(x));
    var k := Derived(snapshot.docs, x, Issued(snapshot.docs, x));
    DerivedWrites(snapshot.docs, t, k);
    StepAt(cur, snapshot, t, k);
  }

  lemma StepDerivedOk(cur: State, snapshot: State, t: Txn, x: string, i: nat)
    requires Sane(cur) && Later(snapshot, cur) && Inv(cur.docs) && Inv(snapshot.docs)
    requires IsWallet(Take(cur, snapshot, t).docs, x) && i < Issued(Take(cur, snapshot, t).docs, x)
    ensures At(Take(cur, snapshot, t).docs, Derived(Take(cur, snapshot, t).docs, x, i)) == Some(DerivedDoc(x))
  {
    StepIssues(cur, snapshot, t, x);
    if Creates(cur, snapshot, t, x) {
      CreationDerivesNext(cur, snapshot, t, x);
    }
    assert IsWallet(cur.docs, x);
    StepMaterial(cur, snapshot, t, x);
    if i < Issued(cur.docs, x) {
      assert At(cur.docs, Derived(cur.docs, x, i)) == Some(DerivedDoc(x));
      StepDerived(cur, snapshot, t, Derived(cur.docs, x, i));
    }
  }

  lemma StepIssuedByWallet(cur: State, snapshot: State, t: Txn, k: Key)
    requires Sane(cur) && Later(snapshot, cur) && Inv(cur.docs) && Inv(snapshot.docs) && k.DerivedKey?
    ensures IssuedByWallet(Take(cur, snapshot, t).docs, k)
  {
    StepAt(cur, snapshot, t, k);
    if Commits(cur, snapshot, t) && k in Execute(snapshot.docs, t).value {
      DerivedWrites(snapshot.docs, t, k);
      StepAt(cur, snapshot, t, WalletKey(t.draw.xpubId));
      CreationAllocates(snapshot.docs, t.request, t.draw, WalletKey(t.draw.xpubId));
      StepMaterial(cur, snapshot, t, t.draw.xpubId);
      StepIssues(cur, snapshot, t, t.draw.xpubId);
    } else if k in cur.docs {
      assert KindOk(k, cur.docs[k]) && IssuedByWallet(cur.docs, k);
      StepMaterial(cur, snapshot, t, cur.docs[k].xpubId);
      StepIssues(cur, snapshot, t, cur.docs[k].xpubId);
    }
  }

  lemma StepOnItsChain(cur: State, snapshot: State, t: Txn, id: string)
    requires Sane(cur) && Later(snapshot, cur) && Inv(cur.docs) && Inv(snapshot.docs)
    ensures OnItsChain(Take(cur, snapshot, t).docs, PaymentKey(id))
  {
    var k := PaymentKey(id);
    StepAt(cur, snapshot, t, k);
    if Commits(cur, snapshot, t) && k in Execute(snapshot.docs, t).value {
      if t.Create? {
        CreationDerives(snapshot.docs, t.request, t.draw);
        CreationAllocates(snapshot.docs, t.request, t.draw, k);
        CreationAllocates(snapshot.docs, t.request, t.draw, WalletKey(t.draw.xpubId));
        StepAt(cur, snapshot, t, WalletKey(t.draw.xpubId));
        StepMaterial(cur, snapshot, t, t.draw.xpubId);
      } else {
        OthersKeepPayments(snapshot.docs, t, id);
        assert OnItsChain(cur.docs, k);
        StepMaterial(cur, snapshot, t, cur.docs[k].payment.xpubId);
      }
    } else if k in cur.docs && cur.docs[k].PaymentDoc? {
      assert OnItsChain(cur.docs, k);
      StepMaterial(cur, snapshot, t, cur.docs[k].payment.xpubId);
    }
  }

  /** The wallet a committed step creates an address on, if it does. */
  predicate Creates(cur: State, snapshot: State, t: Txn, x: string) {
    Commits(cur, snapshot, t) && t.Create? && t.draw.xpubId == x
  }

  /** A creation issues exactly the next index of its wallet; nothing else issues any. */
  lemma StepIssues(cur: State, snapshot: State, t: Txn, x: string)
    requires Sane(cur) && Later(snapshot, cur)
    requires forall k :: k in snapshot.docs ==> KindOk(k, snapshot.docs[k])
    ensures
      var after := Take(cur, snapshot, t).docs;
      if Creates(cur, snapshot, t, x) then
        && Issued(after, x) == Issued(cur.docs, x) + 1 <= MAXIMUM_DERIVATION_INDEX + 1
        && Issued(snapshot.docs, x) == Issued(cur.docs, x)
      else Issued(after, x) == Issued(cur.docs, x)
  {
    StepAt(cur, snapshot, t, WalletKey(x));
    if Commits(cur, snapshot, t) {
      if t.Create? {
        CreationAllocates(snapshot.docs, t.request, t.draw, WalletKey(x));
      } else {
        OthersKeepAddresses(snapshot.docs, t, x, 0);
      }
    }
  }

  lemma StepAddresses(cur: State, snapshot: State, t: Txn, x: string, i: nat)
    requires Sane(cur) && Later(snapshot, cur)
    requires forall k :: k in snapshot.docs ==> KindOk(k, snapshot.docs[k])
    ensures
      var after := Take(cur, snapshot, t).docs;
      if Creates(cur, snapshot, t, x) && i == Issued(cur.docs, x) then
        AddressKey(x, i) !in cur.docs && At(after, AddressKey(x, i)) == Some(AddressDoc(t.draw.paymentId))
      else At(after, AddressKey(x, i)) == At(cur.docs, AddressKey(x, i))
  {
    StepAt(cur, snapshot, t, AddressKey(x, i));
    StepIssues(cur, snapshot, t, x);
    if Commits(cur, snapshot, t) {
      if t.Create? {
        CreationAllocates(snapshot.docs, t.request, t.draw, AddressKey(x, i));
      } else {
        OthersKeepAddresses(snapshot.docs, t, x, i);
      }
    }
  }

  lemma StepPayments(cur: State, snapshot: State, t: Txn, id: string)
    requires Sane(cur) && Later(snapshot, cur) && Inv(cur.docs) && Inv(snapshot.docs)
    ensures HoldsAddress(Take(cur, snapshot, t).docs, PaymentKey(id))
  {
    var k := PaymentKey(id);
    StepAt(cur, snapshot, t, k);
    if Commits(cur, snapshot, t) && k in Execute(snapshot.docs, t).value {
      if t.Create? {
        CreationAllocates(snapshot.docs, t.request, t.draw, k);
        StepIssues(cur, snapshot, t, t.draw.xpubId);
        StepAddresses(cur, snapshot, t, t.draw.xpubId, Issued(snapshot.docs, t.draw.xpubId));
      } else {
        OthersKeepPayments(snapshot.docs, t, id);
        assert HoldsAddress(cur.docs, k);
        StepAddresses(cur, snapshot, t, cur.docs[k].payment.xpubId, cur.docs[k].payment.derivationIndex);
      }
    } else if k in cur.docs && cur.docs[k].PaymentDoc? {
      assert HoldsAddress(cur.docs, k);
      StepAddresses(cur, snapshot, t, cur.docs[k].payment.xpubId, cur.docs[k].payment.derivationIndex);
    }
  }

  lemma StepKeeps(cur: State, snapshot: State, t: Txn)
    requires Sane(cur) && Later(snapshot, cur) && Inv(cur.docs) && Inv(snapshot.docs)
    ensures Inv(Take(cur, snapshot, t).docs)
  {
    var after := Take(cur, snapshot, t).docs;
    StepKinds(cur, snapshot, t);
    forall x, i: nat ensures AddressKey(x, i) in after <==> i < Issued(after, x) {
      StepIssues(cur, snapshot, t, x);
      StepAddresses(cur, snapshot, t, x, i);
      assert AddressKey(x, i) in cur.docs <==> i < Issued(cur.docs, x);
    }
    forall x ensures Issued(after, x) <= MAXIMUM_DERIVATION_INDEX + 1 {
      StepIssues(cur, snapshot, t, x);
    }
    forall x, i: nat | IsWallet(after, x) && i < Issued(after, x)
      ensures At(after, Derived(after, x, i)) == Some(DerivedDoc(x))
    {
      StepDerivedOk(cur, snapshot, t, x, i);
    }
    forall k | k in after ensures HoldsAddress(after, k) && OnItsChain(after, k) && IssuedByWallet(after, k) {
      if k.PaymentKey? {
        StepPayments(cur, snapshot, t, k.paymentId);
        StepOnItsChain(cur, snapshot, t, k.paymentId);
      } else if k.DerivedKey? {
        StepIssuedByWallet(cur, snapshot, t, k);
      }
    }
  }

  lemma {:induction false} RunKeeps(run: seq<State>, steps: seq<Step>, j: nat)
    requires IsRun(run, steps) && j < |run|
    ensures Inv(run[j].docs)
  {
    if j == 0 {
      assert run[0].docs == map[];
    } else {
      var s := steps[j - 1].startedAt;
      RunKeeps(run, steps, j - 1);
      RunKeeps(run, steps, s);
      RunLater(run, steps, s, j - 1);
      assert run[j] == Take(run[j - 1], run[s], steps[j - 1].txn);
      StepKeeps(run[j - 1], run[s], steps[j - 1].txn);
    }
  }

  /**
   In every run the indexes issued under one wallet key are exactly 0 to n - 1, each to one
   payment, and all within the non-hardened range, whatever creations abort or conflict.
   */
  lemma IndexesAreContiguous(run: seq<State>, steps: seq<Step>, j: nat, x: string, i: nat)
    requires IsRun(run, steps) && j < |run|
    ensures AddressKey(x, i) in run[j].docs <==> i < Issued(run[j].docs, x)
    ensures AddressKey(x, i) in run[j].docs ==> i <= MAXIMUM_DERIVATION_INDEX
  {
    RunKeeps(run, steps, j);
    assert Issued(run[j].docs, x) <= MAXIMUM_DERIVATION_INDEX + 1;
  }

  /** A wallet of another id with the same extended key on the same chain. */
  ghost predicate SameKey(docs: Docs, x: string, y: string) {
    x != y && IsWallet(docs, x) && IsWallet(docs, y)
    && docs[WalletKey(x)].wallet.network == docs[WalletKey(y)].wallet.network
    && docs[WalletKey(x)].wallet.extendedKey == docs[WalletKey(y)].wallet.extendedKey
  }

  lemma FirstIsHeld(docs: Docs, x: string)
    requires Inv(docs) && IsWallet(docs, x) && Issued(docs, x) > 0
    ensures At(docs, Derived(docs, x, 0)) == Some(DerivedDoc(x))
  {
  }

  /**
   One extended key registered twice on a chain serves only one of its wallet ids: whichever
   issued first, the other never issues anything.
   */
  lemma OneWalletPerKey(run: seq<State>, steps: seq<Step>, j: nat, x: string, y: string)
    requires IsRun(run, steps) && j < |run| && SameKey(run[j].docs, x, y)
    ensures Issued(run[j].docs, x) == 0 || Issued(run[j].docs, y) == 0
  {
    RunKeeps(run, steps, j);
    var docs := run[j].docs;
    if Issued(docs, x) > 0 && Issued(docs, y) > 0 {
      FirstIsHeld(docs, x);
      FirstIsHeld(docs, y);
    }
  }

  /**
   The address a wallet would derive next is taken exactly if another wallet id with its
   extended key on its chain has issued one.
   */
  lemma NextAddressTakenIff(run: seq<State>, steps: seq<Step>, j: nat, y: string)
    requires IsRun(run, steps) && j < |run| && IsWallet(run[j].docs, y)
    ensures NextAddress(run[j].docs[WalletKey(y)].wallet) in run[j].docs <==>
      exists x :: SameKey(run[j].docs, x, y) && Issued(run[j].docs, x) > 0
  {
    RunKeeps(run, steps, j);
    var docs := run[j].docs;
    var k := NextAddress(docs[WalletKey(y)].wallet);
    if k in docs {
      assert KindOk(k, docs[k]) && IssuedByWallet(docs, k);
      assert SameKey(docs, docs[k].xpubId, y);
    }
    if x :| SameKey(docs, x, y) && Issued(docs, x) > 0 {
      OneWalletPerKey(run, steps, j, x, y);
      FirstIsHeld(docs, x);
    }
  }

  /** Nothing but the address index stands in the way of this creation. */
  predicate OtherwiseFine(docs: Docs, r: Request, d: Draw) {
    IsWallet(docs, d.xpubId) && Refusal(docs - {NextAddress(docs[WalletKey(d.xpubId)].wallet)}, r, d).None?
  }

  /**
   So a creation nothing else stands in the way of is refused, as a duplicate, exactly if the
   extended key of its wallet has already been used under another id on that chain.
   */
  lemma RefusedForAddressIff(run: seq<State>, steps: seq<Step>, j: nat, r: Request, d: Draw)
    requires IsRun(run, steps) && j < |run| && OtherwiseFine(run[j].docs, r, d)
    ensures Creation(run[j].docs, r, d) == Err(DuplicateKey) <==>
      exists x :: SameKey(run[j].docs, x, d.xpubId) && Issued(run[j].docs, x) > 0
    ensures Creation(run[j].docs, r, d).Err? ==> Creation(run[j].docs, r, d).error == DuplicateKey
  {
    NextAddressTakenIff(run, steps, j, d.xpubId);
    OnlyTheAddress(run[j].docs, r, d);
  }

  lemma OnlyTheAddress(docs: Docs, r: Request, d: Draw)
    requires OtherwiseFine(docs, r, d)
    ensures Refusal(docs, r, d) ==
      if NextAddress(docs[WalletKey(d.xpubId)].wallet) in docs then Some(DuplicateKey) else None
  {
  }

  /** While another wallet id holds the first address of its key, every creation on this one fails. */
  lemma CreationsOnSecondFail(run: seq<State>, steps: seq<Step>, j: nat, x: string, y: string)
    requires IsRun(run, steps) && j < |steps| && SameKey(run[j].docs, x, y) && Issued(run[j].docs, x) > 0
    ensures !Creates(run[j], run[steps[j].startedAt], steps[j].txn, y)
  {
    RunKeeps(run, steps, j);
    RunLater(run, steps, steps[j].startedAt, j);
    OneWalletPerKey(run, steps, j, x, y);
    FirstIsHeld(run[j].docs, x);
    if Creates(run[j], run[steps[j].startedAt], steps[j].txn, y) {
      CreationDerivesNext(run[j], run[steps[j].startedAt], steps[j].txn, y);
    }
  }

  /** And so it stays at index 0 for good. */
  lemma {:induction false} SecondWalletStuck(run: seq<State>, steps: seq<Step>, i: nat, j: nat, x: string, y: string)
    requires IsRun(run, steps) && i <= j < |run| && SameKey(run[i].docs, x, y) && Issued(run[i].docs, x) > 0
    ensures SameKey(run[j].docs, x, y) && Issued(run[j].docs, x) > 0 && Issued(run[j].docs, y) == 0
    decreases j - i
  {
    if i < j {
      SecondWalletStuck(run, steps, i, j - 1, x, y);
      CreationsOnSecondFail(run, steps, j - 1, x, y);
      var s := steps[j - 1].startedAt;
      RunKeeps(run, steps, s);
      RunLater(run, steps, s, j - 1);
      assert run[j] == Take(run[j - 1], run[s], steps[j - 1].txn);
      StepIssues(run[j - 1], run[s], steps[j - 1].txn, x);
      StepIssues(run[j - 1], run[s], steps[j - 1].txn, y);
      StepMaterial(run[j - 1], run[s], steps[j - 1].txn, x);
      StepMaterial(run[j - 1], run[s], steps[j - 1].txn, y);
    } else {
      OneWalletPerKey(run, steps, j, x, y);
    }
  }

  /** No two payments of a chain share a receiving address, whichever wallet ids they were created under. */
  lemma AddressesAreExclusive(run: seq<State>, steps: seq<Step>, j: nat, p: string, q: string)
    requires IsRun(run, steps) && j < |run|
    requires PaymentKey(p) in run[j].docs && PaymentKey(q) in run[j].docs
    ensures run[j].docs[PaymentKey(p)].PaymentDoc? && run[j].docs[PaymentKey(q)].PaymentDoc?
    ensures
      var a, b := run[j].docs[PaymentKey(p)].payment, run[j].docs[PaymentKey(q)].payment;
      && IsWallet(run[j].docs, a.xpubId) && IsWallet(run[j].docs, b.xpubId)
      && var u, v := run[j].docs[WalletKey(a.xpubId)].wallet, run[j].docs[WalletKey(b.xpubId)].wallet;
         a.chain == b.chain && u.extendedKey == v.extendedKey && a.derivationIndex == b.derivationIndex ==> p == q
  {
    RunKeeps(run, steps, j);
    var docs := run[j].docs;
    assert KindOk(PaymentKey(p), docs[PaymentKey(p)]) && KindOk(PaymentKey(q), docs[PaymentKey(q)]);
    assert HoldsAddress(docs, PaymentKey(p)) && HoldsAddress(docs, PaymentKey(q));
    assert OnItsChain(docs, PaymentKey(p)) && OnItsChain(docs, PaymentKey(q));
    var a, b := docs[PaymentKey(p)].payment, docs[PaymentKey(q)].payment;
    assert a.derivationIndex < Issued(docs, a.xpubId) && b.derivationIndex < Issued(docs, b.xpubId);
    if a.xpubId != b.xpubId && SameKey(docs, a.xpubId, b.xpubId) {
      OneWalletPerKey(run, steps, j, a.xpubId, b.xpubId);
    }
  }

  // ----- idempotency -----

  /** The record is deleted by no committed step i..j-1. */
  predicate RecordLives(run: seq<State>, steps: seq<Step>, merchant: string, key: string, i: nat, j: nat)
    requires IsRun(run, steps) && i <= j < |run|
  {
    forall m :: i <= m < j && steps[m].txn == Forget(merchant, key) ==> !CommittedAt(run, steps, m)
  }

  lemma RecordWrites(docs: Docs, t: Txn, merchant: string, key: string)
    requires RecordKey(merchant, key) in docs && Execute(docs, t).Ok? && t != Forget(merchant, key)
    ensures RecordKey(merchant, key) !in Execute(docs, t).value
  {
  }

  lemma {:induction false} RecordKept(run: seq<State>, steps: seq<Step>, merchant: string, key: string, i: nat, j: nat)
    requires IsRun(run, steps) && i <= j < |run|
    requires RecordKey(merchant, key) in run[i].docs && RecordLives(run, steps, merchant, key, i, j)
    ensures At(run[j].docs, RecordKey(merchant, key)) == At(run[i].docs, RecordKey(merchant, key))
    decreases j - i
  {
    if i < j {
      RecordKept(run, steps, merchant, key, i, j - 1);
      var s, t := steps[j - 1].startedAt, steps[j - 1].txn;
      assert run[j] == Take(run[j - 1], run[s], t);
      RunLater(run, steps, s, j - 1);
      StepAt(run[j - 1], run[s], t, RecordKey(merchant, key));
      if Commits(run[j - 1], run[s], t) && RecordKey(merchant, key) in Execute(run[s].docs, t).value {
        assert CommittedAt(run, steps, j - 1);
        assert t != Forget(merchant, key) ==> RecordKey(merchant, key) in run[s].docs;
        RecordWrites(run[s].docs, t, merchant, key);
      }
    }
  }

  // ----- answering a request -----

  datatype Reply = Created(response: string) | Replayed(response: string) | IdempotencyConflict | ConcurrentConflict
    | Refused(error: Error)

  function FromRecord(record: Doc, fingerprint: string): Reply
    requires record.RecordDoc?
  {
    if record.requestFingerprint != fingerprint then IdempotencyConflict else Replayed(record.response)
  }

  /** When one call looked, ran its last transaction attempt, and looked again. */
  datatype Call = Call(request: Request, lookedAt: nat, attemptAt: nat, lookedAgainAt: nat)

  function KeyOf(r: Request): Key
    requires r.idempotencyKey.Some?
  {
    RecordKey(r.merchantId, r.idempotencyKey.value)
  }

  /** `createPayment` for a request that carries an idempotency key. */
  predicate Answers(run: seq<State>, steps: seq<Step>, c: Call, reply: Reply)
    requires IsRun(run, steps) && c.request.idempotencyKey.Some?
  {
    && c.lookedAt < |run|
    && var first := At(run[c.lookedAt].docs, KeyOf(c.request));
       if first.Some? then first.value.RecordDoc? && reply == FromRecord(first.value, c.request.fingerprint)
       else
         && c.attemptAt < |steps| && c.lookedAt <= steps[c.attemptAt].startedAt
         && steps[c.attemptAt].txn.Create? && steps[c.attemptAt].txn.request == c.request
         && var attempted := Execute(run[steps[c.attemptAt].startedAt].docs, steps[c.attemptAt].txn);
            if CommittedAt(run, steps, c.attemptAt) then reply == Created(steps[c.attemptAt].txn.draw.response)
            else if attempted == Err(DuplicateKey) then
              && c.attemptAt < c.lookedAgainAt < |run|
              && var second := At(run[c.lookedAgainAt].docs, KeyOf(c.request));
                 if second.None? then reply == ConcurrentConflict
                 else second.value.RecordDoc? && reply == FromRecord(second.value, c.request.fingerprint)
            else attempted.Err? && reply == Refused(attempted.error)
  }

  predicate Succeeded(reply: Reply) {
    reply.Created? || reply.Replayed?
  }

  /** The state in which a successful call saw the record it answered from. */
  function ShownAt(run: seq<State>, steps: seq<Step>, c: Call): nat
    requires IsRun(run, steps) && c.request.idempotencyKey.Some? && c.lookedAt < |run|
    requires KeyOf(c.request) !in run[c.lookedAt].docs ==>
      c.attemptAt < |steps| && steps[c.attemptAt].startedAt <= c.attemptAt
  {
    if KeyOf(c.request) in run[c.lookedAt].docs then c.lookedAt
    else if CommittedAt(run, steps, c.attemptAt) then c.attemptAt + 1
    else c.lookedAgainAt
  }

  /** Every success shows a record, of this very request, that holds the response given. */
  lemma SuccessShowsRecord(run: seq<State>, steps: seq<Step>, c: Call, reply: Reply)
    requires IsRun(run, steps) && c.request.idempotencyKey.Some? && Answers(run, steps, c, reply) && Succeeded(reply)
    ensures ShownAt(run, steps, c) < |run|
    ensures At(run[ShownAt(run, steps, c)].docs, KeyOf(c.request)) ==
      Some(RecordDoc(c.request.fingerprint, reply.response))
  {
    if KeyOf(c.request) !in run[c.lookedAt].docs && CommittedAt(run, steps, c.attemptAt) {
      var s, t := steps[c.attemptAt].startedAt, steps[c.attemptAt].txn;
      assert run[c.attemptAt + 1] == Take(run[c.attemptAt], run[s], t);
      RunLater(run, steps, s, c.attemptAt);
      StepAt(run[c.attemptAt], run[s], t, KeyOf(c.request));
    }
  }

  /**
   While an idempotency record lives, all calls that succeed for its merchant and key made
   the same request and get the same response, however they raced.
   */
  lemma OneResponsePerKey(run: seq<State>, steps: seq<Step>, a: Call, ra: Reply, b: Call, rb: Reply)
    requires IsRun(run, steps) && a.request.idempotencyKey.Some? && b.request.idempotencyKey.Some?
    requires KeyOf(a.request) == KeyOf(b.request)
    requires Answers(run, steps, a, ra) && Succeeded(ra) && Answers(run, steps, b, rb) && Succeeded(rb)
    requires ShownAt(run, steps, a) <= ShownAt(run, steps, b) < |run|
    requires RecordLives(run, steps, a.request.merchantId, a.request.idempotencyKey.value,
                         ShownAt(run, steps, a), ShownAt(run, steps, b))
    ensures ra.response == rb.response && a.request.fingerprint == b.request.fingerprint
  {
    SuccessShowsRecord(run, steps, a, ra);
    SuccessShowsRecord(run, steps, b, rb);
    RecordKept(run, steps, a.request.merchantId, a.request.idempotencyKey.value,
               ShownAt(run, steps, a), ShownAt(run, steps, b));
  }

  /** Only one creation under a key commits for as long as its record lives. */
  lemma OneCreationPerKey(run: seq<State>, steps: seq<Step>, k: nat, l: nat)
    requires IsRun(run, steps) && k < l < |steps| && CommittedAt(run, steps, k) && CommittedAt(run, steps, l)
    requires steps[k].txn.Create? && steps[l].txn.Create? && steps[k].txn.request.idempotencyKey.Some?
    requires steps[l].txn.request.idempotencyKey.Some? && KeyOf(steps[k].txn.request) == KeyOf(steps[l].txn.request)
    ensures
      var r := steps[k].txn.request;
      !RecordLives(run, steps, r.merchantId, r.idempotencyKey.value, k + 1, l)
  {
    var r := steps[k].txn.request;
    assert run[k + 1] == Take(run[k], run[steps[k].startedAt], steps[k].txn);
    RunLater(run, steps, steps[k].startedAt, k);
    StepAt(run[k], run[steps[k].startedAt], steps[k].txn, KeyOf(r));
    RunLater(run, steps, steps[l].startedAt, l);
    StepAt(run[l], run[steps[l].startedAt], steps[l].txn, KeyOf(r));
    if RecordLives(run, steps, r.merchantId, r.idempotencyKey.value, k + 1, l) {
      RecordKept(run, steps, r.merchantId, r.idempotencyKey.value, k + 1, l);
    }
  }
}
