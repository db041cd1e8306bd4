/**
 The registry's transactions and payment creation (src/application/registry/registry-service.ts,
 src/application/payments/payment-service.ts): what each writes, as a function of the
 snapshot it runs on.
 */
module Registry {
  import opened Common
  import opened StateMachine
  import opened SnapshotStore

  /**
   `DerivedKey` is the unique index on a chain's normalized addresses; an address stands
   for the extended key and index it is derived from, which derivation keeps apart.
   */
  datatype Key =
    | ChainKey(chainId: string)
    | TokenKey(tokenId: string)
    | PaymentKey(paymentId: string)
    | WalletKey(xpubId: string)
    | AddressKey(xpub: string, index: nat)
    | DerivedKey(network: string, extendedKey: string, position: nat)
    | RecordKey(merchantId: string, idempotencyKey: string)

  datatype Registration = Registration(enabled: bool, verified: bool, version: nat, allocationSequence: nat)

  datatype Chain = Chain(registration: Registration, requiredConfirmations: nat)

  datatype Token = Token(registration: Registration, home: string, minAmount: nat, maxAmount: nat)

  datatype Payment = Payment(merchant: string, chain: string, token: string, status: Status, xpubId: string,
      derivationIndex: nat)

  datatype Wallet = Wallet(owner: string, network: string, extendedKey: string, active: bool, nextDerivationIndex: nat)

  datatype Doc =
    | ChainDoc(chain: Chain)
    | TokenDoc(token: Token)
    | PaymentDoc(payment: Payment)
    | WalletDoc(wallet: Wallet)
    | AddressDoc(assignedPaymentId: string)
    | DerivedDoc(xpubId: string)
    | RecordDoc(requestFingerprint: string, response: string)

  type Docs = map<Key, Doc>

  type Buffer = Writes<Key, Doc>

  datatype Error =
    | NotFound | Conflict | ChainNotEnabled | TokenNotEnabled | AmountOutOfBounds | MerchantNotActive | NoActiveWallet
    | AllocationExhausted | NetworkNotAllowed | ScreeningUnavailable | DuplicateKey

  const MAXIMUM_DERIVATION_INDEX := 0x7FFF_FFFF

  predicate IsOpen(s: Status) {
    s.Pending? || s.Matched? || s.Confirming?
  }

  /** A payment of this chain or token. */
  predicate Belongs(d: Doc, entity: Key) {
    d.PaymentDoc? && (entity == ChainKey(d.payment.chain) || entity == TokenKey(d.payment.token))
  }

  predicate OpenOn(docs: Docs, entity: Key, k: Key) {
    k in docs && Belongs(docs[k], entity) && IsOpen(docs[k].payment.status)
  }

  predicate RightKind(entity: Key, d: Doc) {
    (entity.ChainKey? && d.ChainDoc?) || (entity.TokenKey? && d.TokenDoc?)
  }

  function RegistrationOf(d: Doc): Registration
    requires d.ChainDoc? || d.TokenDoc?
  {
    if d.ChainDoc? then d.chain.registration else d.token.registration
  }

  function WithRegistration(d: Doc, r: Registration): Doc
    requires d.ChainDoc? || d.TokenDoc?
  {
    if d.ChainDoc? then ChainDoc(d.chain.(registration := r)) else TokenDoc(d.token.(registration := r))
  }

  function WithEnabled(d: Doc, enabled: bool): Doc
    requires d.ChainDoc? || d.TokenDoc?
  {
    var r := RegistrationOf(d);
    WithRegistration(d, r.(enabled := enabled, verified := r.verified || enabled, version := r.version + 1))
  }

  function Allocated(d: Doc): Doc
    requires d.ChainDoc? || d.TokenDoc?
  {
    var r := RegistrationOf(d);
    WithRegistration(d, r.(allocationSequence := r.allocationSequence + 1))
  }

  predicate IsEnabled(docs: Docs, entity: Key) {
    entity in docs && RightKind(entity, docs[entity]) && RegistrationOf(docs[entity]).enabled
  }

  // ----- deactivation and activation -----

  /** The count and the conditional update of `#deactivate`, on one snapshot. */
  function Deactivation(docs: Docs, entity: Key, expectedVersion: nat, forced: bool): Result<Buffer, Error> {
    if (exists k :: k in docs && OpenOn(docs, entity, k)) && !forced then Err(Conflict)
    else if entity !in docs || !RightKind(entity, docs[entity]) || !IsEnabled(docs, entity)
            || RegistrationOf(docs[entity]).version != expectedVersion then Err(NotFound)
    else Ok(map[entity := Some(WithEnabled(docs[entity], false))])
  }

  function Activation(docs: Docs, entity: Key, expectedVersion: nat): Result<Buffer, Error> {
    if entity !in docs || !RightKind(entity, docs[entity]) || IsEnabled(docs, entity)
       || RegistrationOf(docs[entity]).version != expectedVersion then Err(Conflict)
    else Ok(map[entity := Some(WithEnabled(docs[entity], true))])
  }

  // ----- payment creation -----

  datatype Request = Request(
    merchantId: string,
    chain: string,
    token: string,
    amount: nat,
    idempotencyKey: Option<string>,
    fingerprint: string)

  /** What the attempt draws from outside the store: fresh ids, the wallet found, external checks. */
  datatype Draw = Draw(
    paymentId: string,
    xpubId: string,
    response: string,
    merchantActive: bool,
    networkAllowed: bool,
    screened: bool)

  predicate ActiveWallet(docs: Docs, xpubId: string, r: Request) {
    var k := WalletKey(xpubId);
    k in docs && docs[k].WalletDoc?
    && docs[k].wallet.owner == r.merchantId && docs[k].wallet.network == r.chain && docs[k].wallet.active
  }

  predicate ChainOpenFor(docs: Docs, chain: string) {
    var k := ChainKey(chain);
    k in docs && docs[k].ChainDoc? && docs[k].chain.registration.enabled && docs[k].chain.registration.verified
  }

  predicate TokenOpenFor(docs: Docs, chain: string, token: string) {
    var k := TokenKey(token);
    k in docs && docs[k].TokenDoc? && docs[k].token.home == chain
    && docs[k].token.registration.enabled && docs[k].token.registration.verified
  }

  function NextAddress(w: Wallet): Key {
    DerivedKey(w.network, w.extendedKey, w.nextDerivationIndex)
  }

  /** The first failing check, in the order the transaction makes them. */
  function Refusal(docs: Docs, r: Request, d: Draw): Option<Error> {
    if !ChainOpenFor(docs, r.chain) then Some(ChainNotEnabled)
    else if !TokenOpenFor(docs, r.chain, r.token) then Some(TokenNotEnabled)
    else if r.amount < docs[TokenKey(r.token)].token.minAmount
      || r.amount > docs[TokenKey(r.token)].token.maxAmount then Some(AmountOutOfBounds)
    else if !d.merchantActive then Some(MerchantNotActive)
    else if !ActiveWallet(docs, d.xpubId, r) then Some(NoActiveWallet)
    else if docs[WalletKey(d.xpubId)].wallet.nextDerivationIndex > MAXIMUM_DERIVATION_INDEX then
      Some(AllocationExhausted)
    else if !d.networkAllowed then Some(NetworkNotAllowed)
    else if !d.screened then Some(ScreeningUnavailable)
    else if AddressKey(d.xpubId, docs[WalletKey(d.xpubId)].wallet.nextDerivationIndex) in docs then Some(DuplicateKey)
    else if NextAddress(docs[WalletKey(d.xpubId)].wallet) in docs then Some(DuplicateKey)
    else if PaymentKey(d.paymentId) in docs then Some(DuplicateKey)
    else if r.idempotencyKey.Some? && RecordKey(r.merchantId, r.idempotencyKey.value) in docs then Some(DuplicateKey)
    else None
  }

  function CreationWrites(docs: Docs, r: Request, d: Draw): Buffer
    requires Refusal(docs, r, d).None?
  {
    var wallet := docs[WalletKey(d.xpubId)].wallet;
    var index := wallet.nextDerivationIndex;
    var base := map[
      ChainKey(r.chain) := Some(Allocated(docs[ChainKey(r.chain)])),
      TokenKey(r.token) := Some(Allocated(docs[TokenKey(r.token)])),
      WalletKey(d.xpubId) := Some(WalletDoc(wallet.(nextDerivationIndex := index + 1))),
      AddressKey(d.xpubId, index) := Some(AddressDoc(d.paymentId)),
      NextAddress(wallet) := Some(DerivedDoc(d.xpubId)),
      PaymentKey(d.paymentId) := Some(PaymentDoc(Payment(r.merchantId, r.chain, r.token, Pending, d.xpubId, index)))];
    if r.idempotencyKey.None? then base
    else base[RecordKey(r.merchantId, r.idempotencyKey.value) := Some(RecordDoc(r.fingerprint, d.response))]
  }

  function Creation(docs: Docs, r: Request, d: Draw): Result<Buffer, Error> {
    if Refusal(docs, r, d).Some? then Err(Refusal(docs, r, d).value) else Ok(CreationWrites(docs, r, d))
  }

  // ----- the rest of what touches these documents -----

  datatype Txn =
    | Deactivate(entity: Key, expectedVersion: nat, forced: bool)
    | Activate(entity: Key, expectedVersion: nat)
    | Register(entity: Key, doc: Doc)
    | Update(entity: Key, expectedVersion: nat, doc: Doc)
    | Create(request: Request, draw: Draw)
    | Move(paymentId: string, to: Status)
    | Onboard(xpubId: string, owner: string, network: string, extendedKey: string, retired: Option<string>)
    | Forget(merchantId: string, idempotencyKey: string)

  /** An update sets fields, never the enabled flag or the allocation counter, and raises the version. */
  predicate UpdatedFrom(before: Registration, after: Registration) {
    after.enabled == before.enabled && after.allocationSequence == before.allocationSequence
        && after.version == before.version + 1
  }

  /** A new chain or token starts disabled. */
  function Execute(docs: Docs, t: Txn): Result<Buffer, Error> {
    match t
    case Deactivate(e, v, forced) => Deactivation(docs, e, v, forced)
    case Activate(e, v) => Activation(docs, e, v)
    case Register(e, d) =>
      if e in docs || !RightKind(e, d) || IsEnabled(map[e := d], e) then Err(Conflict) else Ok(map[e := Some(d)])
    case Update(e, v, d) =>
      if e !in docs || !RightKind(e, d) || !RightKind(e, docs[e]) || RegistrationOf(docs[e]).version != v then
        Err(Conflict)
      else if !UpdatedFrom(RegistrationOf(docs[e]), RegistrationOf(d)) then Err(Conflict)
      else Ok(map[e := Some(d)])
    case Create(r, d) => Creation(docs, r, d)
    case Move(id, to) =>
      var k := PaymentKey(id);
      if k !in docs || !docs[k].PaymentDoc? || !Follows(docs[k].payment.status, to) then Err(NotFound)
      else Ok(map[k := Some(PaymentDoc(docs[k].payment.(status := to)))])
    case Onboard(x, owner, network, extendedKey, retired) =>
      if WalletKey(x) in docs then Err(DuplicateKey)
      else
        var added := map[WalletKey(x) := Some(WalletDoc(Wallet(owner, network, extendedKey, true, 0)))];
        if retired.None? then Ok(added)
        else
          var previous := WalletKey(retired.value);
          if previous !in docs || !docs[previous].WalletDoc? || !docs[previous].wallet.active then Err(NotFound)
          else Ok(added[previous := Some(WalletDoc(docs[previous].wallet.(active := false)))])
    case Forget(m, k) =>
      if RecordKey(m, k) in docs then Ok(map[RecordKey(m, k) := None]) else Err(NotFound)
  }

  // ----- the transactions as they run -----

  class Session {
    const snapshot: Docs
    var writes: Buffer

    constructor (snapshot: Docs)
      ensures this.snapshot == snapshot && writes == map[]
    {
      this.snapshot := snapshot;
      writes := map[];
    }

    /** A session reads its own writes. */
    function Read(k: Key): Option<Doc>
      reads this
    {
      if k in writes then writes[k] else At(snapshot, k)
    }

    method Put(k: Key, d: Doc)
      modifies this
      ensures writes == old(writes)[k := Some(d)]
    {
      writes := writes[k := Some(d)];
    }
  }

  class RegistryService {
    constructor () {}

    method DeactivateIn(session: Session, entity: Key, expectedVersion: nat, forced: bool)
        returns (r: Result<Doc, Error>)
      requires session.writes == map[]
      modifies session
      ensures r.Ok? <==> Deactivation(session.snapshot, entity, expectedVersion, forced).Ok?
      ensures r.Ok? ==> session.writes == Deactivation(session.snapshot, entity, expectedVersion, forced).value
      ensures r.Ok? ==> session.writes == map[entity := Some(r.value)]
      ensures r.Err? ==>
        session.writes == map[] && r.error == Deactivation(session.snapshot, entity, expectedVersion, forced).error
    {
      var open := CountOpen(session.snapshot, entity);
      if open > 0 && !forced {
        return Err(Conflict);
      }
      var before := session.Read(entity);
      if before.None? || !RightKind(entity, before.value) || !IsEnabled(session.snapshot, entity)
         || RegistrationOf(before.value).version != expectedVersion {
        return Err(NotFound);
      }
      var updated := WithEnabled(before.value, false);
      session.Put(entity, updated);
      r := Ok(updated);
    }

    method CountOpen(docs: Docs, entity: Key) returns (count: nat)
      ensures count == |OpenKeys(docs, entity)|
      ensures count > 0 <==> exists k :: k in docs && OpenOn(docs, entity, k)
    {
      count := |OpenKeys(docs, entity)|;
      if k :| k in docs && OpenOn(docs, entity, k) {
        assert k in OpenKeys(docs, entity);
      }
    }

    /** The chain and token of a new payment, each bumped so that a concurrent change conflicts. */
    method ReservePaymentConfiguration(session: Session, chainId: string, tokenId: string)
      returns (r: Result<(Doc, Doc), Error>)
      requires session.writes == map[]
      modifies session
      ensures
        var s := session.snapshot;
        if !ChainOpenFor(s, chainId) then r == Err(ChainNotEnabled)
        else if !TokenOpenFor(s, chainId, tokenId) then r == Err(TokenNotEnabled)
        else
          && r == Ok((Allocated(s[ChainKey(chainId)]), Allocated(s[TokenKey(tokenId)])))
          && session.writes == map[ChainKey(chainId) := Some(r.value.0), TokenKey(tokenId) := Some(r.value.1)]
    {
      if !ChainOpenFor(session.snapshot, chainId) {
        return Err(ChainNotEnabled);
      }
      var chain := Allocated(session.Read(ChainKey(chainId)).value);
      session.Put(ChainKey(chainId), chain);
      if !TokenOpenFor(session.snapshot, chainId, tokenId) {
        return Err(TokenNotEnabled);
      }
      var token := Allocated(session.Read(TokenKey(tokenId)).value);
      session.Put(TokenKey(tokenId), token);
      r := Ok((chain, token));
    }
  }

  function OpenKeys(docs: Docs, entity: Key): set<Key> {
    set k | k in docs && OpenOn(docs, entity, k)
  }

  class PaymentService {
    const registry: RegistryService

    constructor (registry: RegistryService)
      ensures this.registry == registry
    {
      this.registry := registry;
    }

    /** The creation transaction; an error leaves nothing to commit. */
    method CreatePaymentIn(session: Session, request: Request, draw: Draw) returns (r: Result<string, Error>)
      requires session.writes == map[]
      modifies session
      ensures r.Ok? ==> Creation(session.snapshot, request, draw) == Ok(session.writes) && r.value == draw.response
      ensures r.Err? ==> Creation(session.snapshot, request, draw) == Err(r.error)
    {
      var configuration := registry.ReservePaymentConfiguration(session, request.chain, request.token);
      if configuration.Err? {
        return Err(configuration.error);
      }
      var token := configuration.value.1.token;
      if request.amount < token.minAmount || request.amount > token.maxAmount {
        return Err(AmountOutOfBounds);
      }
      if !draw.merchantActive {
        return Err(MerchantNotActive);
      }
      if !ActiveWallet(session.snapshot, draw.xpubId, request) {
        return Err(NoActiveWallet);
      }
      var wallet := session.Read(WalletKey(draw.xpubId)).value.wallet;
      if wallet.nextDerivationIndex > MAXIMUM_DERIVATION_INDEX {
        return Err(AllocationExhausted);
      }
      var next := NextAddress(wallet);
      wallet := wallet.(nextDerivationIndex := wallet.nextDerivationIndex + 1);
      session.Put(WalletKey(draw.xpubId), WalletDoc(wallet));
      if !draw.networkAllowed {
        return Err(NetworkNotAllowed);
      }
      var derivationIndex := wallet.nextDerivationIndex - 1;
      if !draw.screened {
        return Err(ScreeningUnavailable);
      }
      if session.Read(AddressKey(draw.xpubId, derivationIndex)).Some? || session.Read(next).Some? {
        return Err(DuplicateKey);
      }
      session.Put(AddressKey(draw.xpubId, derivationIndex), AddressDoc(draw.paymentId));
      session.Put(next, DerivedDoc(draw.xpubId));
      if session.Read(PaymentKey(draw.paymentId)).Some? {
        return Err(DuplicateKey);
      }
      session.Put(PaymentKey(draw.paymentId),
                  PaymentDoc(Payment(request.merchantId, request.chain, request.token, Pending, draw.xpubId,
                      derivationIndex)));
      if request.idempotencyKey.Some? {
        var record := RecordKey(request.merchantId, request.idempotencyKey.value);
        if session.Read(record).Some? {
          return Err(DuplicateKey);
        }
        session.Put(record, RecordDoc(request.fingerprint, draw.response));
      }
      r := Ok(draw.response);
    }
  }
}
