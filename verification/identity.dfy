/** The e-mail keyed identity registry of the identitysel pallet (the calls
    suffixed `_sel11` to `_sel18`). `Identity1Of` maps an e-mail to the
    account it is bound to and an information record holding a password
    hash, a referral hash and a granted service; `EmailId` maps an account
    that completed a web3 link to its e-mail. */
module IdentitySel {
  import opened Common

  /** A 32-byte hash output. */
  type Digest = Bytes

  /** `blake2_256` and `sha2_256` of `sp_io::hashing`, left uninterpreted:
      every property below holds for any pair of hash functions. */
  datatype Hashers = Hashers(blake2: Bytes -> Digest, sha2: Bytes -> Digest)

  /** The identity pallet's `Data`, restricted to the variants these calls
      construct; values built with different variants are never equal. */
  datatype Data = Raw(bytes: Bytes) | BlakeTwo256(digest: Digest) | Sha256(digest: Digest)

  /** How many bytes a `Data::Raw` holds. */
  const RawCapacity: nat := 32

  /** The runtime's `MaxEmailsize`, `MaxTokenid` and `MaxAdditionalFields`. */
  datatype Bounds = Bounds(maxEmailSize: nat, maxTokenId: nat, maxAdditionalFields: nat)

  /** `IdentityInfoSel`, without its `pgp_fingerprint`, which registration sets
      to `None` and every other write copies. */
  datatype IdentityInfo = IdentityInfo(
    display: Data,
    legal: Data,
    image: Data,
    web: Data,
    referalHash: Data,
    email: Data,
    passwordHash: Data,
    account: Data,
    additional: seq<(Data, Data)>
  )

  /** `RegistrationSel`, without its judgements and deposit, which every
      write sets to empty and zero. */
  datatype Registration = Registration(accountId: AccountId, info: IdentityInfo)

  datatype IdState = IdState(
    identities: map<Bytes, Registration>,   // Identity1Of
    emailIds: map<AccountId, Bytes>         // EmailId
  )

  /** The variants of the pallet's `Error<T>` these calls return. */
  datatype IdError =
    | IdentityAlreadyClaimed
    | SignerNotmatching
    | ReferalFailed
    | LoginFailed
    | ServiceAccessFailed
    | NoIdentity

  /** The filler the pallet writes into unused fields: the ASCII bytes of
      "The Right Ordinal Ten, Esq.". */
  const Filler: Data := Raw([84, 104, 101, 32, 82, 105, 103, 104, 116, 32, 79, 114, 100, 105, 110, 97, 108, 32, 84, 101, 110, 44, 32, 69, 115, 113, 46])

  /** What `create_web3link_sel15` leaves in place of a used referral: the
      ASCII bytes of "null". */
  const SpentReferal: Data := Raw([110, 117, 108, 108])

  /** The information record `request_registration_sel11` stores: display
      "ten", the filler elsewhere, and the additional fields ("number",
      10u32 encoded little-endian) and ("text", "10"), all as ASCII bytes. */
  function InitialInfo(email: Bytes, passwordDigest: Digest): (r: IdentityInfo)
    ensures r.email == Raw(email) && r.passwordHash == BlakeTwo256(passwordDigest)
    ensures r.referalHash == Filler && r.referalHash.Raw?
    ensures r.legal == r.image == r.web == r.account == Filler
    ensures |r.additional| == 2
  {
    IdentityInfo(
      display := Raw([116, 101, 110]),
      legal := Filler,
      image := Filler,
      web := Filler,
      referalHash := Filler,
      email := Raw(email),
      passwordHash := BlakeTwo256(passwordDigest),
      account := Filler,
      additional := [(Raw([110, 117, 109, 98, 101, 114]), Raw([10, 0, 0, 0])),
                     (Raw([116, 101, 120, 116]), Raw([49, 48]))])
  }

  /** `request_registration_sel11`. The e-mail must fit `MaxEmailsize`, and,
      when it is new, a `Data::Raw`; the two additional fields must fit
      `MaxAdditionalFields` (the source unwraps these conversions). */
  function RequestRegistration(s: IdState, b: Bounds, h: Hashers, caller: AccountId, email: Bytes, password: Bytes): (r: Result<IdState, IdError>)
    requires |email| <= b.maxEmailSize
    requires email !in s.identities ==> |email| <= RawCapacity && 2 <= b.maxAdditionalFields
    ensures r.Err? <==> email in s.identities
    ensures r.Err? ==> r.error == IdentityAlreadyClaimed
    ensures r.Ok? ==> email in r.value.identities
    ensures r.Ok? ==> r.value.identities[email].accountId == caller
    ensures r.Ok? ==> r.value.identities[email].info.passwordHash == BlakeTwo256(h.blake2(password))
    ensures r.Ok? ==> r.value.identities[email].info.email == Raw(email)
    ensures r.Ok? ==> forall e :: e in s.identities ==> e in r.value.identities && r.value.identities[e] == s.identities[e]
    ensures r.Ok? ==> r.value.identities.Keys == s.identities.Keys + {email} && r.value.emailIds == s.emailIds
  {
    if email in s.identities then Err(IdentityAlreadyClaimed)
    else
      var reg := Registration(caller, InitialInfo(email, h.blake2(password)));
      Ok(s.(identities := s.identities[email := reg]))
  }

  /** `login_access_sel12`: a read-only password check. */
  function LoginAccess(s: IdState, b: Bounds, h: Hashers, email: Bytes, password: Bytes): (r: Result<(), IdError>)
    requires |email| <= b.maxEmailSize
    ensures email !in s.identities ==> r == Err(NoIdentity)
    ensures r.Ok? <==> email in s.identities && s.identities[email].info.passwordHash == BlakeTwo256(h.blake2(password))
    ensures email in s.identities && r.Err? ==> r.error == LoginFailed
  {
    if email !in s.identities then Err(NoIdentity)
    else if s.identities[email].info.passwordHash != BlakeTwo256(h.blake2(password)) then Err(LoginFailed)
    else Ok(())
  }

  /** `change_password_sel13`. Nothing checks that the signer owns the
      e-mail: the signer becomes its account. */
  function ChangePassword(s: IdState, b: Bounds, h: Hashers, caller: AccountId, email: Bytes, password: Bytes): (r: Result<IdState, IdError>)
    requires |email| <= b.maxEmailSize
    ensures r.Err? <==> email !in s.identities
    ensures r.Err? ==> r.error == NoIdentity
    ensures r.Ok? ==> r.value.emailIds == s.emailIds
    ensures r.Ok? ==> r.value.identities.Keys == s.identities.Keys
    ensures r.Ok? ==> forall e :: e in s.identities && e != email ==> r.value.identities[e] == s.identities[e]
    ensures r.Ok? ==>
              r.value.identities[email]
              == Registration(caller, s.identities[email].info.(passwordHash := BlakeTwo256(h.blake2(password)),
                                                                account := Filler))
  {
    if email !in s.identities then Err(NoIdentity)
    else
      var info := s.identities[email].info;
      var info' := info.(passwordHash := BlakeTwo256(h.blake2(password)), account := Filler);
      Ok(s.(identities := s.identities[email := Registration(caller, info')]))
  }

  /** `set_referal_sel12`: stores the SHA-256 of a referral, and the signer
      becomes the e-mail's account. */
  function SetReferal(s: IdState, b: Bounds, h: Hashers, caller: AccountId, email: Bytes, referal: Bytes): (r: Result<IdState, IdError>)
    requires |email| <= b.maxEmailSize
    ensures r.Err? <==> email !in s.identities
    ensures r.Err? ==> r.error == NoIdentity
    ensures r.Ok? ==> r.value.emailIds == s.emailIds
    ensures r.Ok? ==> r.value.identities.Keys == s.identities.Keys
    ensures r.Ok? ==> forall e :: e in s.identities && e != email ==> r.value.identities[e] == s.identities[e]
    ensures r.Ok? ==>
              r.value.identities[email] == Registration(caller, s.identities[email].info.(referalHash := Sha256(h.sha2(referal))))
  {
    if email !in s.identities then Err(NoIdentity)
    else
      var info := s.identities[email].info.(referalHash := Sha256(h.sha2(referal)));
      Ok(s.(identities := s.identities[email := Registration(caller, info)]))
  }

  /** `create_web3link_sel15`: the signer, who must be the account to link,
      spends the e-mail's referral and binds the e-mail to itself in both
      tables. Checks run in the source's order. */
  function CreateWeb3Link(s: IdState, b: Bounds, h: Hashers, caller: AccountId, email: Bytes, idToLink: AccountId, referal: Bytes): (r: Result<IdState, IdError>)
    requires caller == idToLink ==> |email| <= b.maxEmailSize
    ensures caller != idToLink ==> r == Err(SignerNotmatching)
    ensures caller == idToLink && email !in s.identities ==> r == Err(NoIdentity)
    ensures caller == idToLink && email in s.identities && s.identities[email].info.referalHash != Sha256(h.sha2(referal)) ==>
              r == Err(ReferalFailed)
    ensures r.Ok? <==> caller == idToLink && email in s.identities && s.identities[email].info.referalHash == Sha256(h.sha2(referal))
    ensures r.Ok? ==> r.value.emailIds == s.emailIds[caller := email]
    ensures r.Ok? ==> r.value.identities.Keys == s.identities.Keys
    ensures r.Ok? ==> forall e :: e in s.identities && e != email ==> r.value.identities[e] == s.identities[e]
    ensures r.Ok? ==>
              r.value.identities[email] == Registration(caller, s.identities[email].info.(referalHash := SpentReferal))
  {
    if caller != idToLink then Err(SignerNotmatching)
    else if email !in s.identities then Err(NoIdentity)
    else
      var info := s.identities[email].info;
      if info.referalHash != Sha256(h.sha2(referal)) then Err(ReferalFailed)
      else
        var reg := Registration(caller, info.(referalHash := SpentReferal));
        Ok(IdState(s.identities[email := reg], s.emailIds[caller := email]))
  }

  /** `login_web3_sel16`: a read-only check that the signer is the e-mail's
      account. The e-mail is then converted to a token id, which must fit
      `MaxTokenid`. */
  function LoginWeb3(s: IdState, b: Bounds, caller: AccountId, email: Bytes): (r: Result<(), IdError>)
    requires |email| <= b.maxEmailSize
    requires email in s.identities && s.identities[email].accountId == caller ==> |email| <= b.maxTokenId
    ensures email !in s.identities ==> r == Err(NoIdentity)
    ensures r.Ok? <==> email in s.identities && s.identities[email].accountId == caller
    ensures email in s.identities && r.Err? ==> r.error == LoginFailed
  {
    if email !in s.identities then Err(NoIdentity)
    else if caller != s.identities[email].accountId then Err(LoginFailed)
    else Ok(())
  }

  /** The e-mail an account's `EmailId` binding leads to, if it leads to a
      registered identity. */
  function BoundEmail(s: IdState, account: AccountId): Option<Bytes>
  {
    if account in s.emailIds && s.emailIds[account] in s.identities then Some(s.emailIds[account]) else None
  }

  /** `set_accessservice_sel17`: grants `service` to the identity linked to
      `idToAccess`. The signer is not consulted at all, and the identity's
      account is kept. */
  function SetAccessService(s: IdState, idToAccess: AccountId, service: Bytes): (r: Result<IdState, IdError>)
    requires BoundEmail(s, idToAccess).Some? ==> |service| <= RawCapacity
    ensures r.Err? <==> BoundEmail(s, idToAccess).None?
    ensures r.Err? ==> r.error == NoIdentity
    ensures r.Ok? ==> r.value.emailIds == s.emailIds
    ensures r.Ok? ==> r.value.identities.Keys == s.identities.Keys
    ensures r.Ok? ==> forall e :: e in s.identities && Some(e) != BoundEmail(s, idToAccess) ==> r.value.identities[e] == s.identities[e]
    ensures r.Ok? ==> var e := BoundEmail(s, idToAccess).value;
              r.value.identities[e] == s.identities[e].(info := s.identities[e].info.(web := Raw(service)))
  {
    if idToAccess !in s.emailIds then Err(NoIdentity)
    else
      var email := s.emailIds[idToAccess];
      if email !in s.identities then Err(NoIdentity)
      else
        var id := s.identities[email];
        var reg := Registration(id.accountId, id.info.(web := Raw(service)));
        Ok(s.(identities := s.identities[email := reg]))
  }

  /** `check_web3access_sel18`: a read-only check that the signer's linked
      identity was granted `service`. */
  function CheckWeb3Access(s: IdState, caller: AccountId, service: Bytes): (r: Result<(), IdError>)
    requires BoundEmail(s, caller).Some? ==> |service| <= RawCapacity
    ensures BoundEmail(s, caller).None? ==> r == Err(NoIdentity)
    ensures r.Ok? <==> BoundEmail(s, caller).Some? && s.identities[BoundEmail(s, caller).value].info.web == Raw(service)
    ensures BoundEmail(s, caller).Some? && r.Err? ==> r.error == ServiceAccessFailed
  {
    if caller !in s.emailIds then Err(NoIdentity)
    else
      var email := s.emailIds[caller];
      if email !in s.identities then Err(NoIdentity)
      else if Raw(service) != s.identities[email].info.web then Err(ServiceAccessFailed)
      else Ok(())
  }

  /** The pallet's eight identity calls. */
  datatype IdCall =
    | Register(email: Bytes, password: Bytes)
    | Login(email: Bytes, password: Bytes)
    | NewPassword(email: Bytes, password: Bytes)
    | Referal(email: Bytes, referal: Bytes)
    | Link(email: Bytes, idToLink: AccountId, referal: Bytes)
    | Web3Login(email: Bytes)
    | GrantService(idToAccess: AccountId, service: Bytes)
    | CheckService(service: Bytes)

  datatype IdRequest = IdRequest(caller: AccountId, call: IdCall)

  /** The request's conversions to bounded vectors all succeed. */
  predicate Fits(s: IdState, b: Bounds, req: IdRequest)
  {
    match req.call
    case Register(e, _) =>
      |e| <= b.maxEmailSize && (e !in s.identities ==> |e| <= RawCapacity && 2 <= b.maxAdditionalFields)
    case Login(e, _) => |e| <= b.maxEmailSize
    case NewPassword(e, _) => |e| <= b.maxEmailSize
    case Referal(e, _) => |e| <= b.maxEmailSize
    case Link(e, id, _) => req.caller == id ==> |e| <= b.maxEmailSize
    case Web3Login(e) =>
      |e| <= b.maxEmailSize && (e in s.identities && s.identities[e].accountId == req.caller ==> |e| <= b.maxTokenId)
    case GrantService(id, svc) => BoundEmail(s, id).Some? ==> |svc| <= RawCapacity
    case CheckService(svc) => BoundEmail(s, req.caller).Some? ==> |svc| <= RawCapacity
  }

  /** Dispatch; the read-only calls succeed with the tables unchanged. */
  function Apply(s: IdState, b: Bounds, h: Hashers, req: IdRequest): Result<IdState, IdError>
    requires Fits(s, b, req)
  {
    match req.call
    case Register(e, p) => RequestRegistration(s, b, h, req.caller, e, p)
    case Login(e, p) => (match LoginAccess(s, b, h, e, p) case Ok(_) => Ok(s) case Err(x) => Err(x))
    case NewPassword(e, p) => ChangePassword(s, b, h, req.caller, e, p)
    case Referal(e, r) => SetReferal(s, b, h, req.caller, e, r)
    case Link(e, id, r) => CreateWeb3Link(s, b, h, req.caller, e, id, r)
    case Web3Login(e) => (match LoginWeb3(s, b, req.caller, e) case Ok(_) => Ok(s) case Err(x) => Err(x))
    case GrantService(id, svc) => SetAccessService(s, id, svc)
    case CheckService(svc) => (match CheckWeb3Access(s, req.caller, svc) case Ok(_) => Ok(s) case Err(x) => Err(x))
  }

  /** The tables after the request. A failed request changes nothing, and
      neither does one whose bounded-vector conversion would panic. */
  function Next(s: IdState, b: Bounds, h: Hashers, req: IdRequest): IdState
  {
    if !Fits(s, b, req) then s
    else
      match Apply(s, b, h, req)
      case Ok(s') => s'
      case Err(_) => s
  }

  function Run(s: IdState, b: Bounds, h: Hashers, reqs: seq<IdRequest>): IdState
    decreases |reqs|
  {
    if |reqs| == 0 then s else Run(Next(s, b, h, reqs[0]), b, h, reqs[1..])
  }
}
