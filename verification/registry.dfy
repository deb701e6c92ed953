/** The claim / lock / transfer registry of the crowd pallet (the tight
    pallet carries the same five calls over the same three tables).

    Each dispatchable is a pure function of the tables and the signed
    caller; `create_claim`, `update_claim` and `create_pshaddress` also take
    the current block number, which they stamp. It returns the new tables and the event
    it deposits, or the pallet error; every check precedes every write, so
    an error leaves the tables as they were. */
module ClaimRegistry {
  import opened Common
  import opened Claims

  /** The `(AccountId, Vec<u8>)` value of `Prooflocks`: who set (or last
      took over) the lock, and the secret that authorises a transfer. */
  datatype ProofLock = ProofLock(holder: AccountId, secret: Bytes)

  /** The pallet's three storage maps. An absent key is simply not in the map. */
  datatype Registry = Registry(
    proofs: map<Bytes, Claim>,      // Proofs
    locks: map<Bytes, ProofLock>,   // Prooflocks
    addresses: map<Bytes, Claim>    // P2shaddress
  )

  const Genesis := Registry(map[], map[], map[])

  /** What a successful call leaves behind. */
  datatype Step = Step(state: Registry, event: Event)

  /** `Prooflocks::get`: the maps are declared with `ValueQuery`, so an
      absent lock reads as the default pair, whose secret is empty. */
  function GetLock(s: Registry, proof: Bytes): (r: ProofLock)
    ensures proof in s.locks ==> r == s.locks[proof]
    ensures proof !in s.locks ==> r == ProofLock(DefaultAccount, [])
  {
    if proof in s.locks then s.locks[proof] else ProofLock(DefaultAccount, [])
  }

  /** The secret `update_claim` compares against. */
  function StoredSecret(s: Registry, proof: Bytes): Bytes
  {
    GetLock(s, proof).secret
  }

  function OwnerOf(s: Registry, proof: Bytes): Option<AccountId>
  {
    if proof in s.proofs then Some(s.proofs[proof].owner) else None
  }

  /** `create_claim`. */
  function CreateClaim(s: Registry, caller: AccountId, height: BlockNumber, proof: Bytes): (r: Result<Step, ClaimError>)
    ensures r.Ok? <==> proof !in s.proofs
    ensures r.Err? ==> r.error == ProofAlreadyClaimed
    ensures r.Ok? ==> r.value.state == s.(proofs := s.proofs[proof := Claim(caller, height)])
    ensures r.Ok? ==> r.value.event == ClaimCreated(caller, proof)
  {
    match CreateEntry(s.proofs, proof, caller, height)
    case Err(e) => Err(e)
    case Ok(proofs) => Ok(Step(s.(proofs := proofs), ClaimCreated(caller, proof)))
  }

  /** `update_claim`: on a claimed proof, a transfer to whoever presents the
      stored-or-empty secret (a no-op for the owner); on an unclaimed proof,
      a plain claim that ignores the presented secret. */
  function UpdateClaim(s: Registry, caller: AccountId, height: BlockNumber, proof: Bytes, sentLock: Bytes): (r: Result<Step, ClaimError>)
    ensures r.Err? <==> proof in s.proofs && sentLock != StoredSecret(s, proof)
    ensures r.Err? ==> r.error == InvalidLock
    ensures r.Ok? ==> r.value.event == UpdateCreated(caller, proof)
    ensures r.Ok? ==> OwnerOf(r.value.state, proof) == Some(caller)
    ensures r.Ok? && proof in s.proofs ==> r.value.state.proofs[proof].createdAt == s.proofs[proof].createdAt
    ensures r.Ok? && proof !in s.proofs ==> r.value.state.proofs[proof].createdAt == height
    ensures r.Ok? && proof in s.proofs && caller == s.proofs[proof].owner ==> r.value.state == s
    ensures r.Ok? && proof in s.proofs && caller != s.proofs[proof].owner ==>
              r.value.state.locks == s.locks[proof := ProofLock(caller, sentLock)]
    ensures r.Ok? && proof !in s.proofs ==> r.value.state.locks == s.locks
    ensures r.Ok? ==> r.value.state.addresses == s.addresses
    ensures r.Ok? ==> forall k :: k != proof ==> Unmoved(s, r.value.state, k)
  {
    if proof in s.proofs then
      var claim := s.proofs[proof];
      var lock := StoredSecret(s, proof);
      if sentLock != lock then Err(InvalidLock)
      else if caller != claim.owner then
        Ok(Step(s.(proofs := s.proofs[proof := Claim(caller, claim.createdAt)],
                   locks := s.locks[proof := ProofLock(caller, lock)]),
                UpdateCreated(caller, proof)))
      else
        Ok(Step(s, UpdateCreated(caller, proof)))
    else
      Ok(Step(s.(proofs := s.proofs[proof := Claim(caller, height)]), UpdateCreated(caller, proof)))
  }

  /** `lock_claim`. The checks run in the source's order: already locked,
      then not claimed, then not the owner. */
  function LockClaim(s: Registry, caller: AccountId, proof: Bytes, secret: Bytes): (r: Result<Step, ClaimError>)
    ensures proof in s.locks ==> r == Err(ProofAlreadyLocked)
    ensures proof !in s.locks && proof !in s.proofs ==> r == Err(ProofNotClaimed)
    ensures proof !in s.locks && proof in s.proofs && s.proofs[proof].owner != caller ==> r == Err(NotProofOwner)
    ensures r.Ok? <==> proof !in s.locks && OwnerOf(s, proof) == Some(caller)
    ensures r.Ok? ==> r.value.state == s.(locks := s.locks[proof := ProofLock(caller, secret)])
    ensures r.Ok? ==> r.value.event == ClaimLocked(caller, secret)
  {
    if proof in s.locks then Err(ProofAlreadyLocked)
    else if proof !in s.proofs then Err(ProofNotClaimed)
    else if caller != s.proofs[proof].owner then Err(NotProofOwner)
    else Ok(Step(s.(locks := s.locks[proof := ProofLock(caller, secret)]), ClaimLocked(caller, secret)))
  }

  /** `create_pshaddress`: the same create-only insertion, on `P2shaddress`. */
  function CreatePshAddress(s: Registry, caller: AccountId, height: BlockNumber, address: Bytes): (r: Result<Step, ClaimError>)
    ensures r.Ok? <==> address !in s.addresses
    ensures r.Err? ==> r.error == ProofAlreadyClaimed
    ensures r.Ok? ==> r.value.state == s.(addresses := s.addresses[address := Claim(caller, height)])
    ensures r.Ok? ==> r.value.event == PshAddressCreated(caller, address)
  {
    match CreateEntry(s.addresses, address, caller, height)
    case Err(e) => Err(e)
    case Ok(addresses) => Ok(Step(s.(addresses := addresses), PshAddressCreated(caller, address)))
  }

  /** `revoke_claim`: only the claim goes; a lock on the key stays behind. */
  function RevokeClaim(s: Registry, caller: AccountId, proof: Bytes): (r: Result<Step, ClaimError>)
    ensures proof !in s.proofs ==> r == Err(NoSuchProof)
    ensures proof in s.proofs && s.proofs[proof].owner != caller ==> r == Err(NotProofOwner)
    ensures r.Ok? <==> OwnerOf(s, proof) == Some(caller)
    ensures r.Ok? ==> r.value.state.proofs.Keys == s.proofs.Keys - {proof}
    ensures r.Ok? ==> forall k :: k in r.value.state.proofs ==> r.value.state.proofs[k] == s.proofs[k]
    ensures r.Ok? ==> r.value.state.locks == s.locks && r.value.state.addresses == s.addresses
    ensures r.Ok? ==> r.value.event == ClaimRevoked(caller, proof)
  {
    if proof !in s.proofs then Err(NoSuchProof)
    else if caller != s.proofs[proof].owner then Err(NotProofOwner)
    else Ok(Step(s.(proofs := s.proofs - {proof}), ClaimRevoked(caller, proof)))
  }

  /** The key `k` has the same claim, lock and address entries in both states. */
  ghost predicate Unmoved(s: Registry, s': Registry, k: Bytes)
  {
    && (k in s.proofs <==> k in s'.proofs)
    && (k in s.proofs ==> s'.proofs[k] == s.proofs[k])
    && (k in s.locks <==> k in s'.locks)
    && (k in s.locks ==> s'.locks[k] == s.locks[k])
    && (k in s.addresses <==> k in s'.addresses)
    && (k in s.addresses ==> s'.addresses[k] == s.addresses[k])
  }

  /** The pallet's `Call` enum, restricted to the five claim calls. */
  datatype Call =
    | Create(proof: Bytes)
    | Update(proof: Bytes, sentLock: Bytes)
    | Lock(proof: Bytes, secret: Bytes)
    | CreateAddress(address: Bytes)
    | Revoke(proof: Bytes)
  {
    /** The one storage key the call reads and writes. */
    function Key(): Bytes
    {
      match this
      case Create(p) => p
      case Update(p, _) => p
      case Lock(p, _) => p
      case CreateAddress(a) => a
      case Revoke(p) => p
    }
  }

  /** A signed extrinsic as the runtime applies it: who signed it, the block
      it is included in, and the call. */
  datatype Request = Request(caller: AccountId, height: BlockNumber, call: Call)

  function Apply(s: Registry, req: Request): Result<Step, ClaimError>
  {
    match req.call
    case Create(p) => CreateClaim(s, req.caller, req.height, p)
    case Update(p, l) => UpdateClaim(s, req.caller, req.height, p, l)
    case Lock(p, l) => LockClaim(s, req.caller, p, l)
    case CreateAddress(a) => CreatePshAddress(s, req.caller, req.height, a)
    case Revoke(p) => RevokeClaim(s, req.caller, p)
  }

  /** The tables after the request: a failed request changes nothing. */
  function Next(s: Registry, req: Request): Registry
  {
    match Apply(s, req)
    case Ok(step) => step.state
    case Err(_) => s
  }

  /** The tables after a sequence of requests, applied one at a time. */
  function Run(s: Registry, reqs: seq<Request>): Registry
    decreases |reqs|
  {
    if |reqs| == 0 then s else Run(Next(s, reqs[0]), reqs[1..])
  }
}
