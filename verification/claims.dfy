/** What the crowd, tight and docverify pallets have in common: the record
    stored under a claimed key, the error and event enums (declared
    identically in all three), and the create-only insertion that
    `create_claim`, `create_pshaddress`, the unclaimed branch of
    `update_claim` and `document_submit_sel31` all perform. */
module Claims {
  import opened Common

  /** The `(AccountId, BlockNumber)` value of the `Proofs` and `P2shaddress`
      tables: who claimed the key and at which block. */
  datatype Claim = Claim(owner: AccountId, createdAt: BlockNumber)

  /** The pallets' `Error<T>` enum. */
  datatype ClaimError =
    | ProofAlreadyClaimed
    | NoSuchProof
    | NotProofOwner
    | ProofAlreadyLocked
    | ProofNotClaimed
    | InvalidLock

  /** The events the claim operations deposit. `ClaimLocked` carries the
      secret, not the proof key. */
  datatype Event =
    | ClaimCreated(who: AccountId, proof: Bytes)
    | ClaimRevoked(who: AccountId, proof: Bytes)
    | UpdateCreated(who: AccountId, proof: Bytes)
    | ClaimLocked(who: AccountId, secret: Bytes)
    | PshAddressCreated(who: AccountId, address: Bytes)

  type Table = map<Bytes, Claim>

  /** `ensure!(!T::contains_key(&key), ProofAlreadyClaimed)` followed by
      `T::insert(&key, (&sender, current_block))`: the key becomes owned by
      `who` from `height`, every other key keeps its entry. */
  function CreateEntry(t: Table, key: Bytes, who: AccountId, height: BlockNumber): (r: Result<Table, ClaimError>)
    ensures r.Ok? <==> key !in t
    ensures r.Err? ==> r.error == ProofAlreadyClaimed
    ensures r.Ok? ==> key in r.value && r.value[key] == Claim(who, height)
    ensures r.Ok? ==> r.value.Keys == t.Keys + {key}
    ensures r.Ok? ==> forall k :: k in t ==> r.value[k] == t[k]
  {
    if key in t then Err(ProofAlreadyClaimed)
    else Ok(t[key := Claim(who, height)])
  }

  /** A key created once cannot be created again, whoever asks and whenever. */
  lemma CreateEntryTwiceFails(t: Table, key: Bytes, who: AccountId, height: BlockNumber, who': AccountId, height': BlockNumber)
    requires CreateEntry(t, key, who, height).Ok?
    ensures CreateEntry(CreateEntry(t, key, who, height).value, key, who', height') == Err(ProofAlreadyClaimed)
  {
  }
}
