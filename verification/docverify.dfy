/** The document-verification pallet. Its only live write is
    `document_submit_sel31`, a create-only registration of a document hash in
    `Proofs`; `document_verify_sel32` and `document_reject_sel33` are stubs
    that return `Ok` without reading or writing anything (they do not even
    check the origin). The revoke, lock, update and address calls of the
    claim pallets are present only as commented-out code. */
module DocVerify {
  import opened Common
  import opened Claims

  /** The `(Submitter, Verifier, DocumentLink, DocumentStatus)` value of
      `Documentverify`. No live call writes it. */
  datatype DocRecord = DocRecord(submitter: AccountId, verifier: AccountId, link: Bytes, status: Bytes)

  datatype DocState = DocState(
    proofs: map<Bytes, Claim>,            // Proofs
    addresses: map<Bytes, Claim>,         // P2shaddress
    documents: map<Bytes, DocRecord>      // Documentverify
  )

  /** A successful call: the tables and the event deposited, if any. */
  datatype DocStep = DocStep(state: DocState, event: Option<Event>)

  /** `document_submit_sel31`. */
  function Submit(s: DocState, caller: AccountId, height: BlockNumber, hash: Bytes): (r: Result<DocStep, ClaimError>)
    ensures r.Ok? <==> hash !in s.proofs
    ensures r.Err? ==> r.error == ProofAlreadyClaimed
    ensures r.Ok? ==> r.value.state.proofs == s.proofs[hash := Claim(caller, height)]
    ensures r.Ok? ==> r.value.state.addresses == s.addresses && r.value.state.documents == s.documents
    ensures r.Ok? ==> r.value.event == Some(ClaimCreated(caller, hash))
  {
    match CreateEntry(s.proofs, hash, caller, height)
    case Err(e) => Err(e)
    case Ok(proofs) => Ok(DocStep(s.(proofs := proofs), Some(ClaimCreated(caller, hash))))
  }

  /** `document_verify_sel32`: a stub. */
  function Verify(s: DocState, origin: AccountId, hash: Bytes): (r: Result<DocStep, ClaimError>)
    ensures r == Ok(DocStep(s, None))
  {
    Ok(DocStep(s, None))
  }

  /** `document_reject_sel33`: a stub. */
  function Reject(s: DocState, origin: AccountId, hash: Bytes): (r: Result<DocStep, ClaimError>)
    ensures r == Ok(DocStep(s, None))
  {
    Ok(DocStep(s, None))
  }

  /** The pallet's live calls, without `create_nft`. */
  datatype DocCall = SubmitDoc(hash: Bytes) | VerifyDoc(hash: Bytes) | RejectDoc(hash: Bytes)

  datatype DocRequest = DocRequest(caller: AccountId, height: BlockNumber, call: DocCall)

  function Apply(s: DocState, req: DocRequest): Result<DocStep, ClaimError>
  {
    match req.call
    case SubmitDoc(h) => Submit(s, req.caller, req.height, h)
    case VerifyDoc(h) => Verify(s, req.caller, h)
    case RejectDoc(h) => Reject(s, req.caller, h)
  }

  function Next(s: DocState, req: DocRequest): DocState
  {
    match Apply(s, req)
    case Ok(step) => step.state
    case Err(_) => s
  }

  function Run(s: DocState, reqs: seq<DocRequest>): DocState
    decreases |reqs|
  {
    if |reqs| == 0 then s else Run(Next(s, reqs[0]), reqs[1..])
  }

  /** `t` extends `s`: every submission in `s` is in `t` unchanged. */
  ghost predicate Extends(s: DocState, t: DocState)
  {
    forall k :: k in s.proofs ==> k in t.proofs && t.proofs[k] == s.proofs[k]
  }

  /** A hash that is registered cannot be submitted again, by anyone. */
  lemma ResubmitRefused(s: DocState, caller: AccountId, height: BlockNumber, hash: Bytes, caller': AccountId, height': BlockNumber)
    requires Submit(s, caller, height, hash).Ok?
    ensures Submit(Submit(s, caller, height, hash).value.state, caller', height', hash) == Err(ProofAlreadyClaimed)
  {
  }

  /** `Proofs` is append-only, and `P2shaddress` and `Documentverify` never
      change, over any sequence of the pallet's calls. */
  lemma {:induction false} ProofsAppendOnly(s: DocState, reqs: seq<DocRequest>)
    ensures Extends(s, Run(s, reqs))
    ensures Run(s, reqs).addresses == s.addresses
    ensures Run(s, reqs).documents == s.documents
    decreases |reqs|
  {
    if |reqs| > 0 {
      var s' := Next(s, reqs[0]);
      assert Extends(s, s');
      ProofsAppendOnly(s', reqs[1..]);
    }
  }
}
