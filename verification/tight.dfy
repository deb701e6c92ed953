/** The tight pallet declares the crowd pallet's three tables and five claim
    calls again, word for word, except that `revoke_claim` first reads the
    balances pallet's total issuance and discards it. The model reuses the
    crowd registry and shows that the read changes nothing. */
module Tight {
  import opened Common
  import opened Claims
  import ClaimRegistry

  /** `revoke_claim` of the tight pallet; `totalIssuance` is the value read
      from the balances pallet, bound to `_total_balance` and never used. */
  function RevokeClaim(s: ClaimRegistry.Registry, caller: AccountId, proof: Bytes, totalIssuance: nat): (r: Result<ClaimRegistry.Step, ClaimError>)
    ensures proof !in s.proofs ==> r == Err(NoSuchProof)
    ensures proof in s.proofs && s.proofs[proof].owner != caller ==> r == Err(NotProofOwner)
    ensures r.Ok? <==> ClaimRegistry.OwnerOf(s, proof) == Some(caller)
    ensures r == ClaimRegistry.RevokeClaim(s, caller, proof)
  {
    if proof !in s.proofs then Err(NoSuchProof)
    else if caller != s.proofs[proof].owner then Err(NotProofOwner)
    else Ok(ClaimRegistry.Step(s.(proofs := s.proofs - {proof}), ClaimRevoked(caller, proof)))
  }

  /** Dispatch of the tight pallet's claim calls at a given total issuance. */
  function Apply(s: ClaimRegistry.Registry, req: ClaimRegistry.Request, totalIssuance: nat): Result<ClaimRegistry.Step, ClaimError>
  {
    match req.call
    case Create(p) => ClaimRegistry.CreateClaim(s, req.caller, req.height, p)
    case Update(p, l) => ClaimRegistry.UpdateClaim(s, req.caller, req.height, p, l)
    case Lock(p, l) => ClaimRegistry.LockClaim(s, req.caller, p, l)
    case CreateAddress(a) => ClaimRegistry.CreatePshAddress(s, req.caller, req.height, a)
    case Revoke(p) => RevokeClaim(s, req.caller, p, totalIssuance)
  }

  /** Every claim call of the tight pallet, at every total issuance, has
      exactly the outcome (tables, event and error) of the crowd pallet's. */
  lemma AgreesWithCrowd(s: ClaimRegistry.Registry, req: ClaimRegistry.Request, totalIssuance: nat)
    ensures Apply(s, req, totalIssuance) == ClaimRegistry.Apply(s, req)
  {
  }
}
