# Claim, document and identity registries of a Substrate node, in Dafny

This project models the runtime pallets of a permissioned Substrate node. Each pallet is a small
state machine over persistent storage maps:

- **crowd** and **tight** share one registry with three tables:
  - `Proofs`: proof bytes → (owner, block).
  - `Prooflocks`: proof bytes → (holder, secret).
  - `P2shaddress`: address bytes → (owner, block).

  The registry has five calls. `create_claim` claims a proof. `lock_claim` attaches a secret to it.
  `update_claim` claims an unclaimed proof, or hands a claimed one to anyone who presents the stored
  secret. `revoke_claim` deletes a claim. `create_pshaddress` registers an address.
- **docverify** registers document hashes. Its `Proofs` table is create-only, and it has two stub
  calls.
- **identitysel** keeps identities keyed by e-mail in two tables:
  - `Identity1Of`: e-mail → (account, information record).
  - `EmailId`: account → e-mail.

  Its calls register an identity, log in with a password, change the password, set a referral,
  link an account with a one-shot referral, log in by web3, and grant and check a service.

Every dispatchable is a pure Dafny function of the tables and of the signed caller and block number
where the source uses them. `create_claim`, `update_claim`, `create_pshaddress` and
`document_submit_sel31` take the caller and the block. `lock_claim` and `revoke_claim` take only the
caller. The identity calls take no block. `login_access_sel12` and `set_accessservice_sel17` call
`ensure_signed` but then ignore the signer, so their Dafny functions take no caller.
A call that writes returns `Ok` with the new tables (and, for the claim pallets, the event it
deposits); the three identity checks return `Ok(())`; every call may instead return `Err` with the
pallet error. Every check in the source precedes every write, so an error leaves
the tables unchanged. `Next` and `Run` encode this when they apply a sequence of requests. Storage
maps are Dafny `map`s.

The claim pallets declare their maps with `ValueQuery`, so reading an absent lock yields the
default pair, and its secret is empty (`ClaimRegistry.GetLock`). Two consequences follow, and both
are proved:
- On a claimed proof that has no lock, any caller other than the owner who presents the empty
  secret takes the proof over (the owner's own update is a no-op). That takeover writes a lock record, so `lock_claim` on the proof then fails.
- A revoked proof keeps its lock. Whoever claims it next therefore cannot lock it.

Files:
- `common.dfy`: bytes, accounts, `Option` and `Result`.
- `claims.dfy`: what crowd, tight and docverify share: the claim record, the error enum, the event
  enum and the create-only insertion.
- `registry.dfy`: the crowd pallet's five calls, their dispatch, and `Next`/`Run`.
- `protocol.dfy`: properties of the registry.
- `tight.dfy`: the tight pallet, shown equal to crowd.
- `docverify.dfy`: the document pallet.
- `identity.dfy`: the identity pallet.
- `identity_props.dfy`: properties of the identity pallet.

## Model

| member | source | states |
|---|---|---|
| Claims.CreateEntry | pallets/crowd/src/lib.rs:156-163 | An existing key is refused with `ProofAlreadyClaimed`. A new key becomes owned by the caller from the given block, and every other key keeps its entry. |
| Claims.CreateEntryTwiceFails | pallets/crowd/src/lib.rs:157-163 | A second create on the same key fails with `ProofAlreadyClaimed`, whoever calls and at whatever block. |
| ClaimRegistry.GetLock | pallets/crowd/src/lib.rs:126 | A present lock reads as stored. An absent one reads as the `ValueQuery` default (default account, empty secret), which is what `update_claim` compares against at line 190. |
| ClaimRegistry.CreateClaim | pallets/crowd/src/lib.rs:144-171 | Succeeds iff the proof is unclaimed, and then stores (caller, block) in `Proofs` only. `Prooflocks` and `P2shaddress` are untouched. Emits `ClaimCreated(caller, proof)`. |
| ClaimRegistry.UpdateClaim | pallets/crowd/src/lib.rs:173-216 | Fails with `InvalidLock` iff the proof is claimed and the presented secret differs from the stored one (empty when no lock exists). On success the caller owns the proof. A transfer keeps the creation block and rewrites the lock as (caller, same secret). An owner's update changes nothing. An unclaimed proof gets (caller, block) and its locks stay as they were. Other keys are untouched. |
| ClaimRegistry.LockClaim | pallets/crowd/src/lib.rs:218-244 | Errors in order: `ProofAlreadyLocked`, then `ProofNotClaimed`, then `NotProofOwner`. Succeeds iff the proof is unlocked and owned by the caller, and then only sets `Prooflocks[proof] = (caller, secret)`. The event carries the secret. |
| ClaimRegistry.CreatePshAddress | pallets/crowd/src/lib.rs:246-269 | Succeeds iff the address is unregistered, and then stores (caller, block) in `P2shaddress` only. Otherwise fails with `ProofAlreadyClaimed`. |
| ClaimRegistry.RevokeClaim | pallets/crowd/src/lib.rs:271-297 | `NoSuchProof` first, then `NotProofOwner`. Succeeds iff the caller owns the proof, and then removes only that `Proofs` entry. Any lock stays. |
| ClaimProtocol.CallIsLocal | pallets/crowd/src/lib.rs:142-297 | Every call leaves every key other than the one it names with the same claim, lock and address entries. |
| ClaimProtocol.AddressTableIndependent | pallets/crowd/src/lib.rs:257-263 | Claim calls never change `P2shaddress`, and `create_pshaddress` never changes `Proofs` or `Prooflocks`. |
| ClaimProtocol.DuplicateAddressRefused | pallets/crowd/src/lib.rs:257 | A registered address is refused again in every state with the same address table, whatever the claims on the same bytes are. |
| ClaimProtocol.OwnershipMovesOnlyWithSecret | pallets/crowd/src/lib.rs:185-199 | A claim that survives any call keeps its creation block. It changes owner only through `update_claim` on that proof with the stored-or-empty secret, and the new owner is the signer. |
| ClaimProtocol.UpdateUnclaimedIsCreate | pallets/crowd/src/lib.rs:202-209 | On an unclaimed proof, `update_claim` with any secret leaves exactly the tables `create_claim` would. |
| ClaimProtocol.TransferBySecret | pallets/crowd/src/lib.rs:188-198 | A non-owner who presents the stored secret becomes the owner, and the creation block is kept. The lock becomes (caller, same secret), so the secret still authorises a transfer. |
| ClaimProtocol.OwnerUpdateIsNoop | pallets/crowd/src/lib.rs:192-199 | An `update_claim` by the owner with the stored secret succeeds and changes no table. |
| ClaimProtocol.SecretIsReusable | pallets/crowd/src/lib.rs:194-198 | After O locks with S, X can take the claim with S, and then Y can take it from X with the same S. The creation block is unchanged throughout. |
| ClaimProtocol.WrongSecretRefused | pallets/crowd/src/lib.rs:190-192 | Any other secret fails with `InvalidLock`, and the owner stays. |
| ClaimProtocol.EmptySecretTakeover | pallets/crowd/src/lib.rs:185-198 | On a claimed proof with no lock, any non-owner who presents the empty secret becomes the owner. The takeover stores the lock (caller, empty). After that, `lock_claim` by the new owner fails with `ProofAlreadyLocked`. |
| ClaimProtocol.RevokeReopens | pallets/crowd/src/lib.rs:281-291 | After a successful revoke the proof is unclaimed, `Prooflocks` is unchanged, and a `create_claim` by anyone succeeds. |
| ClaimProtocol.OrphanLockBlocksRelock | pallets/crowd/src/lib.rs:229-291 | Revoking a locked proof and re-claiming it succeed. The new owner's `lock_claim` then fails with `ProofAlreadyLocked`. |
| ClaimProtocol.LockSecretKeptByCall | pallets/crowd/src/lib.rs:196-198 | No call deletes a lock or changes its secret. |
| ClaimProtocol.LockSecretsPersist | pallets/crowd/src/lib.rs:190-237 | Over any sequence of calls, every stored lock survives with its secret unchanged. The bearer secret is never rotated. |
| ClaimProtocol.AddressesImmutable | pallets/crowd/src/lib.rs:247-269 | Over any sequence of calls, every registered address keeps its owner and block. |
| ClaimProtocol.CreationBlocksBounded | pallets/crowd/src/lib.rs:160-163 | Requests included at blocks up to h leave no claim or address stamped after h. |
| ClaimProtocol.CreationBlockKept | pallets/crowd/src/lib.rs:185-199 | Over any sequence of calls that does not revoke it, a claim stays in `Proofs` and keeps its creation block. A transfer never restamps it. |
| ClaimProtocol.AliceBobCarol | pallets/crowd/src/lib.rs:144-297 | In the scenario where Alice creates and locks, Bob transfers, Carol's wrong secret is refused and Bob revokes: Bob owns the proof before the revoke. Afterwards the proof is unclaimed and the lock (Bob, "xyz") remains. |
| Tight.RevokeClaim | pallets/tight/src/lib.rs:215-244 | Has the same error order and effect as crowd's `revoke_claim`, whatever total issuance it reads. |
| Tight.AgreesWithCrowd | pallets/tight/src/lib.rs:86-213 | Every claim call of the tight pallet has the crowd pallet's outcome: the same tables, event or error. |
| DocVerify.Submit | pallets/docverify/src/lib.rs:103-131 | Succeeds iff the hash is not in `Proofs`, and then stores (caller, block) there. `P2shaddress` and `Documentverify` are untouched. Otherwise fails with `ProofAlreadyClaimed`. |
| DocVerify.Verify | pallets/docverify/src/lib.rs:133-149 | Always returns `Ok`, with every table unchanged and no event. |
| DocVerify.Reject | pallets/docverify/src/lib.rs:151-167 | Always returns `Ok`, with every table unchanged and no event. |
| DocVerify.ResubmitRefused | pallets/docverify/src/lib.rs:117 | A submitted hash is refused on every later submission, by anyone. |
| DocVerify.ProofsAppendOnly | pallets/docverify/src/lib.rs:101-167 | Over any sequence of calls, every `Proofs` entry survives unchanged, and `P2shaddress` and `Documentverify` never change. |
| IdentitySel.InitialInfo | pallets/identitysel/src/lib.rs:390-415 | The record a registration builds: the e-mail as `Raw`, the password as `BlakeTwo256` of its digest, the filler in legal, image, web, account and the referral hash (so the referral is `Raw`, never a SHA-256 value), and two additional fields. |
| IdentitySel.RequestRegistration | pallets/identitysel/src/lib.rs:375-429 | Fails with `IdentityAlreadyClaimed` iff the e-mail is registered. Otherwise stores the record: `accountId` is the caller, the password hash is `BlakeTwo256(blake2(password))`, and the e-mail field is `Raw(email)`. Other entries and `EmailId` are unchanged. |
| IdentitySel.LoginAccess | pallets/identitysel/src/lib.rs:433-453 | An unknown e-mail gives `NoIdentity`. Succeeds iff the stored hash equals `BlakeTwo256` of the presented password's hash, and otherwise gives `LoginFailed`. |
| IdentitySel.ChangePassword | pallets/identitysel/src/lib.rs:456-488 | An unknown e-mail gives `NoIdentity`. Otherwise sets the new password hash and the filler account field. The caller becomes `accountId`, with no ownership check. Other fields and entries are kept. |
| IdentitySel.SetReferal | pallets/identitysel/src/lib.rs:490-521 | An unknown e-mail gives `NoIdentity`. Otherwise sets the referral hash to `Sha256(sha2(referal))`, and the caller becomes `accountId`. |
| IdentitySel.CreateWeb3Link | pallets/identitysel/src/lib.rs:524-569 | Errors in order: `SignerNotmatching`, `NoIdentity`, then `ReferalFailed`. On success it does two writes: the referral becomes `Raw("null")` with `accountId` = signer, and `EmailId[signer]` = e-mail. |
| IdentitySel.LoginWeb3 | pallets/identitysel/src/lib.rs:571-590 | An unknown e-mail gives `NoIdentity`. Succeeds iff the signer is the e-mail's `accountId`, and otherwise gives `LoginFailed`. |
| IdentitySel.SetAccessService | pallets/identitysel/src/lib.rs:593-626 | Fails with `NoIdentity` iff the target account has no binding that leads to an identity. Otherwise sets `web = Raw(service)` on that identity, keeps its `accountId`, and ignores the signer. |
| IdentitySel.CheckWeb3Access | pallets/identitysel/src/lib.rs:628-649 | Succeeds iff the signer's `EmailId` binding leads to an identity whose `web` is `Raw(service)`. A missing binding or identity gives `NoIdentity`, and a mismatch gives `ServiceAccessFailed`. |
| IdentityProps.RegisterThenLogin | pallets/identitysel/src/lib.rs:411-451 | After registration, a login succeeds exactly for passwords whose `blake2` hash equals the registered password's. |
| IdentityProps.RegisterTwiceRefused | pallets/identitysel/src/lib.rs:386 | A registered e-mail is refused with `IdentityAlreadyClaimed`, by anyone. |
| IdentityProps.LinkNeedsReferal | pallets/identitysel/src/lib.rs:409-550 | Directly after registration, any link fails with `ReferalFailed`, because the stored referral is raw filler. |
| IdentityProps.ChecksAreReadOnly | pallets/identitysel/src/lib.rs:433-649 | A password login, a web3 login or an access check, whether it succeeds or fails, leaves both tables unchanged. |
| IdentityProps.ChangePasswordThenLogin | pallets/identitysel/src/lib.rs:467-485 | After a password change to p, a login with p succeeds. The signer, whoever it is, becomes `accountId` and passes the web3 login. |
| IdentityProps.LinkThenWeb3Login | pallets/identitysel/src/lib.rs:557-584 | After a successful link, the signer is bound to the e-mail in `EmailId`, is its `accountId`, and passes `login_web3_sel16`. |
| IdentityProps.SetReferalThenLink | pallets/identitysel/src/lib.rs:503-550 | `set_referal_sel12(email, r)` followed by `create_web3link_sel15(email, signer, r)` from the same signer succeeds. |
| IdentityProps.ReferalSingleUse | pallets/identitysel/src/lib.rs:550-554 | After a successful link, a second link with any referral, by anyone, fails with `ReferalFailed`. |
| IdentityProps.ReferalStaysSpent | pallets/identitysel/src/lib.rs:503-554 | Over any sequence of calls without `set_referal_sel12` for the e-mail, a spent referral stays spent, and a link fails with `ReferalFailed`. |
| IdentityProps.GrantThenCheck | pallets/identitysel/src/lib.rs:602-646 | After `set_accessservice_sel17(id, s)`, `check_web3access_sel18(s)` by `id` succeeds, and the identity's `accountId` is unchanged. |
| IdentityProps.BindingsAlwaysResolve | pallets/identitysel/src/lib.rs:540-566 | Over any sequence of calls, every `EmailId` binding keeps leading to a registered identity, and no identity is removed. So the access check fails with `NoIdentity` exactly for signers that have no binding. |

## Left out

- Origins and `ensure_signed` are not modelled. The signer and the current block number are parameters.
- Weights, and the balances pallet's total issuance are not modelled. Tight's `revoke_claim` takes total issuance as a parameter and ignores it.
- Event deposit is modelled only as the value a successful claim call returns. The identity calls emit no events.
- `create_nft` in tight and docverify is left out, because it calls other pallets (`orml_nft`, identitysel) and discards the result.
- No modelled call uses these declarations, so they are left out:
  - in crowd: `FundInfo`, `MetaData`, `StakeCurrency` and the lock identifier;
  - in identitysel: `Tokens`, `IdentityOf`, `SuperOf`, `SubsOf`, `Registrars`, `Useridentities`, and the deposit and registrar configuration.
  - `IdentityOf` is read only by docverify's `create_nft` (through the `identity` getter), which is
    left out as said above; that call also invokes `check_web3access_sel18` and discards its result.
- The commented-out calls in crowd and docverify are left out.
- The runtime wiring in pallets/docverify/src/mocks.rs is left out.
- pallets/crowd/src/tests.rs is stale: it calls an `add_value` the crowd pallet does not define, and nothing in it is modelled.
- `blake2_256` and `sha2_256` are uninterpreted. They are passed as the `Hashers` parameter, so every identity property holds for any hash functions.
- `Data`'s definition (types.rs) is not part of this model. Only the variants `Raw`, `BlakeTwo256` and `Sha256` are modelled, and they are distinct. A `Raw` is assumed to hold at most 32 bytes.
- `RegistrationSel`'s judgements and deposit are not modelled: every write resets them to empty and zero.
- `IdentityInfoSel`'s `pgp_fingerprint` is not modelled: registration sets it to `None` and every other write copies it from the stored record.
- The `BoundedVec` conversions ending in `try_into().unwrap()` become `requires` clauses on lengths. Each holds only on the path where the source performs that conversion.
- In `IdentitySel.Next`, a request whose conversion would panic is treated as having no effect on the tables.
- `document_verify_sel32` and `document_reject_sel33` do not even check the origin. The model gives them an origin account that they ignore.
