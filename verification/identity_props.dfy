/** Properties of the identity registry: the password and referral round
    trips, the single use of a referral, the service grant, and an invariant
    every sequence of calls keeps. */
module IdentityProps {
  import opened Common
  import opened IdentitySel

  /** After registering, a password login succeeds exactly for passwords
      with the registered password's hash. */
  lemma RegisterThenLogin(s: IdState, b: Bounds, h: Hashers, caller: AccountId, email: Bytes, password: Bytes, attempt: Bytes)
    requires |email| <= b.maxEmailSize && |email| <= RawCapacity && 2 <= b.maxAdditionalFields
    requires email !in s.identities
    ensures RequestRegistration(s, b, h, caller, email, password).Ok?
    ensures var s' := RequestRegistration(s, b, h, caller, email, password).value;
            LoginAccess(s', b, h, email, attempt).Ok? <==> h.blake2(attempt) == h.blake2(password)
  {
  }

  /** A registered e-mail cannot be registered again, by anyone. */
  lemma RegisterTwiceRefused(s: IdState, b: Bounds, h: Hashers, caller: AccountId, email: Bytes, password: Bytes,
                             caller': AccountId, password': Bytes)
    requires |email| <= b.maxEmailSize && |email| <= RawCapacity && 2 <= b.maxAdditionalFields
    requires email !in s.identities
    ensures var s' := RequestRegistration(s, b, h, caller, email, password).value;
            RequestRegistration(s', b, h, caller', email, password') == Err(IdentityAlreadyClaimed)
  {
  }

  /** A fresh registration carries the filler as its referral hash, which no
      SHA-256 value equals: linking needs `set_referal_sel12` first. */
  lemma LinkNeedsReferal(s: IdState, b: Bounds, h: Hashers, caller: AccountId, email: Bytes, password: Bytes,
                         linker: AccountId, referal: Bytes)
    requires |email| <= b.maxEmailSize && |email| <= RawCapacity && 2 <= b.maxAdditionalFields
    requires email !in s.identities
    ensures var s' := RequestRegistration(s, b, h, caller, email, password).value;
            CreateWeb3Link(s', b, h, linker, email, linker, referal) == Err(ReferalFailed)
  {
  }

  /** The password, login and service checks never write: dispatching them
      leaves both tables as they were, whether they succeed or fail. */
  lemma ChecksAreReadOnly(s: IdState, b: Bounds, h: Hashers, req: IdRequest)
    requires req.call.Login? || req.call.Web3Login? || req.call.CheckService?
    ensures Next(s, b, h, req) == s
  {
  }

  /** After `change_password_sel13(email, p)` a login with `p` succeeds, and
      the signer, whoever it is, is now the e-mail's account and passes the
      web3 login. */
  lemma ChangePasswordThenLogin(s: IdState, b: Bounds, h: Hashers, caller: AccountId, email: Bytes, password: Bytes)
    requires |email| <= b.maxEmailSize && |email| <= b.maxTokenId
    requires email in s.identities
    ensures ChangePassword(s, b, h, caller, email, password).Ok?
    ensures var s' := ChangePassword(s, b, h, caller, email, password).value;
            && LoginAccess(s', b, h, email, password).Ok?
            && s'.identities[email].accountId == caller
            && LoginWeb3(s', b, caller, email).Ok?
  {
  }

  /** After a successful link the signer's `EmailId` is the e-mail, the
      e-mail's account is the signer, and the signer passes the web3 login. */
  lemma LinkThenWeb3Login(s: IdState, b: Bounds, h: Hashers, caller: AccountId, email: Bytes, referal: Bytes)
    requires |email| <= b.maxEmailSize && |email| <= b.maxTokenId
    requires CreateWeb3Link(s, b, h, caller, email, caller, referal).Ok?
    ensures var s' := CreateWeb3Link(s, b, h, caller, email, caller, referal).value;
            && caller in s'.emailIds && s'.emailIds[caller] == email
            && BoundEmail(s', caller) == Some(email)
            && s'.identities[email].accountId == caller
            && LoginWeb3(s', b, caller, email).Ok?
  {
  }

  /** Setting a referral and then linking with it by the same signer succeeds. */
  lemma SetReferalThenLink(s: IdState, b: Bounds, h: Hashers, caller: AccountId, email: Bytes, referal: Bytes)
    requires |email| <= b.maxEmailSize
    requires email in s.identities
    ensures SetReferal(s, b, h, caller, email, referal).Ok?
    ensures var s' := SetReferal(s, b, h, caller, email, referal).value;
            CreateWeb3Link(s', b, h, caller, email, caller, referal).Ok?
  {
  }

  /** A referral is spent by the link it authorises: a second link, by
      anyone and with any referral, fails with `ReferalFailed`. */
  lemma ReferalSingleUse(s: IdState, b: Bounds, h: Hashers, caller: AccountId, email: Bytes, referal: Bytes,
                         caller': AccountId, referal': Bytes)
    requires |email| <= b.maxEmailSize
    requires CreateWeb3Link(s, b, h, caller, email, caller, referal).Ok?
    ensures var s' := CreateWeb3Link(s, b, h, caller, email, caller, referal).value;
            CreateWeb3Link(s', b, h, caller', email, caller', referal') == Err(ReferalFailed)
  {
  }

  /** No request in `reqs` sets a referral for `email`. */
  ghost predicate NoReferalFor(reqs: seq<IdRequest>, email: Bytes)
  {
    forall i :: 0 <= i < |reqs| ==> !(reqs[i].call.Referal? && reqs[i].call.email == email)
  }

  /** The e-mail is registered and its referral is spent. */
  ghost predicate Spent(s: IdState, email: Bytes)
  {
    email in s.identities && s.identities[email].info.referalHash == SpentReferal
  }

  lemma SpentKeptByCall(s: IdState, b: Bounds, h: Hashers, req: IdRequest, email: Bytes)
    requires Spent(s, email)
    requires !(req.call.Referal? && req.call.email == email)
    ensures Spent(Next(s, b, h, req), email)
  {
  }

  /** A spent referral stays spent, and so every link to that e-mail fails,
      until `set_referal_sel12` is called for it again. */
  lemma {:induction false} ReferalStaysSpent(s: IdState, b: Bounds, h: Hashers, reqs: seq<IdRequest>, email: Bytes,
                                             linker: AccountId, referal: Bytes)
    requires Spent(s, email)
    requires NoReferalFor(reqs, email)
    requires |email| <= b.maxEmailSize
    ensures Spent(Run(s, b, h, reqs), email)
    ensures CreateWeb3Link(Run(s, b, h, reqs), b, h, linker, email, linker, referal) == Err(ReferalFailed)
    decreases |reqs|
  {
    if |reqs| > 0 {
      SpentKeptByCall(s, b, h, reqs[0], email);
      assert NoReferalFor(reqs[1..], email) by {
        forall i | 0 <= i < |reqs[1..]|
          ensures !(reqs[1..][i].call.Referal? && reqs[1..][i].call.email == email)
        {
          assert reqs[1..][i] == reqs[i + 1];
        }
      }
      ReferalStaysSpent(Next(s, b, h, reqs[0]), b, h, reqs[1..], email, linker, referal);
    }
  }

  /** After `set_accessservice_sel17(id, svc)`, `id` passes the access check
      for `svc`, and the identity keeps its account. */
  lemma GrantThenCheck(s: IdState, id: AccountId, service: Bytes)
    requires |service| <= RawCapacity
    requires BoundEmail(s, id).Some?
    ensures SetAccessService(s, id, service).Ok?
    ensures var s' := SetAccessService(s, id, service).value;
            var e := BoundEmail(s, id).value;
            && CheckWeb3Access(s', id, service).Ok?
            && s'.identities[e].accountId == s.identities[e].accountId
  {
  }

  /** Every `EmailId` binding leads to a registered identity. */
  ghost predicate BindingsResolve(s: IdState)
  {
    forall a :: a in s.emailIds ==> s.emailIds[a] in s.identities
  }

  lemma BindingsKeptByCall(s: IdState, b: Bounds, h: Hashers, req: IdRequest)
    requires BindingsResolve(s)
    ensures BindingsResolve(Next(s, b, h, req))
    ensures s.identities.Keys <= Next(s, b, h, req).identities.Keys
  {
  }

  /** From a state whose bindings resolve, every sequence of calls keeps
      them resolving and removes no identity; so the access check fails with
      `NoIdentity` exactly for signers that never linked. */
  lemma {:induction false} BindingsAlwaysResolve(s: IdState, b: Bounds, h: Hashers, reqs: seq<IdRequest>, caller: AccountId)
    requires BindingsResolve(s)
    ensures BindingsResolve(Run(s, b, h, reqs))
    ensures s.identities.Keys <= Run(s, b, h, reqs).identities.Keys
    ensures BoundEmail(Run(s, b, h, reqs), caller).Some? <==> caller in Run(s, b, h, reqs).emailIds
    decreases |reqs|
  {
    if |reqs| > 0 {
      BindingsKeptByCall(s, b, h, reqs[0]);
      BindingsAlwaysResolve(Next(s, b, h, reqs[0]), b, h, reqs[1..], caller);
    }
  }
}
