/** Properties of the claim / lock / transfer registry: what one call does to
    a key, what a sequence of calls can and cannot do, and the behaviours that
    follow from reading an absent lock as an empty secret. */
module ClaimProtocol {
  import opened Common
  import opened Claims
  import opened ClaimRegistry

  // ---------------------------------------------------------------------
  // One call
  // ---------------------------------------------------------------------

  /** Every call touches at most the one key it names; every other key keeps
      its claim, its lock and its address entry. */
  lemma CallIsLocal(s: Registry, req: Request, k: Bytes)
    requires k != req.call.Key()
    ensures Unmoved(s, Next(s, req), k)
  {
  }

  /** The claim calls never touch `P2shaddress`, and `create_pshaddress` never
      touches `Proofs` or `Prooflocks`. */
  lemma AddressTableIndependent(s: Registry, req: Request)
    ensures !req.call.CreateAddress? ==> Next(s, req).addresses == s.addresses
    ensures req.call.CreateAddress? ==> Next(s, req).proofs == s.proofs && Next(s, req).locks == s.locks
  {
  }

  /** A duplicate address is refused whatever the claim state of the same
      bytes used as a proof. */
  lemma DuplicateAddressRefused(s: Registry, caller: AccountId, height: BlockNumber, address: Bytes)
    requires address in s.addresses
    ensures forall t: Registry {:trigger CreatePshAddress(t, caller, height, address)} ::
              t.addresses == s.addresses ==> CreatePshAddress(t, caller, height, address) == Err(ProofAlreadyClaimed)
  {
  }

  /** The security property of the registry. A claim that survives a call
      keeps its creation block, and changes owner only through
      `update_claim` presenting the stored secret (the empty one when no
      lock is stored), in which case the signer becomes the owner. */
  lemma OwnershipMovesOnlyWithSecret(s: Registry, req: Request, k: Bytes)
    requires k in s.proofs && k in Next(s, req).proofs
    ensures Next(s, req).proofs[k].createdAt == s.proofs[k].createdAt
    ensures Next(s, req).proofs[k].owner != s.proofs[k].owner ==>
              && req.call == Update(k, StoredSecret(s, k))
              && Next(s, req).proofs[k].owner == req.caller
  {
    if k != req.call.Key() {
      CallIsLocal(s, req, k);
    }
  }

  /** On an unclaimed proof, `update_claim` leaves exactly the tables that
      `create_claim` would, whatever secret was presented. */
  lemma UpdateUnclaimedIsCreate(s: Registry, caller: AccountId, height: BlockNumber, proof: Bytes, sentLock: Bytes)
    requires proof !in s.proofs
    ensures UpdateClaim(s, caller, height, proof, sentLock).Ok?
    ensures CreateClaim(s, caller, height, proof).Ok?
    ensures UpdateClaim(s, caller, height, proof, sentLock).value.state == CreateClaim(s, caller, height, proof).value.state
  {
  }

  /** A non-owner presenting the stored secret takes the claim over: the
      creation block is kept and the lock is rewritten with the new holder
      and the same secret, which therefore still authorises a transfer. */
  lemma TransferBySecret(s: Registry, caller: AccountId, height: BlockNumber, proof: Bytes)
    requires proof in s.proofs && s.proofs[proof].owner != caller
    ensures UpdateClaim(s, caller, height, proof, StoredSecret(s, proof)).Ok?
    ensures var s' := UpdateClaim(s, caller, height, proof, StoredSecret(s, proof)).value.state;
            && s'.proofs[proof] == Claim(caller, s.proofs[proof].createdAt)
            && proof in s'.locks && s'.locks[proof] == ProofLock(caller, StoredSecret(s, proof))
            && StoredSecret(s', proof) == StoredSecret(s, proof)
  {
  }

  /** The owner presenting the stored secret changes nothing. */
  lemma OwnerUpdateIsNoop(s: Registry, height: BlockNumber, proof: Bytes)
    requires proof in s.proofs
    ensures UpdateClaim(s, s.proofs[proof].owner, height, proof, StoredSecret(s, proof)).Ok?
    ensures UpdateClaim(s, s.proofs[proof].owner, height, proof, StoredSecret(s, proof)).value.state == s
  {
  }

  /** The secret is a bearer token, never rotated: once `O` locks with
      `secret`, `x` can take the claim with it, and then `y` can take it
      from `x` with the very same secret. */
  lemma SecretIsReusable(s: Registry, o: AccountId, x: AccountId, y: AccountId, h: BlockNumber, proof: Bytes, secret: Bytes)
    requires OwnerOf(s, proof) == Some(o) && proof !in s.locks
    requires x != o && y != x
    ensures var s1 := LockClaim(s, o, proof, secret);
            && s1.Ok?
            && var s2 := UpdateClaim(s1.value.state, x, h, proof, secret);
            && s2.Ok? && OwnerOf(s2.value.state, proof) == Some(x)
            && var s3 := UpdateClaim(s2.value.state, y, h, proof, secret);
            && s3.Ok? && OwnerOf(s3.value.state, proof) == Some(y)
            && s3.value.state.proofs[proof].createdAt == s.proofs[proof].createdAt
  {
    var s1 := LockClaim(s, o, proof, secret).value.state;
    assert StoredSecret(s1, proof) == secret;
    var s2 := UpdateClaim(s1, x, h, proof, secret).value.state;
    assert StoredSecret(s2, proof) == secret;
  }

  /** Any other secret is refused with `InvalidLock`, and the owner stays. */
  lemma WrongSecretRefused(s: Registry, caller: AccountId, height: BlockNumber, proof: Bytes, sentLock: Bytes)
    requires proof in s.proofs && sentLock != StoredSecret(s, proof)
    ensures UpdateClaim(s, caller, height, proof, sentLock) == Err(InvalidLock)
    ensures OwnerOf(Next(s, Request(caller, height, Update(proof, sentLock))), proof) == OwnerOf(s, proof)
  {
  }

  /** A claimed but unlocked proof reads as locked with the empty secret:
      anyone presenting the empty secret takes it over, and the takeover
      writes a lock record, so the new owner can no longer lock it. */
  lemma EmptySecretTakeover(s: Registry, caller: AccountId, height: BlockNumber, proof: Bytes, secret: Bytes)
    requires proof in s.proofs && proof !in s.locks
    requires caller != s.proofs[proof].owner
    ensures UpdateClaim(s, caller, height, proof, []).Ok?
    ensures var s' := UpdateClaim(s, caller, height, proof, []).value.state;
            && OwnerOf(s', proof) == Some(caller)
            && proof in s'.locks && s'.locks[proof] == ProofLock(caller, [])
            && LockClaim(s', caller, proof, secret) == Err(ProofAlreadyLocked)
  {
  }

  /** After a successful revoke the proof is unclaimed and anyone may claim
      it again, but a lock stored for it survives. */
  lemma RevokeReopens(s: Registry, caller: AccountId, proof: Bytes, other: AccountId, height: BlockNumber)
    requires RevokeClaim(s, caller, proof).Ok?
    ensures var s' := RevokeClaim(s, caller, proof).value.state;
            && OwnerOf(s', proof) == None
            && s'.locks == s.locks
            && CreateClaim(s', other, height, proof).Ok?
  {
  }

  /** The orphaned lock: revoke a locked proof, let someone claim it afresh,
      and that new owner's `lock_claim` fails with `ProofAlreadyLocked`. */
  lemma OrphanLockBlocksRelock(s: Registry, owner: AccountId, other: AccountId, height: BlockNumber, proof: Bytes, secret: Bytes)
    requires OwnerOf(s, proof) == Some(owner) && proof in s.locks
    ensures var s1 := RevokeClaim(s, owner, proof);
            && s1.Ok?
            && var s2 := CreateClaim(s1.value.state, other, height, proof);
            && s2.Ok?
            && LockClaim(s2.value.state, other, proof, secret) == Err(ProofAlreadyLocked)
  {
  }

  // ---------------------------------------------------------------------
  // Sequences of calls
  // ---------------------------------------------------------------------

  /** Once a key has a lock its secret never changes and the lock is never
      deleted: only the holder can be rewritten. */
  lemma LockSecretKeptByCall(s: Registry, req: Request)
    ensures forall k :: k in s.locks ==> k in Next(s, req).locks && Next(s, req).locks[k].secret == s.locks[k].secret
  {
  }

  lemma {:induction false} LockSecretsPersist(s: Registry, reqs: seq<Request>)
    ensures forall k :: k in s.locks ==> k in Run(s, reqs).locks && Run(s, reqs).locks[k].secret == s.locks[k].secret
    decreases |reqs|
  {
    if |reqs| > 0 {
      LockSecretKeptByCall(s, reqs[0]);
      LockSecretsPersist(Next(s, reqs[0]), reqs[1..]);
    }
  }

  /** A registered address keeps its owner and block forever. */
  lemma {:induction false} AddressesImmutable(s: Registry, reqs: seq<Request>)
    ensures forall k :: k in s.addresses ==> k in Run(s, reqs).addresses && Run(s, reqs).addresses[k] == s.addresses[k]
    decreases |reqs|
  {
    if |reqs| > 0 {
      AddressTableIndependent(s, reqs[0]);
      AddressesImmutable(Next(s, reqs[0]), reqs[1..]);
    }
  }

  /** No claim or address records a block later than `h`. */
  ghost predicate NothingFromTheFuture(s: Registry, h: BlockNumber)
  {
    && (forall k :: k in s.proofs ==> s.proofs[k].createdAt <= h)
    && (forall k :: k in s.addresses ==> s.addresses[k].createdAt <= h)
  }

  /** Requests included in blocks up to `h` leave no record stamped after
      `h`. */
  lemma {:induction false} CreationBlocksBounded(s: Registry, reqs: seq<Request>, h: BlockNumber)
    requires NothingFromTheFuture(s, h)
    requires forall i :: 0 <= i < |reqs| ==> reqs[i].height <= h
    ensures NothingFromTheFuture(Run(s, reqs), h)
    decreases |reqs|
  {
    if |reqs| > 0 {
      var s' := Next(s, reqs[0]);
      forall k | k in s'.proofs
        ensures s'.proofs[k].createdAt <= h
      {
        if k in s.proofs {
          OwnershipMovesOnlyWithSecret(s, reqs[0], k);
        }
      }
      AddressTableIndependent(s, reqs[0]);
      CreationBlocksBounded(s', reqs[1..], h);
    }
  }

  /** A claim that is not revoked keeps its creation block over any
      sequence of calls: a transfer never restamps it with its own block. */
  lemma {:induction false} CreationBlockKept(s: Registry, reqs: seq<Request>, k: Bytes)
    requires k in s.proofs
    requires forall i :: 0 <= i < |reqs| ==> reqs[i].call != Revoke(k)
    ensures k in Run(s, reqs).proofs
    ensures Run(s, reqs).proofs[k].createdAt == s.proofs[k].createdAt
    decreases |reqs|
  {
    if |reqs| > 0 {
      var s' := Next(s, reqs[0]);
      if k != reqs[0].call.Key() {
        CallIsLocal(s, reqs[0], k);
      }
      assert k in s'.proofs;
      OwnershipMovesOnlyWithSecret(s, reqs[0], k);
      assert forall i :: 0 <= i < |reqs[1..]| ==> reqs[1..][i].call != Revoke(k) by {
        forall i | 0 <= i < |reqs[1..]|
          ensures reqs[1..][i].call != Revoke(k)
        {
          assert reqs[1..][i] == reqs[i + 1];
        }
      }
      CreationBlockKept(s', reqs[1..], k);
    }
  }

  // ---------------------------------------------------------------------
  // A worked scenario
  // ---------------------------------------------------------------------

  /** Alice claims and locks a document with "xyz"; Bob takes it over with
      "xyz"; Carol's "wrong" is refused; Bob revokes, and the lock with
      "xyz" is still stored. */
  lemma AliceBobCarol(doc: Bytes, xyz: Bytes, wrong: Bytes)
    requires xyz != wrong
    ensures var alice, bob, carol := 1, 2, 3;
            var reqs := [Request(alice, 10, Create(doc)), Request(alice, 11, Lock(doc, xyz)),
                         Request(bob, 12, Update(doc, xyz)), Request(carol, 13, Update(doc, wrong)),
                         Request(bob, 14, Revoke(doc))];
            var s := Run(Genesis, reqs);
            && doc !in s.proofs
            && doc in s.locks && s.locks[doc] == ProofLock(bob, xyz)
            && OwnerOf(Run(Genesis, reqs[..4]), doc) == Some(bob)
  {
    var alice, bob, carol := 1, 2, 3;
    var reqs := [Request(alice, 10, Create(doc)), Request(alice, 11, Lock(doc, xyz)),
                 Request(bob, 12, Update(doc, xyz)), Request(carol, 13, Update(doc, wrong)),
                 Request(bob, 14, Revoke(doc))];
    var s1 := Next(Genesis, reqs[0]);
    var s2 := Next(s1, reqs[1]);
    var s3 := Next(s2, reqs[2]);
    var s4 := Next(s3, reqs[3]);
    var s5 := Next(s4, reqs[4]);
    assert s3.proofs[doc] == Claim(bob, 10);
    assert s4 == s3;
    assert Run(Genesis, reqs) == Run(s1, reqs[1..]);
    assert reqs[1..][1..] == reqs[2..] && reqs[2..][1..] == reqs[3..] && reqs[3..][1..] == reqs[4..];
    assert Run(s1, reqs[1..]) == Run(s2, reqs[2..]);
    assert Run(s2, reqs[2..]) == Run(s3, reqs[3..]);
    assert Run(s3, reqs[3..]) == Run(s4, reqs[4..]);
    assert Run(s4, reqs[4..]) == s5;
    var pre := reqs[..4];
    assert pre[1..][1..][1..][1..] == [];
    assert Run(Genesis, pre) == Run(s1, pre[1..]);
    assert Run(s1, pre[1..]) == Run(s2, pre[1..][1..]);
    assert Run(s2, pre[1..][1..]) == Run(s3, pre[1..][1..][1..]);
    assert Run(s3, pre[1..][1..][1..]) == s4;
  }
}
