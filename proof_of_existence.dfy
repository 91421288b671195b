/**
 * The Proof-of-Existence pallet: a registry from content to the account that
 * claimed it. Being a map, it holds at most one owner per content.
 */
module ProofOfExistence {
  import opened Wrappers
  import opened Types
  import opened Support

  type Claims = map<Content, AccountId>

  /** The dispatchable calls of the pallet (written by a macro in the source). */
  datatype Call = CreateClaim(claim: Content) | RevokeClaim(claim: Content)

  /** `get_claim`: the owner of `claim`, if it is claimed. */
  function GetClaimOf(claims: Claims, claim: Content): (r: Option<AccountId>)
    ensures r.None? <==> claim !in claims
    ensures r.Some? ==> r.value == claims[claim]
  {
    if claim in claims then Some(claims[claim]) else None
  }

  /** `create_claim`: fails on claimed content, otherwise records `caller` as its owner. */
  function CreateClaimStep(claims: Claims, caller: AccountId, claim: Content): (r: (Claims, DispatchResult))
    ensures GetClaimOf(claims, claim).Some? ==> r == (claims, Err(ALREADY_CLAIMED))
    ensures GetClaimOf(claims, claim).None? ==> r.1 == Ok && GetClaimOf(r.0, claim) == Some(caller)
    ensures forall other :: other != claim ==> GetClaimOf(r.0, other) == GetClaimOf(claims, other)
  {
    if claim in claims then (claims, Err(ALREADY_CLAIMED))
    else (claims[claim := caller], Ok)
  }

  /**
   * `revoke_claim`: fails on unclaimed content and on content owned by
   * someone other than `caller`; otherwise removes the claim.
   */
  function RevokeClaimStep(claims: Claims, caller: AccountId, claim: Content): (r: (Claims, DispatchResult))
    ensures GetClaimOf(claims, claim).None? ==> r == (claims, Err(CLAIM_NOT_FOUND))
    ensures GetClaimOf(claims, claim).Some? && GetClaimOf(claims, claim).value != caller ==>
              r == (claims, Err(NOT_OWNER))
    ensures GetClaimOf(claims, claim) == Some(caller) ==> r.1 == Ok && GetClaimOf(r.0, claim).None?
    ensures forall other :: other != claim ==> GetClaimOf(r.0, other) == GetClaimOf(claims, other)
  {
    match GetClaimOf(claims, claim)
    case None => (claims, Err(CLAIM_NOT_FOUND))
    case Some(owner) =>
      if caller != owner then (claims, Err(NOT_OWNER))
      else (claims - {claim}, Ok)
  }

  /** `Dispatch::dispatch` of the pallet: routes each call to its operation. */
  function DispatchStep(claims: Claims, caller: AccountId, call: Call): (r: (Claims, DispatchResult))
    ensures call.CreateClaim? ==> r == CreateClaimStep(claims, caller, call.claim)
    ensures call.RevokeClaim? ==> r == RevokeClaimStep(claims, caller, call.claim)
  {
    match call
    case CreateClaim(claim) => CreateClaimStep(claims, caller, claim)
    case RevokeClaim(claim) => RevokeClaimStep(claims, caller, claim)
  }

  /**
   * Once its owner revokes a claim, any account can claim the content anew,
   * and the content is then owned by that account alone.
   */
  lemma RevokeThenReclaim(claims: Claims, owner: AccountId, newOwner: AccountId, claim: Content)
    requires GetClaimOf(claims, claim) == Some(owner)
    ensures var (revoked, revokeResult) := RevokeClaimStep(claims, owner, claim);
            var (reclaimed, createResult) := CreateClaimStep(revoked, newOwner, claim);
            revokeResult == Ok && createResult == Ok && GetClaimOf(reclaimed, claim) == Some(newOwner)
  {
  }

  /**
   * The sequence of calls of the pallet's unit test: a fresh registry has no
   * claims; alice claims; bob's claim is refused; alice revokes; bob claims.
   */
  lemma BasicProofOfExistence()
    ensures var empty: Claims := map[];
            var (c1, r1) := CreateClaimStep(empty, "alice", "Hello, world!");
            var (c2, r2) := CreateClaimStep(c1, "bob", "Hello, world!");
            var (c3, r3) := RevokeClaimStep(c2, "alice", "Hello, world!");
            var (c4, r4) := CreateClaimStep(c3, "bob", "Hello, world!");
            && GetClaimOf(empty, "Hello, world!") == None
            && r1 == Ok && GetClaimOf(c1, "Hello, world!") == Some("alice")
            && r2 == Err(ALREADY_CLAIMED)
            && r3 == Ok
            && r4 == Ok && GetClaimOf(c4, "Hello, world!") == Some("bob")
  {
  }

  /** The pallet's state: the claim registry, updated in place. */
  class Pallet {
    var claims: Claims

    /** `Pallet::new`: no content is claimed. */
    constructor ()
      ensures claims == map[]
      ensures forall claim :: GetClaim(claim) == None
    {
      claims := map[];
    }

    /** `get_claim`: a read of the registry. */
    function GetClaim(claim: Content): (r: Option<AccountId>)
      reads this
      ensures r == GetClaimOf(claims, claim)
    {
      if claim in claims then Some(claims[claim]) else None
    }

    /** `create_claim`: the early-return check, then one insert. */
    method CreateClaim(caller: AccountId, claim: Content) returns (r: DispatchResult)
      modifies this
      ensures (claims, r) == CreateClaimStep(old(claims), caller, claim)
    {
      if claim in claims {
        return Err(ALREADY_CLAIMED);
      }
      claims := claims[claim := caller];
      r := Ok;
    }

    /** `revoke_claim`: the two early-return checks, then one remove. */
    method RevokeClaim(caller: AccountId, claim: Content) returns (r: DispatchResult)
      modifies this
      ensures (claims, r) == RevokeClaimStep(old(claims), caller, claim)
    {
      var owner := GetClaim(claim);
      if owner.None? {
        return Err(CLAIM_NOT_FOUND);
      }
      if caller != owner.value {
        return Err(NOT_OWNER);
      }
      claims := claims - {claim};
      r := Ok;
    }

    /** `Dispatch::dispatch`: the result of the routed operation, unchanged. */
    method Dispatch(caller: AccountId, call: Call) returns (r: DispatchResult)
      modifies this
      ensures (claims, r) == DispatchStep(old(claims), caller, call)
    {
      match call
      case CreateClaim(claim) =>
        r := CreateClaim(caller, claim);
      case RevokeClaim(claim) =>
        r := RevokeClaim(caller, claim);
    }
  }
}
