/** The proof-of-existence pallet: a registry from a claim (an opaque byte string) to
    the account that owns it and the block at which it was last created or transferred. */
module ProofOfExistence {

  newtype byte = x: int | 0 <= x < 0x100

  /** A claim is the fingerprint being registered, usually a content hash. */
  type Claim = seq<byte>

  /** The runtime's account identifier; already verified by the time a call reaches the pallet. */
  type AccountId = nat

  /** The runtime's block number, read once per mutating call. */
  type BlockNumber = nat

  /** The `Proofs` storage map. */
  type Proofs = map<Claim, (AccountId, BlockNumber)>

  datatype Error = ProofAlreadyExist | ClaimNotExist | NotClaimOwner

  datatype Event =
    | ClaimCreated(who: AccountId, claim: Claim)
    | ClaimRevoked(who: AccountId, claim: Claim)
    | ClaimTransfered(who: AccountId, claim: Claim, to: AccountId)

  datatype DispatchResult = Ok | Err(error: Error)

  /** The pallet's observable state: its storage map and the events it has deposited. */
  datatype State = State(proofs: Proofs, events: seq<Event>)

  /** The outcome of one call: its result and the state after it. */
  datatype Transition = Transition(result: DispatchResult, next: State)

  /** `m` and `m'` hold the same entries at every key other than `k`. */
  ghost predicate SameElsewhere(m: Proofs, m': Proofs, k: Claim)
  {
    forall c :: c != k ==> (c in m <==> c in m') && (c in m ==> m[c] == m'[c])
  }

  function Owner(m: Proofs, claim: Claim): AccountId
    requires claim in m
  {
    m[claim].0
  }

  /** `create_claim`: registers `claim` for `sender` at block `now`, unless it is already registered. */
  function Create(s: State, sender: AccountId, claim: Claim, now: BlockNumber): (t: Transition)
    ensures t.result.Ok? <==> claim !in s.proofs
    ensures t.result.Err? ==> t.result.error == ProofAlreadyExist && t.next == s
    ensures t.result.Ok? ==>
      && t.next.proofs.Keys == s.proofs.Keys + {claim}
      && t.next.proofs[claim] == (sender, now)
      && SameElsewhere(s.proofs, t.next.proofs, claim)
      && t.next.events == s.events + [ClaimCreated(sender, claim)]
  {
    if claim in s.proofs then Transition(Err(ProofAlreadyExist), s)
    else Transition(Ok, State(s.proofs[claim := (sender, now)], s.events + [ClaimCreated(sender, claim)]))
  }

  /** `revoke_claim`: removes `claim`, which must exist and be owned by `sender`;
      existence is checked before ownership. */
  function Revoke(s: State, sender: AccountId, claim: Claim): (t: Transition)
    ensures t.result == Err(ClaimNotExist) <==> claim !in s.proofs
    ensures t.result == Err(NotClaimOwner) <==> claim in s.proofs && Owner(s.proofs, claim) != sender
    ensures t.result.Ok? <==> claim in s.proofs && Owner(s.proofs, claim) == sender
    ensures t.result.Err? ==> t.next == s
    ensures t.result.Ok? ==>
      && t.next.proofs.Keys == s.proofs.Keys - {claim}
      && SameElsewhere(s.proofs, t.next.proofs, claim)
      && t.next.events == s.events + [ClaimRevoked(sender, claim)]
  {
    if claim !in s.proofs then Transition(Err(ClaimNotExist), s)
    else
      var (owner, _) := s.proofs[claim];
      if owner != sender then Transition(Err(NotClaimOwner), s)
      else Transition(Ok, State(s.proofs - {claim}, s.events + [ClaimRevoked(sender, claim)]))
  }

  /** `transfer_claim`: hands `claim` to `recv` and stamps it with block `now`; the claim must
      exist and be owned by `sender`, existence being checked first. */
  function Transfer(s: State, sender: AccountId, claim: Claim, recv: AccountId, now: BlockNumber): (t: Transition)
    ensures t.result == Err(ClaimNotExist) <==> claim !in s.proofs
    ensures t.result == Err(NotClaimOwner) <==> claim in s.proofs && Owner(s.proofs, claim) != sender
    ensures t.result.Ok? <==> claim in s.proofs && Owner(s.proofs, claim) == sender
    ensures t.result.Err? ==> t.next == s
    ensures t.result.Ok? ==>
      && t.next.proofs.Keys == s.proofs.Keys
      && t.next.proofs[claim] == (recv, now)
      && SameElsewhere(s.proofs, t.next.proofs, claim)
      && t.next.events == s.events + [ClaimTransfered(sender, claim, recv)]
  {
    if claim !in s.proofs then Transition(Err(ClaimNotExist), s)
    else
      var (owner, _) := s.proofs[claim];
      if sender != owner then Transition(Err(NotClaimOwner), s)
      else Transition(Ok, State(s.proofs[claim := (recv, now)], s.events + [ClaimTransfered(sender, claim, recv)]))
  }

  /** The pallet as the runtime holds it: the `Proofs` storage map and the deposited events,
      both changed in place by the three dispatchable calls. */
  class Pallet {
    var proofs: Proofs
    var events: seq<Event>

    function Snapshot(): State
      reads this
    {
      State(proofs, events)
    }

    constructor ()
      ensures proofs == map[] && events == []
    {
      proofs := map[];
      events := [];
    }

    method CreateClaim(sender: AccountId, claim: Claim, now: BlockNumber) returns (r: DispatchResult)
      modifies this
      ensures Transition(r, Snapshot()) == Create(old(Snapshot()), sender, claim, now)
      ensures r.Err? ==> proofs == old(proofs) && events == old(events)
    {
      if claim in proofs {
        return Err(ProofAlreadyExist);
      }
      proofs := proofs[claim := (sender, now)];
      events := events + [ClaimCreated(sender, claim)];
      return Ok;
    }

    method RevokeClaim(sender: AccountId, claim: Claim) returns (r: DispatchResult)
      modifies this
      ensures Transition(r, Snapshot()) == Revoke(old(Snapshot()), sender, claim)
      ensures r.Err? ==> proofs == old(proofs) && events == old(events)
    {
      if claim !in proofs {
        return Err(ClaimNotExist);
      }
      var (owner, _) := proofs[claim];
      if owner != sender {
        return Err(NotClaimOwner);
      }
      proofs := proofs - {claim};
      events := events + [ClaimRevoked(sender, claim)];
      return Ok;
    }

    method TransferClaim(sender: AccountId, claim: Claim, recv: AccountId, now: BlockNumber) returns (r: DispatchResult)
      modifies this
      ensures Transition(r, Snapshot()) == Transfer(old(Snapshot()), sender, claim, recv, now)
      ensures r.Err? ==> proofs == old(proofs) && events == old(events)
    {
      if claim !in proofs {
        return Err(ClaimNotExist);
      }
      // The existence check above is what makes this lookup safe.
      var (owner, _) := proofs[claim];
      if sender != owner {
        return Err(NotClaimOwner);
      }
      proofs := proofs[claim := (recv, now)];
      events := events + [ClaimTransfered(sender, claim, recv)];
      return Ok;
    }
  }
}
