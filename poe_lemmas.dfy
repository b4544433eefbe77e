/** Properties of sequences of calls to the proof-of-existence pallet. */
module ProofOfExistenceLemmas {
  import opened ProofOfExistence

  /** One dispatchable call, as the runtime would sequence it. */
  datatype Call =
    | CreateCall(sender: AccountId, claim: Claim)
    | RevokeCall(sender: AccountId, claim: Claim)
    | TransferCall(sender: AccountId, claim: Claim, recv: AccountId)

  function Dispatch(s: State, call: Call, now: BlockNumber): Transition
  {
    match call
    case CreateCall(sender, claim) => Create(s, sender, claim, now)
    case RevokeCall(sender, claim) => Revoke(s, sender, claim)
    case TransferCall(sender, claim, recv) => Transfer(s, sender, claim, recv, now)
  }

  /** Applies the calls one at a time, each at the block number paired with it. */
  function Run(s: State, calls: seq<(Call, BlockNumber)>): State
    decreases |calls|
  {
    if calls == [] then s
    else Run(Dispatch(s, calls[0].0, calls[0].1).next, calls[1..])
  }

  const Genesis: State := State(map[], [])

  /** The owner recorded for each claim, without block numbers. */
  function Owners(m: Proofs): map<Claim, AccountId>
  {
    map c | c in m :: m[c].0
  }

  /** The effect of one event on the claim-to-owner map. */
  function Apply(owners: map<Claim, AccountId>, e: Event): map<Claim, AccountId>
  {
    match e
    case ClaimCreated(who, claim) => owners[claim := who]
    case ClaimRevoked(_, claim) => owners - {claim}
    case ClaimTransfered(_, claim, to) => owners[claim := to]
  }

  /** The claim-to-owner map an observer rebuilds from the event log alone. */
  function Replay(events: seq<Event>): map<Claim, AccountId>
  {
    if events == [] then map[] else Apply(Replay(events[..|events| - 1]), events[|events| - 1])
  }

  /** The event log accounts for the storage map: replaying it yields the current owners. */
  ghost predicate Audited(s: State)
  {
    Owners(s.proofs) == Replay(s.events)
  }

  lemma ReplaySnoc(events: seq<Event>, e: Event)
    ensures Replay(events + [e]) == Apply(Replay(events), e)
  {
    assert (events + [e])[..|events|] == events;
  }

  /** Rewriting an entry rewrites the owner map at that key only. */
  lemma OwnersUpdate(m: Proofs, k: Claim, v: (AccountId, BlockNumber))
    ensures Owners(m[k := v]) == Owners(m)[k := v.0]
  {
  }

  /** Removing an entry removes it from the owner map. */
  lemma OwnersRemove(m: Proofs, k: Claim)
    ensures Owners(m - {k}) == Owners(m) - {k}
  {
  }

  /** Every call keeps the event log in step with the storage map. */
  lemma DispatchKeepsAudited(s: State, call: Call, now: BlockNumber)
    requires Audited(s)
    ensures Audited(Dispatch(s, call, now).next)
  {
    if Dispatch(s, call, now).result.Ok? {
      match call
      case CreateCall(sender, claim) =>
        OwnersUpdate(s.proofs, claim, (sender, now));
        ReplaySnoc(s.events, ClaimCreated(sender, claim));
      case RevokeCall(sender, claim) =>
        OwnersRemove(s.proofs, claim);
        ReplaySnoc(s.events, ClaimRevoked(sender, claim));
      case TransferCall(sender, claim, recv) =>
        OwnersUpdate(s.proofs, claim, (recv, now));
        ReplaySnoc(s.events, ClaimTransfered(sender, claim, recv));
    }
  }

  /** Starting from an audited state, any sequence of calls ends in an audited state. */
  lemma {:induction false} RunKeepsAudited(s: State, calls: seq<(Call, BlockNumber)>)
    requires Audited(s)
    ensures Audited(Run(s, calls))
    decreases |calls|
  {
    if calls != [] {
      DispatchKeepsAudited(s, calls[0].0, calls[0].1);
      RunKeepsAudited(Dispatch(s, calls[0].0, calls[0].1).next, calls[1..]);
    }
  }

  /** From an empty registry, a claim is registered exactly when the event log, replayed,
      says it was created and not revoked since, and its owner is the account named by the
      last create or transfer event for it. */
  lemma RegistryMatchesEventLog(calls: seq<(Call, BlockNumber)>, claim: Claim)
    ensures var s := Run(Genesis, calls);
      && (claim in s.proofs <==> claim in Replay(s.events))
      && (claim in s.proofs ==> Owner(s.proofs, claim) == Replay(s.events)[claim])
  {
    assert Owners(Genesis.proofs) == map[];
    RunKeepsAudited(Genesis, calls);
    var s := Run(Genesis, calls);
    assert claim in s.proofs <==> claim in Owners(s.proofs);
  }

  /** A claim's owner changes only through a successful transfer of that claim, and then
      to exactly the account that transfer names. */
  lemma OwnerChangesOnlyByTransfer(s: State, call: Call, now: BlockNumber, claim: Claim)
    requires claim in s.proofs
    requires var n := Dispatch(s, call, now).next;
      claim in n.proofs && Owner(n.proofs, claim) != Owner(s.proofs, claim)
    ensures call.TransferCall? && call.claim == claim && Dispatch(s, call, now).result.Ok?
    ensures Owner(Dispatch(s, call, now).next.proofs, claim) == call.recv
  {
  }

  /** A claim can be registered only once: after a successful create, every create of the
      same claim fails with ProofAlreadyExist and changes nothing. */
  lemma CreateTwiceFails(s: State, a: AccountId, b: AccountId, claim: Claim, t0: BlockNumber, t1: BlockNumber)
    requires Create(s, a, claim, t0).result.Ok?
    ensures var s1 := Create(s, a, claim, t0).next;
      Create(s1, b, claim, t1) == Transition(Err(ProofAlreadyExist), s1)
  {
  }

  /** Revoking is not repeatable: after a successful revoke the claim is gone, so a second
      revoke of it fails with ClaimNotExist, whoever sends it. */
  lemma RevokeTwiceFails(s: State, a: AccountId, b: AccountId, claim: Claim)
    requires Revoke(s, a, claim).result.Ok?
    ensures var s1 := Revoke(s, a, claim).next;
      claim !in s1.proofs && Revoke(s1, b, claim) == Transition(Err(ClaimNotExist), s1)
  {
  }

  /** A transfer moves ownership rather than copying it: the new owner may transfer it back,
      and the previous owner, if different, may no longer revoke it. */
  lemma TransferMovesOwnership(s: State, o: AccountId, n: AccountId, claim: Claim, t0: BlockNumber, t1: BlockNumber)
    requires Transfer(s, o, claim, n, t0).result.Ok?
    ensures var s1 := Transfer(s, o, claim, n, t0).next;
      && Transfer(s1, n, claim, o, t1).result.Ok?
      && (n != o ==> Revoke(s1, o, claim).result == Err(NotClaimOwner))
      && (n != o ==> Transfer(s1, o, claim, n, t1).result == Err(NotClaimOwner))
  {
  }

  /** A failing call, of any kind, leaves the storage map and the event log as they were. */
  lemma FailureChangesNothing(s: State, call: Call, now: BlockNumber)
    requires Dispatch(s, call, now).result.Err?
    ensures Dispatch(s, call, now).next == s
  {
  }

  /** A walk through the three calls: alice creates, bob fails to revoke, alice transfers to
      carol, alice can no longer revoke, carol revokes and the claim is gone. */
  lemma {:induction false} Scenario(doc: Claim, t0: BlockNumber, t1: BlockNumber)
    ensures
      var alice, bob, carol := 1, 2, 3;
      var c := Create(Genesis, alice, doc, t0);
      var r1 := Revoke(c.next, bob, doc);
      var x := Transfer(r1.next, alice, doc, carol, t1);
      var r2 := Revoke(x.next, alice, doc);
      var r3 := Revoke(r2.next, carol, doc);
      && c.result == Ok && c.next.proofs[doc] == (alice, t0)
      && r1.result == Err(NotClaimOwner)
      && x.result == Ok && x.next.proofs[doc] == (carol, t1)
      && r2.result == Err(NotClaimOwner)
      && r3.result == Ok && doc !in r3.next.proofs
      && r3.next.events == [ClaimCreated(alice, doc), ClaimTransfered(alice, doc, carol), ClaimRevoked(carol, doc)]
  {
  }
}
