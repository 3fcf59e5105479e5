/**
 * The proof-of-existence pallet: a registry that maps a fingerprint (a byte
 * string, typically a content hash) to the account that claimed it and the
 * block in which it was last claimed or transferred.
 *
 * The three dispatchable calls are first given as pure state transitions
 * (`CreateStep`, `RevokeStep`, `TransferStep`) over the `Proofs` storage map,
 * with lemmas for the invariants the registry keeps; the class `PoeModule`
 * then holds the storage and the event log and updates them in place.
 */
module Poe {
  import opened Frame

  type Byte = x: int | 0 <= x < 256

  type Fingerprint = seq<Byte>

  /** The value stored under a fingerprint: its owner and the block it was stamped in. */
  datatype Claim = Claim(owner: AccountId, registeredAt: BlockNumber)

  /** The `Proofs` storage map. */
  type Proofs = map<Fingerprint, Claim>

  datatype Error = ProofTooLong | ProofAlreadyExist | ClaimNotExist | NotClaimOwner

  datatype Event =
    | ClaimCreated(who: AccountId, claim: Fingerprint)
    | ClaimRevoked(who: AccountId, claim: Fingerprint)
    | ClaimTransferred(who: AccountId, to: AccountId, claim: Fingerprint)

  /** A dispatchable call of the pallet, its caller already authenticated. */
  datatype Call =
    | Create(who: AccountId, claim: Fingerprint)
    | Revoke(who: AccountId, claim: Fingerprint)
    | Transfer(who: AccountId, claim: Fingerprint, to: AccountId)

  /** The effect of a successful call: the new storage and the event it deposits. */
  datatype Applied = Applied(proofs: Proofs, event: Event)

  /**
   * `Proofs::get` is a value query: a fingerprint without an entry reads as the
   * default claim `(0, 0)`.
   */
  function Get(proofs: Proofs, f: Fingerprint): Claim
  {
    if f in proofs then proofs[f] else Claim(0, 0)
  }

  /** Every key other than `f` has the same entry (or the same absence) in `a` and `b`. */
  ghost predicate SameExcept(a: Proofs, b: Proofs, f: Fingerprint)
  {
    forall g :: g != f ==> (g in a <==> g in b) && (g in a ==> a[g] == b[g])
  }

  /** No stored fingerprint is longer than the configured bound. */
  ghost predicate Bounded(proofs: Proofs, maxLen: nat)
  {
    forall f :: f in proofs ==> |f| <= maxLen
  }

  /** No entry is stamped with a block later than `now`. */
  ghost predicate StampedBy(proofs: Proofs, now: BlockNumber)
  {
    forall f :: f in proofs ==> proofs[f].registeredAt <= now
  }

  /** The set of accounts that own some claim. */
  ghost function Owners(proofs: Proofs): set<AccountId>
  {
    set f | f in proofs :: proofs[f].owner
  }

  /**
   * `create_claim`: a fingerprint longer than `maxLen` is refused first, then
   * one that is already claimed; otherwise the caller owns it from `now` on.
   */
  function CreateStep(proofs: Proofs, maxLen: nat, who: AccountId, f: Fingerprint, now: BlockNumber)
    : (r: Result<Applied, Error>)
    ensures r.Ok? <==> |f| <= maxLen && f !in proofs
    ensures r == Err(ProofTooLong) <==> |f| > maxLen
    ensures r == Err(ProofAlreadyExist) <==> |f| <= maxLen && f in proofs
    ensures r.Ok? ==> r.value.proofs.Keys == proofs.Keys + {f}
    ensures r.Ok? ==> r.value.proofs[f] == Claim(who, now) && SameExcept(proofs, r.value.proofs, f)
    ensures r.Ok? ==> r.value.event == ClaimCreated(who, f)
  {
    if |f| > maxLen then
      Err(ProofTooLong)
    else if f in proofs then
      Err(ProofAlreadyExist)
    else
      Ok(Applied(proofs[f := Claim(who, now)], ClaimCreated(who, f)))
  }

  /**
   * `revoke_claim`: only an existing claim, and only by its owner, can be
   * revoked; the entry is then removed.
   */
  function RevokeStep(proofs: Proofs, who: AccountId, f: Fingerprint): (r: Result<Applied, Error>)
    ensures r.Ok? <==> f in proofs && proofs[f].owner == who
    ensures r == Err(ClaimNotExist) <==> f !in proofs
    ensures r == Err(NotClaimOwner) <==> f in proofs && proofs[f].owner != who
    ensures r.Ok? ==> r.value.proofs.Keys == proofs.Keys - {f} && SameExcept(proofs, r.value.proofs, f)
    ensures r.Ok? ==> r.value.event == ClaimRevoked(who, f)
  {
    if f !in proofs then
      Err(ClaimNotExist)
    else if proofs[f].owner != who then
      Err(NotClaimOwner)
    else
      Ok(Applied(proofs - {f}, ClaimRevoked(who, f)))
  }

  /**
   * `transfer_claim`: only an existing claim, and only by its owner, can be
   * transferred; both the owner and the block stamp are rewritten.
   */
  function TransferStep(proofs: Proofs, who: AccountId, f: Fingerprint, to: AccountId, now: BlockNumber)
    : (r: Result<Applied, Error>)
    ensures r.Ok? <==> f in proofs && proofs[f].owner == who
    ensures r == Err(ClaimNotExist) <==> f !in proofs
    ensures r == Err(NotClaimOwner) <==> f in proofs && proofs[f].owner != who
    ensures r.Ok? ==> r.value.proofs.Keys == proofs.Keys
    ensures r.Ok? ==> r.value.proofs[f] == Claim(to, now) && SameExcept(proofs, r.value.proofs, f)
    ensures r.Ok? ==> r.value.event == ClaimTransferred(who, to, f)
  {
    if f !in proofs then
      Err(ClaimNotExist)
    else if proofs[f].owner != who then
      Err(NotClaimOwner)
    else
      Ok(Applied(proofs[f := Claim(to, now)], ClaimTransferred(who, to, f)))
  }

  /** Dispatches one call against the storage at block `now`. */
  function Dispatch(proofs: Proofs, maxLen: nat, call: Call, now: BlockNumber): Result<Applied, Error>
  {
    match call
    case Create(who, f) => CreateStep(proofs, maxLen, who, f, now)
    case Revoke(who, f) => RevokeStep(proofs, who, f)
    case Transfer(who, f, to) => TransferStep(proofs, who, f, to, now)
  }

  /** The storage after one call: the new map on success, the old one on failure. */
  function After(proofs: Proofs, maxLen: nat, call: Call, now: BlockNumber): Proofs
  {
    match Dispatch(proofs, maxLen, call, now)
    case Ok(applied) => applied.proofs
    case Err(_) => proofs
  }

  /** A call together with the block it is executed in. */
  datatype Extrinsic = Extrinsic(call: Call, at: BlockNumber)

  /** The storage after a sequence of calls executed in order. */
  function Execute(proofs: Proofs, maxLen: nat, xs: seq<Extrinsic>): Proofs
    decreases |xs|
  {
    if xs == [] then proofs
    else Execute(After(proofs, maxLen, xs[0].call, xs[0].at), maxLen, xs[1..])
  }

  /** The blocks of a sequence of calls never go backwards and start no earlier than `now`. */
  ghost predicate Ordered(now: BlockNumber, xs: seq<Extrinsic>)
  {
    (forall i :: 0 <= i < |xs| ==> now <= xs[i].at) &&
    (forall i, j :: 0 <= i < j < |xs| ==> xs[i].at <= xs[j].at)
  }

  /** The accounts a sequence of calls names: callers and transfer recipients. */
  ghost function Named(xs: seq<Extrinsic>): set<AccountId>
    decreases |xs|
  {
    if xs == [] then {}
    else
      var c := xs[0].call;
      (if c.Transfer? then {c.who, c.to} else {c.who}) + Named(xs[1..])
  }

  // ---------------------------------------------------------------------------
  // Properties of single calls

  /** A fingerprint claimed by one account cannot be claimed again, by anyone. */
  lemma CreateTwiceFails(proofs: Proofs, maxLen: nat, c1: AccountId, c2: AccountId, f: Fingerprint,
                         h1: BlockNumber, h2: BlockNumber)
    requires CreateStep(proofs, maxLen, c1, f, h1).Ok?
    ensures CreateStep(CreateStep(proofs, maxLen, c1, f, h1).value.proofs, maxLen, c2, f, h2)
            == Err(ProofAlreadyExist)
  {
  }

  /** Revoking a claim just created by the same account gives back the original storage. */
  lemma CreateThenRevoke(proofs: Proofs, maxLen: nat, who: AccountId, f: Fingerprint, now: BlockNumber)
    requires CreateStep(proofs, maxLen, who, f, now).Ok?
    ensures RevokeStep(CreateStep(proofs, maxLen, who, f, now).value.proofs, who, f)
            == Ok(Applied(proofs, ClaimRevoked(who, f)))
  {
    var created := CreateStep(proofs, maxLen, who, f, now).value.proofs;
    assert created - {f} == proofs;
  }

  /**
   * Re-creating a revoked claim by its former owner, at the block it had been
   * stamped with, gives back the original storage.
   */
  lemma RevokeThenCreate(proofs: Proofs, maxLen: nat, who: AccountId, f: Fingerprint)
    requires Bounded(proofs, maxLen)
    requires RevokeStep(proofs, who, f).Ok?
    ensures CreateStep(RevokeStep(proofs, who, f).value.proofs, maxLen, who, f, proofs[f].registeredAt)
            == Ok(Applied(proofs, ClaimCreated(who, f)))
  {
    var revoked := RevokeStep(proofs, who, f).value.proofs;
    assert revoked[f := proofs[f]] == proofs;
  }

  /**
   * Transferring a claim back to its previous owner, at the block it had been
   * stamped with, gives back the original storage.
   */
  lemma TransferBack(proofs: Proofs, who: AccountId, f: Fingerprint, to: AccountId, now: BlockNumber)
    requires TransferStep(proofs, who, f, to, now).Ok?
    ensures TransferStep(TransferStep(proofs, who, f, to, now).value.proofs, to, f, who, proofs[f].registeredAt)
            == Ok(Applied(proofs, ClaimTransferred(to, who, f)))
  {
    var moved := TransferStep(proofs, who, f, to, now).value.proofs;
    assert moved[f := proofs[f]] == proofs;
  }

  /** A failed call leaves the storage exactly as it was, so repeating it fails the same way. */
  lemma FailureIsNoop(proofs: Proofs, maxLen: nat, call: Call, now: BlockNumber, later: BlockNumber)
    requires Dispatch(proofs, maxLen, call, now).Err?
    ensures After(proofs, maxLen, call, now) == proofs
    ensures Dispatch(After(proofs, maxLen, call, now), maxLen, call, later) == Dispatch(proofs, maxLen, call, now)
  {
  }

  /**
   * A call touches at most the fingerprint it names, and a claim whose owner
   * is not the caller comes through every call unchanged.
   */
  lemma OnlyOwnerMutates(proofs: Proofs, maxLen: nat, call: Call, now: BlockNumber, g: Fingerprint)
    requires g in proofs && proofs[g].owner != call.who
    ensures g in After(proofs, maxLen, call, now) && After(proofs, maxLen, call, now)[g] == proofs[g]
  {
  }

  /** Every call keeps the bound on fingerprint length. */
  lemma AfterKeepsBounded(proofs: Proofs, maxLen: nat, call: Call, now: BlockNumber)
    requires Bounded(proofs, maxLen)
    ensures Bounded(After(proofs, maxLen, call, now), maxLen)
  {
  }

  /** With a clock that does not go backwards, no entry is ever stamped in the future. */
  lemma AfterKeepsStamped(proofs: Proofs, maxLen: nat, call: Call, now: BlockNumber, later: BlockNumber)
    requires StampedBy(proofs, now) && now <= later
    ensures StampedBy(After(proofs, maxLen, call, later), later)
  {
  }

  /**
   * With a clock that does not go backwards, a call never moves a stamp back:
   * an entry that was there keeps its stamp or gets a later one, and a new
   * entry is stamped no earlier than `now`.
   */
  lemma AfterStampMonotone(proofs: Proofs, maxLen: nat, call: Call, now: BlockNumber, later: BlockNumber,
                           f: Fingerprint)
    requires StampedBy(proofs, now) && now <= later
    requires f in After(proofs, maxLen, call, later)
    ensures After(proofs, maxLen, call, later)[f].registeredAt >= (if f in proofs then proofs[f].registeredAt else now)
  {
  }

  /** A call never invents an owner: every owner afterwards was an owner before or is named by the call. */
  lemma AfterOwnersNamed(proofs: Proofs, maxLen: nat, call: Call, now: BlockNumber)
    ensures Owners(After(proofs, maxLen, call, now))
            <= Owners(proofs) + (if call.Transfer? then {call.who, call.to} else {call.who})
  {
  }

  // ---------------------------------------------------------------------------
  // Properties of whole sequences of calls

  /** Every sequence of calls keeps the bound on fingerprint length. */
  lemma {:induction false} ExecuteKeepsBounded(proofs: Proofs, maxLen: nat, xs: seq<Extrinsic>)
    requires Bounded(proofs, maxLen)
    ensures Bounded(Execute(proofs, maxLen, xs), maxLen)
    decreases |xs|
  {
    if xs != [] {
      AfterKeepsBounded(proofs, maxLen, xs[0].call, xs[0].at);
      ExecuteKeepsBounded(After(proofs, maxLen, xs[0].call, xs[0].at), maxLen, xs[1..]);
    }
  }

  /** The calls after the first are ordered from the first call's block on. */
  lemma OrderedTail(now: BlockNumber, xs: seq<Extrinsic>)
    requires Ordered(now, xs) && xs != []
    ensures Ordered(xs[0].at, xs[1..])
  {
  }

  /** With blocks that never go backwards, every stamp is at most the block of the last call. */
  lemma {:induction false} ExecuteKeepsStamped(proofs: Proofs, maxLen: nat, now: BlockNumber, xs: seq<Extrinsic>)
    requires StampedBy(proofs, now) && Ordered(now, xs)
    ensures StampedBy(Execute(proofs, maxLen, xs), if xs == [] then now else xs[|xs| - 1].at)
    decreases |xs|
  {
    if xs != [] {
      var p' := After(proofs, maxLen, xs[0].call, xs[0].at);
      AfterKeepsStamped(proofs, maxLen, xs[0].call, now, xs[0].at);
      var rest := xs[1..];
      OrderedTail(now, xs);
      ExecuteKeepsStamped(p', maxLen, xs[0].at, rest);
      if rest != [] {
        assert rest[|rest| - 1] == xs[|xs| - 1];
      }
    }
  }

  /**
   * With blocks that never go backwards, a fingerprint's stamp never goes
   * back: whatever happened to it in between, an entry present at the end is
   * stamped no earlier than it was at the start (or than `now`, if it was absent).
   */
  lemma {:induction false} ExecuteStampMonotone(proofs: Proofs, maxLen: nat, now: BlockNumber,
                                                 xs: seq<Extrinsic>, f: Fingerprint)
    requires StampedBy(proofs, now) && Ordered(now, xs)
    requires f in Execute(proofs, maxLen, xs)
    ensures Execute(proofs, maxLen, xs)[f].registeredAt >= (if f in proofs then proofs[f].registeredAt else now)
    decreases |xs|
  {
    if xs != [] {
      var at := xs[0].at;
      var p' := After(proofs, maxLen, xs[0].call, at);
      AfterKeepsStamped(proofs, maxLen, xs[0].call, now, at);
      OrderedTail(now, xs);
      ExecuteStampMonotone(p', maxLen, at, xs[1..], f);
      if f in p' {
        AfterStampMonotone(proofs, maxLen, xs[0].call, now, at, f);
      }
    }
  }

  /**
   * An account that makes none of the calls keeps every claim it owns, with
   * its stamp: only an owner can revoke or transfer a claim.
   */
  lemma {:induction false} ExecuteKeepsBystanderClaims(proofs: Proofs, maxLen: nat, xs: seq<Extrinsic>,
                                                        owner: AccountId, g: Fingerprint)
    requires g in proofs && proofs[g].owner == owner
    requires forall i :: 0 <= i < |xs| ==> xs[i].call.who != owner
    ensures g in Execute(proofs, maxLen, xs) && Execute(proofs, maxLen, xs)[g] == proofs[g]
    decreases |xs|
  {
    if xs != [] {
      OnlyOwnerMutates(proofs, maxLen, xs[0].call, xs[0].at, g);
      var rest := xs[1..];
      forall i | 0 <= i < |rest| ensures rest[i].call.who != owner {
        assert rest[i] == xs[i + 1];
      }
      ExecuteKeepsBystanderClaims(After(proofs, maxLen, xs[0].call, xs[0].at), maxLen, rest, owner, g);
    }
  }

  /** The registry never fabricates identities: every owner was one at the start or is named by a call. */
  lemma {:induction false} ExecuteOwnersNamed(proofs: Proofs, maxLen: nat, xs: seq<Extrinsic>)
    ensures Owners(Execute(proofs, maxLen, xs)) <= Owners(proofs) + Named(xs)
    decreases |xs|
  {
    if xs != [] {
      AfterOwnersNamed(proofs, maxLen, xs[0].call, xs[0].at);
      ExecuteOwnersNamed(After(proofs, maxLen, xs[0].call, xs[0].at), maxLen, xs[1..]);
    }
  }

  // ---------------------------------------------------------------------------
  // The pallet's storage and event deposit, updated in place

  class PoeModule {
    /** The longest fingerprint the runtime accepts. */
    const maxLen: nat
    /** The `Proofs` storage map. */
    var proofs: Proofs
    /** Events deposited so far, oldest first. */
    var events: seq<Event>

    /**
     * The object invariant: every stored fingerprint is within `maxLen`. The
     * methods only carry it; it is what `RevokeThenCreate` needs for a revoked
     * claim to be re-created.
     */
    ghost predicate Valid()
      reads this
    {
      Bounded(proofs, maxLen)
    }

    constructor (maxLen: nat)
      ensures Valid()
      ensures this.maxLen == maxLen && proofs == map[] && events == []
    {
      this.maxLen := maxLen;
      proofs := map[];
      events := [];
    }

    /** `Proofs::get`: the claim stored under `f`, or `(0, 0)` when there is none. */
    function Proof(f: Fingerprint): (c: Claim)
      reads this
      ensures f in proofs ==> c == proofs[f]
      ensures f !in proofs ==> c == Claim(0, 0)
    {
      Get(proofs, f)
    }

    method CreateClaim(who: AccountId, f: Fingerprint, now: BlockNumber) returns (r: Result<(), Error>)
      requires Valid()
      modifies this
      ensures Valid()
      ensures r.Ok? <==> CreateStep(old(proofs), maxLen, who, f, now).Ok?
      ensures r.Err? ==> r.error == CreateStep(old(proofs), maxLen, who, f, now).error
      ensures r.Ok? ==> proofs == CreateStep(old(proofs), maxLen, who, f, now).value.proofs
                        && events == old(events) + [ClaimCreated(who, f)]
      ensures r.Err? ==> proofs == old(proofs) && events == old(events)
    {
      if |f| > maxLen {
        return Err(ProofTooLong);
      }
      if f in proofs {
        return Err(ProofAlreadyExist);
      }
      proofs := proofs[f := Claim(who, now)];
      events := events + [ClaimCreated(who, f)];
      r := Ok(());
    }

    method RevokeClaim(who: AccountId, f: Fingerprint) returns (r: Result<(), Error>)
      requires Valid()
      modifies this
      ensures Valid()
      ensures r.Ok? <==> RevokeStep(old(proofs), who, f).Ok?
      ensures r.Err? ==> r.error == RevokeStep(old(proofs), who, f).error
      ensures r.Ok? ==> proofs == RevokeStep(old(proofs), who, f).value.proofs
                        && events == old(events) + [ClaimRevoked(who, f)]
      ensures r.Err? ==> proofs == old(proofs) && events == old(events)
    {
      if f !in proofs {
        return Err(ClaimNotExist);
      }
      if proofs[f].owner != who {
        return Err(NotClaimOwner);
      }
      proofs := proofs - {f};
      events := events + [ClaimRevoked(who, f)];
      r := Ok(());
    }

    method TransferClaim(who: AccountId, f: Fingerprint, to: AccountId, now: BlockNumber)
      returns (r: Result<(), Error>)
      requires Valid()
      modifies this
      ensures Valid()
      ensures r.Ok? <==> TransferStep(old(proofs), who, f, to, now).Ok?
      ensures r.Err? ==> r.error == TransferStep(old(proofs), who, f, to, now).error
      ensures r.Ok? ==> proofs == TransferStep(old(proofs), who, f, to, now).value.proofs
                        && events == old(events) + [ClaimTransferred(who, to, f)]
      ensures r.Err? ==> proofs == old(proofs) && events == old(events)
    {
      if f !in proofs {
        return Err(ClaimNotExist);
      }
      if proofs[f].owner != who {
        return Err(NotClaimOwner);
      }
      proofs := proofs[f := Claim(to, now)];
      events := events + [ClaimTransferred(who, to, f)];
      r := Ok(());
    }
  }
}
