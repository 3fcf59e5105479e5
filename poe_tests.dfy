/**
 * The pallet's unit tests as client code of `Poe.PoeModule`: each method runs
 * the same calls on fresh storage and returns what the test observes. The
 * runtime's fingerprint bound is a parameter; the tests accept a 2-byte
 * fingerprint and refuse an 8-byte one, so it lies between 2 and 7.
 * Block numbers are parameters too.
 */
module PoeTests {
  import opened Frame
  import opened Poe

  /** Creating `[0, 1]` as account 1 succeeds and stores `(1, now)`. */
  method CreateClaimWorks(maxLen: nat, now: BlockNumber) returns (r: Result<(), Error>, stored: Claim)
    requires 2 <= maxLen
    ensures r.Ok? && stored == Claim(1, now)
  {
    var poe := new PoeModule(maxLen);
    r := poe.CreateClaim(1, [0, 1], now);
    stored := poe.Proof([0, 1]);
  }

  /** Creating `[0, 1]` a second time fails with `ProofAlreadyExist` and changes nothing. */
  method CreateClaimFailedWhenClaimAlreadyExist(maxLen: nat, now: BlockNumber)
    returns (r: Result<(), Error>, noop: bool)
    requires 2 <= maxLen
    ensures r == Err(ProofAlreadyExist) && noop
  {
    var poe := new PoeModule(maxLen);
    var _ := poe.CreateClaim(1, [0, 1], now);
    var proofs, events := poe.proofs, poe.events;
    r := poe.CreateClaim(1, [0, 1], now);
    noop := poe.proofs == proofs && poe.events == events;
  }

  /** Creating an 8-byte fingerprint fails with `ProofTooLong` and changes nothing. */
  method CreateClaimFailedWhenClaimIsTooLong(maxLen: nat, now: BlockNumber)
    returns (r: Result<(), Error>, noop: bool)
    requires 2 <= maxLen <= 7
    ensures r == Err(ProofTooLong) && noop
  {
    var poe := new PoeModule(maxLen);
    var proofs, events := poe.proofs, poe.events;
    r := poe.CreateClaim(1, [0, 1, 2, 4, 5, 6, 7, 8], now);
    noop := poe.proofs == proofs && poe.events == events;
  }

  /** The owner can revoke a claim it created; the entry is then gone. */
  method RevokeClaimWorks(maxLen: nat, created: BlockNumber) returns (r: Result<(), Error>, present: bool)
    requires 2 <= maxLen
    ensures r.Ok? && !present
  {
    var poe := new PoeModule(maxLen);
    var _ := poe.CreateClaim(1, [0, 1], created);
    r := poe.RevokeClaim(1, [0, 1]);
    present := [0, 1] in poe.proofs;
  }

  /** Revoking a fingerprint nobody claimed fails with `ClaimNotExist` and changes nothing. */
  method RevokeClaimFailedWhenIsNotExist(maxLen: nat) returns (r: Result<(), Error>, noop: bool)
    ensures r == Err(ClaimNotExist) && noop
  {
    var poe := new PoeModule(maxLen);
    var proofs, events := poe.proofs, poe.events;
    r := poe.RevokeClaim(1, [0, 1]);
    noop := poe.proofs == proofs && poe.events == events;
  }

  /** Revoking another account's claim fails with `NotClaimOwner` and leaves the entry alone. */
  method RevokeClaimFailedWithWrongOwner(maxLen: nat, created: BlockNumber)
    returns (r: Result<(), Error>, noop: bool, stored: Claim)
    requires 2 <= maxLen
    ensures r == Err(NotClaimOwner) && noop && stored == Claim(1, created)
  {
    var poe := new PoeModule(maxLen);
    var _ := poe.CreateClaim(1, [0, 1], created);
    var proofs, events := poe.proofs, poe.events;
    r := poe.RevokeClaim(2, [0, 1]);
    noop := poe.proofs == proofs && poe.events == events;
    stored := poe.Proof([0, 1]);
  }

  /** The owner can transfer a claim; it then reads `(2, now)`, owner and stamp both replaced. */
  method TransferClaimWorks(maxLen: nat, created: BlockNumber, now: BlockNumber)
    returns (r: Result<(), Error>, stored: Claim)
    requires 2 <= maxLen
    ensures r.Ok? && stored == Claim(2, now)
  {
    var poe := new PoeModule(maxLen);
    var _ := poe.CreateClaim(1, [0, 1], created);
    r := poe.TransferClaim(1, [0, 1], 2, now);
    stored := poe.Proof([0, 1]);
  }

  /**
   * Transferring another account's claim fails with `NotClaimOwner` and
   * changes nothing (the test that checks this is named for the absent case).
   */
  method TransferClaimFailedByNonOwner(maxLen: nat, created: BlockNumber, now: BlockNumber)
    returns (r: Result<(), Error>, noop: bool)
    requires 1 <= maxLen
    ensures r == Err(NotClaimOwner) && noop
  {
    var poe := new PoeModule(maxLen);
    var _ := poe.CreateClaim(1, [0], created);
    var proofs, events := poe.proofs, poe.events;
    r := poe.TransferClaim(2, [0], 2, now);
    noop := poe.proofs == proofs && poe.events == events;
  }

  /**
   * Transferring a fingerprint nobody claimed fails with `ClaimNotExist` and
   * changes nothing (the test that checks this is named for the wrong owner).
   */
  method TransferClaimFailedWhenAbsent(maxLen: nat, now: BlockNumber) returns (r: Result<(), Error>, noop: bool)
    ensures r == Err(ClaimNotExist) && noop
  {
    var poe := new PoeModule(maxLen);
    var proofs, events := poe.proofs, poe.events;
    r := poe.TransferClaim(1, [0], 2, now);
    noop := poe.proofs == proofs && poe.events == events;
  }
}
