/**
 * Runtime notions that both pallets rely on: account and block-number types,
 * unsigned 64-bit integers, dispatch results, and the origin of a call.
 */
module Frame {

  /** Accounts are plain numbers in the test runtime (`Origin::signed(1)`, `2u64`). */
  type AccountId = nat

  /** The height of the block a call is executed in; supplied by the host. */
  type BlockNumber = nat

  const MaxU64: nat := 0xFFFF_FFFF_FFFF_FFFF

  /** Rust's `u64`: the unbounded integers of Dafny restricted to 64 bits. */
  type U64 = x: nat | x <= MaxU64

  /** A dispatchable call either succeeds with a value or fails with an error. */
  datatype Result<+T, +E> = Ok(value: T) | Err(error: E)

  /** Who sent a call: a signed account, the root (sudo) origin, or nobody. */
  datatype Origin = Signed(who: AccountId) | Root | Unsigned

  datatype DispatchError = BadOrigin

  /** `ensure_signed`: the signer of a signed origin, `BadOrigin` for every other origin. */
  function EnsureSigned(origin: Origin): (r: Result<AccountId, DispatchError>)
    ensures r.Ok? <==> origin.Signed?
    ensures r.Ok? ==> r.value == origin.who
    ensures r.Err? ==> r.error == BadOrigin
  {
    match origin
    case Signed(who) => Ok(who)
    case _ => Err(BadOrigin)
  }
}
