/**
 * Unsigned 64-bit saturating arithmetic, as Rust's `u64::saturating_add`,
 * `saturating_mul` and `saturating_pow` provide it: the exact result when it
 * fits in 64 bits, `u64::MAX` otherwise.
 */
module Saturating {
  import opened Frame

  function Min(a: int, b: int): int
  {
    if a <= b then a else b
  }

  /** The exact power `base^exp` over the unbounded integers. */
  function Pow(base: nat, exp: nat): nat
  {
    if exp == 0 then 1 else base * Pow(base, exp - 1)
  }

  lemma Square(x: nat)
    ensures Pow(x, 2) == x * x
  {
    calc {
      Pow(x, 2);
      x * Pow(x, 1);
      { assert Pow(x, 1) == x * Pow(x, 0) == x; }
      x * x;
    }
  }

  /** `u64::saturating_add`, computed without leaving 64 bits. */
  function SaturatingAdd(a: U64, b: U64): (r: U64)
    ensures r == Min(a + b, MaxU64)
    ensures a <= r && b <= r
  {
    if a > MaxU64 - b then MaxU64 else a + b
  }

  /** Dividing first decides, without leaving 64 bits, whether `a * b` exceeds `u64::MAX`. */
  lemma MulFits(a: nat, b: nat, m: nat)
    ensures 0 < a && b > m / a ==> a * b > m
    ensures 0 < a && b <= m / a ==> a * b <= m
  {
    if 0 < a && b > m / a {
      assert b >= m / a + 1;
      assert a * b >= a * (m / a + 1) == a * (m / a) + a;
    } else if 0 < a {
      assert a * b <= a * (m / a);
    }
  }

  /** `u64::saturating_mul`, computed without leaving 64 bits. */
  function SaturatingMul(a: U64, b: U64): (r: U64)
    ensures r == Min(a * b, MaxU64)
  {
    MulFits(a, b, MaxU64);
    if a != 0 && b > MaxU64 / a then MaxU64 else a * b
  }

  lemma MulGrows(a: nat, b: nat)
    requires a != 0
    ensures a * b >= b
  {
  }

  /** `u64::saturating_pow`: the power, or `u64::MAX` once it no longer fits. */
  function SaturatingPow(base: U64, exp: nat): (r: U64)
    ensures r == Min(Pow(base, exp), MaxU64)
  {
    if exp == 0 then
      1
    else
      if base == 0 then
        SaturatingMul(base, SaturatingPow(base, exp - 1))
      else
        MulGrows(base, Pow(base, exp - 1));
        SaturatingMul(base, SaturatingPow(base, exp - 1))
  }
}

/**
 * The template pallet of the offchain-worker lesson: a `Numbers` storage map
 * from a block index to a number, a call that stores a number and deposits
 * `NumberAppended`, and the rule by which the offchain worker derives the next
 * number from the previous one.
 */
module Template {
  import opened Frame
  import opened Saturating

  /** The `Numbers` storage map. */
  type Numbers = map<U64, U64>

  datatype Event = NumberAppended(who: AccountId, index: U64, number: U64)

  /** The call the offchain worker submits: `save_number(index, number)`. */
  datatype Call = SaveNumber(index: U64, number: U64)

  /** Why `fetch_number_and_signed` gives up or panics. */
  datatype FetchError =
    | NoLocalAccounts      // no key of the pallet's key type in the keystore
    | BlockNumberTooLarge  // `try_into().ok().unwrap()` on a block number beyond u64
    | IndexOverflow        // `index + 1` at `index == u64::MAX`

  /** `Numbers::get` is a value query: an index without an entry reads as 0. */
  function Get(numbers: Numbers, index: U64): U64
  {
    if index in numbers then numbers[index] else 0
  }

  /** The number recorded for the previous index, or 0 for index 0. */
  function Latest(numbers: Numbers, index: U64): (r: U64)
    ensures index == 0 ==> r == 0
    ensures index > 0 && index - 1 in numbers ==> r == numbers[index - 1]
    ensures index > 0 && index - 1 !in numbers ==> r == 0
  {
    if index > 0 then Get(numbers, index - 1) else 0
  }

  /**
   * The next number: the previous index's number plus the square of
   * `index + 1`, both the square and the sum saturating at `u64::MAX`.
   */
  function NextNumber(numbers: Numbers, index: U64): (r: U64)
    requires index < MaxU64
    ensures r == Min(Latest(numbers, index) + Min((index + 1) * (index + 1), MaxU64), MaxU64)
    ensures Latest(numbers, index) <= r
  {
    Square(index + 1);
    SaturatingAdd(Latest(numbers, index), SaturatingPow(index + 1, 2))
  }

  /** When nothing saturates, the next number is exactly the previous one plus `(index + 1)^2`. */
  lemma NextNumberExact(numbers: Numbers, index: U64)
    requires index < MaxU64
    requires Latest(numbers, index) + (index + 1) * (index + 1) <= MaxU64
    ensures NextNumber(numbers, index) == Latest(numbers, index) + (index + 1) * (index + 1)
  {
  }

  /** Once the previous number is `u64::MAX`, every next number is `u64::MAX` too. */
  lemma NextNumberSticksAtMax(numbers: Numbers, index: U64)
    requires 0 < index < MaxU64
    requires Get(numbers, index - 1) == MaxU64
    ensures NextNumber(numbers, index) == MaxU64
  {
  }

  /**
   * What `fetch_number_and_signed` prepares for a block: the call
   * `save_number(index, number)` with the block number as index, or the error
   * or panic that stops it.
   */
  function Submission(numbers: Numbers, hasLocalAccounts: bool, blockNumber: BlockNumber)
    : (r: Result<Call, FetchError>)
    ensures r.Ok? <==> hasLocalAccounts && blockNumber < MaxU64
    ensures r == Err(NoLocalAccounts) <==> !hasLocalAccounts
    ensures r == Err(BlockNumberTooLarge) <==> hasLocalAccounts && blockNumber > MaxU64
    ensures r == Err(IndexOverflow) <==> hasLocalAccounts && blockNumber == MaxU64
    ensures r.Ok? ==> r.value.index == blockNumber
    ensures r.Ok? ==> r.value.number == NextNumber(numbers, blockNumber)
  {
    if !hasLocalAccounts then
      Err(NoLocalAccounts)
    else if blockNumber > MaxU64 then
      Err(BlockNumberTooLarge)
    else if blockNumber == MaxU64 then
      Err(IndexOverflow)
    else
      var index: U64 := blockNumber;
      Ok(SaveNumber(index, NextNumber(numbers, index)))
  }

  // ---------------------------------------------------------------------------
  // The running sum that the offchain worker builds

  /** The exact sum of `(k + 1)^2` for `k` from 0 to `n`. */
  function SumOfSquares(n: nat): nat
  {
    if n == 0 then 1 else SumOfSquares(n - 1) + (n + 1) * (n + 1)
  }

  /**
   * `Numbers` after the offchain worker has run at blocks `0 .. n - 1` in
   * order and each submitted `save_number` has been applied.
   */
  function Chain(numbers: Numbers, n: nat): Numbers
    requires n <= MaxU64
  {
    if n == 0 then numbers
    else
      var before := Chain(numbers, n - 1);
      var index: U64 := n - 1;
      before[index := NextNumber(before, index)]
  }

  /** One step of the running sum: saturating each addend gives the saturated exact sum. */
  lemma SaturatedStep(k: nat, latest: U64)
    requires k < MaxU64
    requires latest == (if k == 0 then 0 else Min(SumOfSquares(k - 1), MaxU64))
    ensures Min(latest + Min((k + 1) * (k + 1), MaxU64), MaxU64) == Min(SumOfSquares(k), MaxU64)
  {
  }

  /**
   * After the worker has run at blocks `0 .. n - 1`, index `k < n` holds the
   * sum of `(j + 1)^2` for `j` from 0 to `k`, saturated at `u64::MAX`, whatever
   * the storage held before.
   */
  lemma {:induction false} ChainIsSumOfSquares(numbers: Numbers, n: nat, k: nat)
    requires n <= MaxU64 && k < n
    ensures k in Chain(numbers, n) && Chain(numbers, n)[k] == Min(SumOfSquares(k), MaxU64)
  {
    var before := Chain(numbers, n - 1);
    if k < n - 1 {
      ChainIsSumOfSquares(numbers, n - 1, k);
    } else {
      if k > 0 {
        ChainIsSumOfSquares(numbers, n - 1, k - 1);
      }
      SaturatedStep(k, Latest(before, k));
    }
  }

  /** The worker's runs leave every index from `n` on as it was. */
  lemma {:induction false} ChainKeepsLater(numbers: Numbers, n: nat, k: U64)
    requires n <= MaxU64 && n <= k
    ensures k in Chain(numbers, n) <==> k in numbers
    ensures k in numbers ==> Chain(numbers, n)[k] == numbers[k]
  {
    if n > 0 {
      ChainKeepsLater(numbers, n - 1, k);
    }
  }

  // ---------------------------------------------------------------------------
  // The pallet's storage and event deposit, updated in place

  class TemplateModule {
    /** The `Numbers` storage map. */
    var numbers: Numbers
    /** Events deposited so far, oldest first. */
    var events: seq<Event>

    constructor ()
      ensures numbers == map[] && events == []
    {
      numbers := map[];
      events := [];
    }

    /** `Numbers::get`: the number stored under `index`, or 0 when there is none. */
    function Number(index: U64): (r: U64)
      reads this
      ensures index in numbers ==> r == numbers[index]
      ensures index !in numbers ==> r == 0
    {
      Get(numbers, index)
    }

    /** `add_number`: store `number` under `index`, overwriting, and deposit one event. */
    method AddNumber(who: AccountId, index: U64, number: U64)
      modifies this
      ensures numbers == old(numbers)[index := number]
      ensures events == old(events) + [NumberAppended(who, index, number)]
    {
      numbers := numbers[index := number];
      events := events + [NumberAppended(who, index, number)];
    }

    /** `save_number`: a signed call stores the number for its signer; any other origin changes nothing. */
    method SaveNumber(origin: Origin, index: U64, number: U64) returns (r: Result<(), DispatchError>)
      modifies this
      ensures r.Ok? <==> origin.Signed?
      ensures r.Err? ==> r.error == BadOrigin && numbers == old(numbers) && events == old(events)
      ensures r.Ok? ==> numbers == old(numbers)[index := number]
                        && events == old(events) + [NumberAppended(origin.who, index, number)]
    {
      var signed := EnsureSigned(origin);
      if signed.Err? {
        return Err(signed.error);
      }
      AddNumber(signed.value, index, number);
      r := Ok(());
    }

    /** The storage part of `fetch_number_and_signed`: the call it would submit for a block. */
    method FetchNumberAndSigned(hasLocalAccounts: bool, blockNumber: BlockNumber)
      returns (r: Result<Call, FetchError>)
      ensures r == Submission(numbers, hasLocalAccounts, blockNumber)
    {
      if !hasLocalAccounts {
        return Err(NoLocalAccounts);
      }
      if blockNumber > MaxU64 {
        return Err(BlockNumberTooLarge);
      }
      var index: U64 := blockNumber;
      var latest: U64 := 0;
      if index > 0 {
        latest := Number(index - 1);
      }
      if index == MaxU64 {
        return Err(IndexOverflow);
      }
      var number := SaturatingAdd(latest, SaturatingPow(index + 1, 2));
      r := Ok(Call.SaveNumber(index, number));
    }
  }
}
