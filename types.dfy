/**
 * The concrete types the runtime instantiates its pallets with
 * (`mod types` and the `Config` impls): accounts are strings, balances are
 * `u128`, claimed content is a string. Block numbers and nonces are `u32` in
 * the source; they are owned by the system pallet and modelled as `nat`.
 */
module Types {
  import opened Wrappers

  type AccountId = string
  type Content = string
  type BlockNumber = nat
  type Nonce = nat

  /** Largest value of Rust's `u128`. */
  const U128_MAX: int := 0xFFFF_FFFF_FFFF_FFFF_FFFF_FFFF_FFFF_FFFF

  /** The balance type: an unsigned 128-bit integer. */
  type U128 = x: int | 0 <= x <= U128_MAX

  /** `CheckedSub::checked_sub` on `u128`: `None` exactly when the difference is negative. */
  function CheckedSub(a: U128, b: U128): (r: Option<U128>)
    ensures r.Some? <==> b <= a
    ensures r.Some? ==> r.value + b == a
  {
    if b <= a then Some(a - b) else None
  }

  /** `CheckedAdd::checked_add` on `u128`: `None` exactly when the sum exceeds `U128_MAX`. */
  function CheckedAdd(a: U128, b: U128): (r: Option<U128>)
    ensures r.Some? <==> a + b <= U128_MAX
    ensures r.Some? ==> r.value - b == a
  {
    if a + b <= U128_MAX then Some(a + b) else None
  }
}
