/**
 * The Balances pallet: a ledger from account to `u128` balance, in which an
 * account without an entry holds zero.
 */
module Balances {
  import opened Wrappers
  import opened Types
  import opened Support

  type Ledger = map<AccountId, U128>

  /** The dispatchable calls of the pallet (`balances::Call`). */
  datatype Call = Transfer(to: AccountId, amount: U128)

  /** `balance`: the stored balance of `who`, zero when there is no entry. */
  function BalanceOf(ledger: Ledger, who: AccountId): (r: U128)
    ensures who !in ledger ==> r == 0
    ensures who in ledger ==> r == ledger[who]
  {
    if who in ledger then ledger[who] else 0
  }

  /**
   * `transfer`: both checks are made on the balances read before any write;
   * only then are the two entries written, the caller's first and `to`'s
   * second, so when `caller == to` the second write wins.
   */
  function TransferStep(ledger: Ledger, caller: AccountId, to: AccountId, amount: U128): (r: (Ledger, DispatchResult))
    // Underflow of the caller's balance: nothing is written.
    ensures amount > BalanceOf(ledger, caller) ==> r == (ledger, Err(NOT_ENOUGH_FUNDS))
    // Overflow of the receiver's balance: nothing is written.
    ensures amount <= BalanceOf(ledger, caller) && BalanceOf(ledger, to) + amount > U128_MAX ==>
              r == (ledger, Err(OVERFLOW))
    ensures r.1.Ok? <==> amount <= BalanceOf(ledger, caller) && BalanceOf(ledger, to) + amount <= U128_MAX
    // A transfer between two accounts moves `amount` from one to the other.
    ensures r.1.Ok? && caller != to ==>
              BalanceOf(r.0, caller) == BalanceOf(ledger, caller) - amount &&
              BalanceOf(r.0, to) == BalanceOf(ledger, to) + amount
    // A transfer to oneself credits `amount` without any debit.
    ensures r.1.Ok? && caller == to ==> BalanceOf(r.0, caller) == BalanceOf(ledger, caller) + amount
    // No other account is touched.
    ensures forall who :: who != caller && who != to ==> BalanceOf(r.0, who) == BalanceOf(ledger, who)
  {
    var callerBalance := BalanceOf(ledger, caller);
    var toBalance := BalanceOf(ledger, to);
    match CheckedSub(callerBalance, amount)
    case None => (ledger, Err(NOT_ENOUGH_FUNDS))
    case Some(newCallerBalance) =>
      match CheckedAdd(toBalance, amount)
      case None => (ledger, Err(OVERFLOW))
      case Some(newToBalance) => (ledger[caller := newCallerBalance][to := newToBalance], Ok)
  }

  /** `Dispatch::dispatch` of the pallet: routes the one call to `transfer`. */
  function DispatchStep(ledger: Ledger, caller: AccountId, call: Call): (r: (Ledger, DispatchResult))
    ensures r == TransferStep(ledger, caller, call.to, call.amount)
  {
    match call
    case Transfer(to, amount) => TransferStep(ledger, caller, to, amount)
  }

  /** The sum of all stored balances. */
  ghost function Total(ledger: Ledger): int
    decreases ledger.Keys
  {
    if ledger == map[] then 0
    else
      var who :| who in ledger;
      ledger[who] + Total(ledger - {who})
  }

  /** Any entry may be taken out of the sum first, not only the one `Total` picks. */
  lemma {:induction false} TotalRemove(ledger: Ledger, who: AccountId)
    requires who in ledger
    ensures Total(ledger) == ledger[who] + Total(ledger - {who})
    decreases ledger.Keys
  {
    var picked :| picked in ledger && Total(ledger) == ledger[picked] + Total(ledger - {picked});
    if picked != who {
      TotalRemove(ledger - {picked}, who);
      TotalRemove(ledger - {who}, picked);
      assert ledger - {picked} - {who} == ledger - {who} - {picked};
    }
  }

  /** Overwriting one entry changes the sum by the difference of the balances. */
  lemma TotalUpdate(ledger: Ledger, who: AccountId, amount: U128)
    ensures Total(ledger[who := amount]) == Total(ledger) - BalanceOf(ledger, who) + amount
  {
    TotalRemove(ledger[who := amount], who);
    assert ledger[who := amount] - {who} == ledger - {who};
    if who in ledger {
      TotalRemove(ledger, who);
    } else {
      assert ledger - {who} == ledger;
    }
  }

  /**
   * A transfer between two accounts conserves the sum of all balances; a
   * successful transfer to oneself raises it by `amount`; a failed one
   * leaves it as it was.
   */
  lemma TransferTotal(ledger: Ledger, caller: AccountId, to: AccountId, amount: U128)
    ensures Total(TransferStep(ledger, caller, to, amount).0) ==
            Total(ledger) + (if TransferStep(ledger, caller, to, amount).1.Ok? && caller == to then amount else 0)
  {
    var callerBalance, toBalance := BalanceOf(ledger, caller), BalanceOf(ledger, to);
    if amount <= callerBalance && toBalance + amount <= U128_MAX {
      var debited := ledger[caller := callerBalance - amount];
      TotalUpdate(ledger, caller, callerBalance - amount);
      TotalUpdate(debited, to, toBalance + amount);
      assert TransferStep(ledger, caller, to, amount).0 == debited[to := toBalance + amount];
    }
  }

  /** The pallet's state: the ledger, updated in place. */
  class Pallet {
    var balances: Ledger

    /** `Pallet::new`: an empty ledger. */
    constructor ()
      ensures balances == map[]
    {
      balances := map[];
    }

    /** `set_balance`: overwrites the entry of `who` and no other. */
    method SetBalance(who: AccountId, amount: U128)
      modifies this
      ensures balances == old(balances)[who := amount]
      ensures Balance(who) == amount
      ensures forall other :: other != who ==> Balance(other) == old(Balance(other))
    {
      balances := balances[who := amount];
    }

    /** `balance`: the stored balance of `who`, zero when absent. */
    function Balance(who: AccountId): (r: U128)
      reads this
      ensures r == BalanceOf(balances, who)
    {
      if who in balances then balances[who] else 0
    }

    /** `transfer`, checked subtraction then checked addition, then two inserts. */
    method Transfer(caller: AccountId, to: AccountId, amount: U128) returns (r: DispatchResult)
      modifies this
      ensures (balances, r) == TransferStep(old(balances), caller, to, amount)
    {
      var callerBalance := Balance(caller);
      var toBalance := Balance(to);
      var newCallerBalance := CheckedSub(callerBalance, amount);
      if newCallerBalance.None? {
        return Err(NOT_ENOUGH_FUNDS);
      }
      var newToBalance := CheckedAdd(toBalance, amount);
      if newToBalance.None? {
        return Err(OVERFLOW);
      }
      balances := balances[caller := newCallerBalance.value];
      balances := balances[to := newToBalance.value];
      r := Ok;
    }

    /** `Dispatch::dispatch`: the result of the routed `transfer`, unchanged. */
    method Dispatch(caller: AccountId, call: Call) returns (r: DispatchResult)
      modifies this
      ensures (balances, r) == DispatchStep(old(balances), caller, call)
    {
      match call
      case Transfer(to, amount) =>
        r := Transfer(caller, to, amount);
    }
  }
}
