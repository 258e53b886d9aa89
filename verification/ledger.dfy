/**
 * The external currency the pallets charge fees with, reduced to a balance map.
 * A transfer or withdrawal that cannot be paid fails, and the pallet call that
 * made it then fails as a whole.
 */
module Ledger {
  import opened Common

  type AccountId = nat
  type Balance = nat
  type Balances = map<AccountId, Balance>

  function BalanceOf(b: Balances, who: AccountId): Balance {
    if who in b then b[who] else 0
  }

  /** `Currency::transfer`: fails when `from` cannot pay `amount`. */
  function Transfer(b: Balances, from: AccountId, to: AccountId, amount: Balance): (r: Option<Balances>)
    ensures r.Some? <==> BalanceOf(b, from) >= amount
    ensures r.Some? && from != to ==>
              BalanceOf(r.value, from) == BalanceOf(b, from) - amount &&
              BalanceOf(r.value, to) == BalanceOf(b, to) + amount
    ensures r.Some? && from == to ==> r.value == b[from := BalanceOf(b, from)]
    ensures r.Some? ==> forall a | a != from && a != to :: BalanceOf(r.value, a) == BalanceOf(b, a)
  {
    if BalanceOf(b, from) < amount then None
    else
      var debited := b[from := BalanceOf(b, from) - amount];
      Some(debited[to := BalanceOf(debited, to) + amount])
  }

  /** `Currency::withdraw`: burns `amount` from `who`, failing when it cannot be paid. */
  function Withdraw(b: Balances, who: AccountId, amount: Balance): (r: Option<Balances>)
    ensures r.Some? <==> BalanceOf(b, who) >= amount
    ensures r.Some? ==> BalanceOf(r.value, who) == BalanceOf(b, who) - amount
    ensures r.Some? ==> forall a | a != who :: BalanceOf(r.value, a) == BalanceOf(b, a)
  {
    if BalanceOf(b, who) < amount then None
    else Some(b[who := BalanceOf(b, who) - amount])
  }
}
