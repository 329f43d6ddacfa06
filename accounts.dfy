/** Account identities and an abstract balance ledger.

    The ledger is not part of the contract: it is how this model observes where
    native value ends up once the host has executed the transfers that the
    contract issues. An account missing from the map has balance zero. */
module Accounts {

  /** A NEAR account id, such as "dao.sputnik.near". */
  type AccountId = string

  /** Balances of native value, in yoctoNEAR. */
  type Ledger = map<AccountId, nat>

  function Bal(l: Ledger, a: AccountId): nat {
    if a in l then l[a] else 0
  }

  /** The host moves `amt` from `from` to `to`. A move the sender cannot
      fund is rejected by the host and changes nothing. */
  function Move(l: Ledger, from: AccountId, to: AccountId, amt: nat): (r: Ledger)
    ensures Bal(l, from) < amt ==> r == l
    ensures Bal(l, from) >= amt ==>
      forall a :: Bal(r, a) as int
        == Bal(l, a) - (if a == from then amt else 0) + (if a == to then amt else 0)
    ensures amt == 0 || from == to ==> r == l
  {
    if amt == 0 || from == to || Bal(l, from) < amt then l
    else
      var debited := l[from := Bal(l, from) - amt];
      debited[to := Bal(debited, to) + amt]
  }
}
