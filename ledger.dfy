/** Ether accounting for the chain the marketplace runs on.

    Every account, the marketplace contract included, has a balance in wei.
    An account missing from the map holds 0. Value only ever moves by
    `Transfer`, which is proved to neither create nor destroy ether.
 */
module Ledger {

  /** An account or contract address; 0 is the zero address. */
  type Address = nat

  type Balances = map<Address, nat>

  /** The balance of `a`; 0 for an account the map does not mention. */
  function BalanceOf(m: Balances, a: Address): nat
  {
    if a in m then m[a] else 0
  }

  /** The total amount of ether held by all accounts together. */
  ghost function Total(m: Balances): nat
    decreases |m|
  {
    if m == map[] then 0
    else
      var a :| a in m;
      m[a] + Total(m - {a})
  }

  /** `Total` can split off any account, not only the one it picks. */
  lemma {:induction false} TotalRemove(m: Balances, a: Address)
    requires a in m
    ensures Total(m) == m[a] + Total(m - {a})
    decreases |m|
  {
    var b :| b in m && Total(m) == m[b] + Total(m - {b});
    if b != a {
      TotalRemove(m - {b}, a);
      TotalRemove(m - {a}, b);
      assert m - {b} - {a} == m - {a} - {b};
    }
  }

  /** Setting one balance changes the total by exactly the difference. */
  lemma {:induction false} TotalUpdate(m: Balances, a: Address, v: nat)
    ensures Total(m[a := v]) + BalanceOf(m, a) == Total(m) + v
  {
    TotalRemove(m[a := v], a);
    assert m[a := v] - {a} == m - {a};
    if a in m {
      TotalRemove(m, a);
    } else {
      assert m - {a} == m;
    }
  }

  /** No single account holds more than all accounts together. */
  lemma BalanceAtMostTotal(m: Balances, a: Address)
    ensures BalanceOf(m, a) <= Total(m)
  {
    if a in m {
      TotalRemove(m, a);
    }
  }

  /** Moves `amount` wei from `from` to `to`; the sender must hold it. */
  function Transfer(m: Balances, from: Address, to: Address, amount: nat): (r: Balances)
    requires amount <= BalanceOf(m, from)
    ensures from != to ==> BalanceOf(r, from) == BalanceOf(m, from) - amount
    ensures from != to ==> BalanceOf(r, to) == BalanceOf(m, to) + amount
    ensures from == to ==> BalanceOf(r, from) == BalanceOf(m, from)
    ensures forall a :: a != from && a != to ==> BalanceOf(r, a) == BalanceOf(m, a)
    ensures Total(r) == Total(m)
  {
    var debited := m[from := BalanceOf(m, from) - amount];
    var credited := debited[to := BalanceOf(debited, to) + amount];
    TotalUpdate(m, from, BalanceOf(m, from) - amount);
    TotalUpdate(debited, to, BalanceOf(debited, to) + amount);
    credited
  }
}
