/**
 * The custody ledger of the exchange: for every (token, user) pair the amount
 * of that token the exchange holds on the user's behalf. A pair that was never
 * credited reads as 0, exactly like an unset Solidity mapping entry.
 */
module Ledger {
  import opened Wrappers

  /** Token contracts and accounts are both identified by their address. */
  type Address = nat

  /** Ledger key: (token, user). */
  type Key = (Address, Address)

  type Ledger = map<Key, nat>

  /** The ledger entry of `user` for `token`, 0 when never set. */
  function Balance(l: Ledger, token: Address, user: Address): nat
  {
    if (token, user) in l then l[(token, user)] else 0
  }

  /** Adds `amount` to one entry. */
  function Credit(l: Ledger, token: Address, user: Address, amount: nat): (r: Ledger)
    ensures Balance(r, token, user) == Balance(l, token, user) + amount
    ensures forall t: Address, u: Address :: (t, u) != (token, user) ==> Balance(r, t, u) == Balance(l, t, u)
  {
    l[(token, user) := Balance(l, token, user) + amount]
  }

  /** Subtracts `amount` from one entry; `None` when the entry is too small (a checked-arithmetic revert). */
  function Debit(l: Ledger, token: Address, user: Address, amount: nat): (r: Option<Ledger>)
    ensures r.Some? <==> amount <= Balance(l, token, user)
    ensures r.Some? ==> Balance(r.value, token, user) == Balance(l, token, user) - amount
    ensures r.Some? ==> forall t: Address, u: Address :: (t, u) != (token, user) ==> Balance(r.value, t, u) == Balance(l, t, u)
  {
    if amount <= Balance(l, token, user) then Some(l[(token, user) := Balance(l, token, user) - amount])
    else None
  }

  /** Two ledgers that read the same for every pair. */
  ghost predicate SameBalances(l: Ledger, l': Ledger)
  {
    forall t: Address, u: Address :: Balance(l, t, u) == Balance(l', t, u)
  }

  /** The contribution of key `k` to the total of `token`. */
  function Share(l: Ledger, token: Address, k: Key): nat
  {
    if k.0 == token && k in l then l[k] else 0
  }

  /** The sum of the shares of `token` over the keys in `keys`. */
  ghost function SumOver(l: Ledger, token: Address, keys: set<Key>): nat
    decreases keys
  {
    if keys == {} then 0
    else
      var k :| k in keys;
      Share(l, token, k) + SumOver(l, token, keys - {k})
  }

  /** Everything the ledger owes to all users in `token`. */
  ghost function Total(l: Ledger, token: Address): nat
  {
    SumOver(l, token, l.Keys)
  }

  /** Any key may be taken out of the sum first, not only the one the definition picks. */
  lemma {:induction false} SumOverRemove(l: Ledger, token: Address, keys: set<Key>, k: Key)
    requires k in keys
    ensures SumOver(l, token, keys) == Share(l, token, k) + SumOver(l, token, keys - {k})
    decreases keys
  {
    var j :| j in keys && SumOver(l, token, keys) == Share(l, token, j) + SumOver(l, token, keys - {j});
    if j != k {
      SumOverRemove(l, token, keys - {j}, k);
      SumOverRemove(l, token, keys - {k}, j);
      assert keys - {j} - {k} == keys - {k} - {j};
    }
  }

  /** The sum over `keys` depends only on the shares of those keys. */
  lemma {:induction false} SumOverFrame(l: Ledger, l': Ledger, token: Address, keys: set<Key>)
    requires forall k :: k in keys ==> Share(l, token, k) == Share(l', token, k)
    ensures SumOver(l, token, keys) == SumOver(l', token, keys)
    decreases keys
  {
    if keys != {} {
      var k :| k in keys;
      SumOverRemove(l, token, keys, k);
      SumOverRemove(l', token, keys, k);
      SumOverFrame(l, l', token, keys - {k});
    }
  }

  /** Overwriting one entry changes the total of its token by the difference, and no other total. */
  lemma TotalUpdate(l: Ledger, token: Address, k: Key, v: nat)
    ensures Total(l[k := v], token) + Share(l, token, k) == Total(l, token) + (if k.0 == token then v else 0)
  {
    var l' := l[k := v];
    SumOverRemove(l', token, l'.Keys, k);
    SumOverFrame(l, l', token, l.Keys - {k});
    assert l'.Keys - {k} == l.Keys - {k};
    if k in l {
      SumOverRemove(l, token, l.Keys, k);
    } else {
      assert l.Keys - {k} == l.Keys;
    }
  }

  /** No single entry exceeds the total of its token. */
  lemma BalanceAtMostTotal(l: Ledger, token: Address, user: Address)
    ensures Balance(l, token, user) <= Total(l, token)
  {
    if (token, user) in l {
      SumOverRemove(l, token, l.Keys, (token, user));
    }
  }

  /** A credit raises the credited token's total by the amount and leaves every other total alone. */
  lemma CreditTotal(l: Ledger, token: Address, user: Address, amount: nat)
    ensures forall t: Address :: Total(Credit(l, token, user, amount), t) == Total(l, t) + (if t == token then amount else 0)
  {
    forall t: Address
      ensures Total(Credit(l, token, user, amount), t) == Total(l, t) + (if t == token then amount else 0)
    {
      TotalUpdate(l, t, (token, user), Balance(l, token, user) + amount);
    }
  }

  /** A successful debit lowers the debited token's total by the amount and leaves every other total alone. */
  lemma DebitTotal(l: Ledger, token: Address, user: Address, amount: nat)
    requires amount <= Balance(l, token, user)
    ensures forall t: Address :: Total(Debit(l, token, user, amount).value, t) + (if t == token then amount else 0) == Total(l, t)
  {
    forall t: Address
      ensures Total(Debit(l, token, user, amount).value, t) + (if t == token then amount else 0) == Total(l, t)
    {
      TotalUpdate(l, t, (token, user), Balance(l, token, user) - amount);
    }
  }

  /** Depositing and then withdrawing the same amount gives every pair its old balance back. */
  lemma CreditDebitRoundTrip(l: Ledger, token: Address, user: Address, amount: nat)
    ensures Debit(Credit(l, token, user, amount), token, user, amount).Some?
    ensures SameBalances(Debit(Credit(l, token, user, amount), token, user, amount).value, l)
  {
  }
}
