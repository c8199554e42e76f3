/**
 * The OrderBookExchange contract as its test suite observes it: a custody
 * ledger per (token, user), the exchange's own holding of every token, a
 * sequential order table and the cancelled / completed flags per order.
 *
 * Every method either succeeds, returning the record (event) it emits, or
 * reverts: it returns the revert reason and leaves every field unchanged.
 * The caller (`msg.sender`) is an explicit parameter.
 */
module Exchange {
  import opened Wrappers
  import opened Ledger

  /** An order as stored in the contract's order table. */
  datatype Order = Order(id: nat, user: Address, tokenGet: Address, amountGet: nat, tokenGive: Address, amountGive: nat)

  /** Why a call reverted. */
  datatype Error = InsufficientBalance | TransferFailed | OrderNotFound | Unauthorized | AlreadyFinalized

  /** The records the contract emits; `OrderEvent` is the contract's `Order` event. */
  datatype Event =
    | Deposit(token: Address, user: Address, amount: nat, balance: nat)
    | Withdraw(token: Address, user: Address, amount: nat, balance: nat)
    | OrderEvent(id: nat, user: Address, tokenGet: Address, amountGet: nat, tokenGive: Address, amountGive: nat)
    | Cancel(id: nat, user: Address, tokenGet: Address, amountGet: nat, tokenGive: Address, amountGive: nat)
    | Trade(id: nat, user: Address, tokenGet: Address, amountGet: nat, tokenGive: Address, amountGive: nat, creator: Address)

  /**
   * The token's `transferFrom(caller, exchange, amount)` as the exchange relies on it:
   * it goes through when the caller approved the exchange for at least `amount`
   * and holds at least `amount` in its own wallet.
   */
  predicate TransferFromSucceeds(amount: nat, allowance: nat, wallet: nat)
  {
    amount <= allowance && amount <= wallet
  }

  /** The fee charged to the taker: `amountGet * feePercent / 100`, rounded down. */
  function Fee(amountGet: nat, feePercent: nat): (fee: nat)
    ensures fee * 100 <= amountGet * feePercent < fee * 100 + 100
  {
    amountGet * feePercent / 100
  }

  /**
   * Settlement of order `o` taken by `taker`: five ledger updates in turn, each debit
   * reverting the whole settlement when the entry is too small.
   */
  function Settle(l: Ledger, o: Order, taker: Address, feeAccount: Address, fee: nat): (r: Option<Ledger>)
    ensures r.Some? <==>
      && o.amountGive <= Balance(l, o.tokenGive, o.user)
      && o.amountGet + fee <= Balance(l, o.tokenGet, taker) + (if o.tokenGet == o.tokenGive && taker != o.user then o.amountGive else 0)
    ensures r.Some? ==> forall t: Address, u: Address ::
      (t != o.tokenGive && t != o.tokenGet) || (u != o.user && u != taker && u != feeAccount) ==>
        Balance(r.value, t, u) == Balance(l, t, u)
    ensures r.Some? ==> forall t: Address, u: Address ::
      Balance(r.value, t, u)
        + (if (t, u) == (o.tokenGive, o.user) then o.amountGive else 0)
        + (if (t, u) == (o.tokenGet, taker) then o.amountGet + fee else 0)
      == Balance(l, t, u)
        + (if (t, u) == (o.tokenGive, taker) then o.amountGive else 0)
        + (if (t, u) == (o.tokenGet, o.user) then o.amountGet else 0)
        + (if (t, u) == (o.tokenGet, feeAccount) then fee else 0)
  {
    match Debit(l, o.tokenGive, o.user, o.amountGive)
    case None => None
    case Some(l1) =>
      var l2 := Credit(l1, o.tokenGive, taker, o.amountGive);
      match Debit(l2, o.tokenGet, taker, o.amountGet + fee)
      case None => None
      case Some(l3) =>
        Some(Credit(Credit(l3, o.tokenGet, o.user, o.amountGet), o.tokenGet, feeAccount, fee))
  }

  /** Settlement moves balances between users but never changes what the ledger owes in any token. */
  lemma SettleConserves(l: Ledger, o: Order, taker: Address, feeAccount: Address, fee: nat)
    requires Settle(l, o, taker, feeAccount, fee).Some?
    ensures forall t: Address :: Total(Settle(l, o, taker, feeAccount, fee).value, t) == Total(l, t)
  {
    var l1 := Debit(l, o.tokenGive, o.user, o.amountGive).value;
    DebitTotal(l, o.tokenGive, o.user, o.amountGive);
    var l2 := Credit(l1, o.tokenGive, taker, o.amountGive);
    CreditTotal(l1, o.tokenGive, taker, o.amountGive);
    var l3 := Debit(l2, o.tokenGet, taker, o.amountGet + fee).value;
    DebitTotal(l2, o.tokenGet, taker, o.amountGet + fee);
    var l4 := Credit(l3, o.tokenGet, o.user, o.amountGet);
    CreditTotal(l3, o.tokenGet, o.user, o.amountGet);
    CreditTotal(l4, o.tokenGet, feeAccount, fee);
  }

  /**
   * With two different tokens and three different parties, settlement succeeds exactly when
   * the creator holds `amountGive` and the taker holds `amountGet + fee`, and then moves
   * exactly those amounts.
   */
  lemma SettleBetweenThreeParties(l: Ledger, o: Order, taker: Address, feeAccount: Address, fee: nat)
    requires o.tokenGet != o.tokenGive
    requires o.user != taker && o.user != feeAccount && taker != feeAccount
    ensures Settle(l, o, taker, feeAccount, fee).Some? <==>
      o.amountGive <= Balance(l, o.tokenGive, o.user) && o.amountGet + fee <= Balance(l, o.tokenGet, taker)
    ensures Settle(l, o, taker, feeAccount, fee).Some? ==>
      var r := Settle(l, o, taker, feeAccount, fee).value;
      && Balance(r, o.tokenGive, o.user) == Balance(l, o.tokenGive, o.user) - o.amountGive
      && Balance(r, o.tokenGive, taker) == Balance(l, o.tokenGive, taker) + o.amountGive
      && Balance(r, o.tokenGive, feeAccount) == Balance(l, o.tokenGive, feeAccount)
      && Balance(r, o.tokenGet, o.user) == Balance(l, o.tokenGet, o.user) + o.amountGet
      && Balance(r, o.tokenGet, taker) == Balance(l, o.tokenGet, taker) - (o.amountGet + fee)
      && Balance(r, o.tokenGet, feeAccount) == Balance(l, o.tokenGet, feeAccount) + fee
  {
  }

  /** The contract. `feeAccount` and `feePercent` are fixed at deployment. */
  class OrderBookExchange {
    const feeAccount: Address
    const feePercent: nat
    /** The custody ledger (the public `usertokens` mapping). */
    var usertokens: Ledger
    /** What each token contract reports as the exchange's own balance. */
    var custody: map<Address, nat>
    var orderCount: nat
    var orders: map<nat, Order>
    var cancelled: set<nat>
    var completed: set<nat>

    /** `token.balanceOf(exchange)`. */
    function Held(token: Address): nat
      reads this
    {
      if token in custody then custody[token] else 0
    }

    /**
     * The contract invariant: the ledger never owes more of a token than the exchange
     * holds; the order ids issued are exactly 1..orderCount; an order id is cancelled or
     * completed only once issued, and never both.
     */
    ghost predicate Valid()
      reads this
    {
      && (forall t: Address :: Total(usertokens, t) <= Held(t))
      && (forall id: nat :: id in orders <==> 1 <= id <= orderCount)
      && (forall id: nat :: id in orders ==> orders[id].id == id)
      && cancelled <= orders.Keys
      && completed <= orders.Keys
      && cancelled !! completed
    }

    /** Deployment with the fee recipient and the fee percentage. */
    constructor (feeAccount: Address, feePercent: nat)
      ensures Valid()
      ensures this.feeAccount == feeAccount && this.feePercent == feePercent
      ensures usertokens == map[] && custody == map[]
      ensures orderCount == 0 && orders == map[] && cancelled == {} && completed == {}
    {
      this.feeAccount := feeAccount;
      this.feePercent := feePercent;
      usertokens := map[];
      custody := map[];
      orderCount := 0;
      orders := map[];
      cancelled := {};
      completed := {};
    }

    /** `balanceOf(token, user)`: the ledger entry, which is also what `usertokens(token, user)` reads. */
    function BalanceOf(token: Address, user: Address): (b: nat)
      reads this
      ensures (token, user) in usertokens ==> b == usertokens[(token, user)]
      ensures (token, user) !in usertokens ==> b == 0
    {
      Balance(usertokens, token, user)
    }

    /** `orderCancelled(id)`: a cancelled id is an issued order that was not completed. */
    function OrderCancelled(id: nat): (c: bool)
      reads this
      requires Valid()
      ensures c ==> 1 <= id <= orderCount && !OrderCompleted(id)
    {
      id in cancelled
    }

    /** `orderCompleted(id)`: a completed id is an issued order that was not cancelled. */
    function OrderCompleted(id: nat): (c: bool)
      reads this
      requires Valid()
      ensures c ==> 1 <= id <= orderCount && id !in cancelled
    {
      id in completed
    }

    /**
     * `depositToken(token, amount)` by `caller`. The token pulls `amount` from the caller's
     * wallet; `allowance` is what the caller approved the exchange for, `wallet` what the
     * caller holds in the token.
     */
    method DepositToken(caller: Address, token: Address, amount: nat, allowance: nat, wallet: nat)
      returns (r: Result<Event, Error>)
      requires Valid()
      modifies this
      ensures Valid()
      ensures r.Ok? <==> TransferFromSucceeds(amount, allowance, wallet)
      ensures r.Ok? ==>
        && usertokens == Credit(old(usertokens), token, caller, amount)
        && BalanceOf(token, caller) == old(BalanceOf(token, caller)) + amount
        && custody == old(custody)[token := old(Held(token)) + amount]
        && r.value == Deposit(token, caller, amount, BalanceOf(token, caller))
      ensures r.Err? ==> r.error == TransferFailed && unchanged(this)
      ensures orderCount == old(orderCount) && orders == old(orders)
      ensures cancelled == old(cancelled) && completed == old(completed)
    {
      if !TransferFromSucceeds(amount, allowance, wallet) {
        return Err(TransferFailed);
      }
      CreditTotal(usertokens, token, caller, amount);
      custody := custody[token := Held(token) + amount];
      usertokens := Credit(usertokens, token, caller, amount);
      r := Ok(Deposit(token, caller, amount, BalanceOf(token, caller)));
    }

    /**
     * `withdrawToken(token, amount)` by `caller`: the ledger is debited first, then the
     * token is sent back; that transfer always goes through because of the invariant.
     */
    method WithdrawToken(caller: Address, token: Address, amount: nat) returns (r: Result<Event, Error>)
      requires Valid()
      modifies this
      ensures Valid()
      ensures r.Ok? <==> amount <= old(BalanceOf(token, caller))
      ensures r.Ok? ==>
        && usertokens == Debit(old(usertokens), token, caller, amount).value
        && BalanceOf(token, caller) == old(BalanceOf(token, caller)) - amount
        && custody == old(custody)[token := Held(token)]
        && Held(token) + amount == old(Held(token))
        && r.value == Withdraw(token, caller, amount, BalanceOf(token, caller))
      ensures r.Err? ==> r.error == InsufficientBalance && unchanged(this)
      ensures orderCount == old(orderCount) && orders == old(orders)
      ensures cancelled == old(cancelled) && completed == old(completed)
    {
      if BalanceOf(token, caller) < amount {
        return Err(InsufficientBalance);
      }
      BalanceAtMostTotal(usertokens, token, caller);
      DebitTotal(usertokens, token, caller, amount);
      usertokens := Debit(usertokens, token, caller, amount).value;
      custody := custody[token := Held(token) - amount];
      r := Ok(Withdraw(token, caller, amount, BalanceOf(token, caller)));
    }

    /**
     * `makeOrder(tokenGet, amountGet, tokenGive, amountGive)` by `caller`: allowed only when the
     * caller's ledger balance covers `amountGive`; nothing is escrowed.
     */
    method MakeOrder(caller: Address, tokenGet: Address, amountGet: nat, tokenGive: Address, amountGive: nat)
      returns (r: Result<Event, Error>)
      requires Valid()
      modifies this
      ensures Valid()
      ensures r.Ok? <==> amountGive <= old(BalanceOf(tokenGive, caller))
      ensures r.Ok? ==>
        && orderCount == old(orderCount) + 1
        && orders == old(orders)[orderCount := Order(orderCount, caller, tokenGet, amountGet, tokenGive, amountGive)]
        && r.value == OrderEvent(orderCount, caller, tokenGet, amountGet, tokenGive, amountGive)
      ensures r.Err? ==> r.error == InsufficientBalance && orderCount == old(orderCount) && orders == old(orders)
      ensures usertokens == old(usertokens) && custody == old(custody)
      ensures cancelled == old(cancelled) && completed == old(completed)
    {
      if BalanceOf(tokenGive, caller) < amountGive {
        return Err(InsufficientBalance);
      }
      orderCount := orderCount + 1;
      orders := orders[orderCount := Order(orderCount, caller, tokenGet, amountGet, tokenGive, amountGive)];
      r := Ok(OrderEvent(orderCount, caller, tokenGet, amountGet, tokenGive, amountGive));
    }

    /** `cancelOrder(id)` by `caller`. */
    method CancelOrder(caller: Address, id: nat) returns (r: Result<Event, Error>)
      requires Valid()
      modifies this
      ensures Valid()
      ensures !(1 <= id <= orderCount) ==> r == Err(OrderNotFound)
      ensures id in orders && orders[id].user != caller ==> r == Err(Unauthorized)
      ensures id in orders && orders[id].user == caller && (id in old(cancelled) || id in completed) ==>
        r == Err(AlreadyFinalized)
      ensures r.Ok? <==> id in orders && orders[id].user == caller && id !in old(cancelled) && id !in completed
      ensures r.Ok? ==>
        var o := orders[id];
        && cancelled == old(cancelled) + {id}
        && r.value == Cancel(id, caller, o.tokenGet, o.amountGet, o.tokenGive, o.amountGive)
      ensures r.Err? ==> cancelled == old(cancelled)
      ensures usertokens == old(usertokens) && custody == old(custody)
      ensures orderCount == old(orderCount) && orders == old(orders) && completed == old(completed)
    {
      if !(1 <= id <= orderCount) {
        return Err(OrderNotFound);
      }
      var o := orders[id];
      if o.user != caller {
        return Err(Unauthorized);
      }
      if id in cancelled || id in completed {
        return Err(AlreadyFinalized);
      }
      cancelled := cancelled + {id};
      r := Ok(Cancel(id, caller, o.tokenGet, o.amountGet, o.tokenGive, o.amountGive));
    }

    /**
     * `executeOrder(id)` by `caller` (the taker): the creator's `amountGive` of `tokenGive`
     * goes to the taker, the taker pays `amountGet` of `tokenGet` to the creator and the fee
     * to `feeAccount`.
     */
    method ExecuteOrder(caller: Address, id: nat) returns (r: Result<Event, Error>)
      requires Valid()
      modifies this
      ensures Valid()
      ensures !(1 <= id <= orderCount) ==> r == Err(OrderNotFound)
      ensures id in orders && (id in cancelled || id in old(completed)) ==> r == Err(AlreadyFinalized)
      ensures id in orders && id !in cancelled && id !in old(completed) ==>
        var o := orders[id];
        var settled := Settle(old(usertokens), o, caller, feeAccount, Fee(o.amountGet, feePercent));
        && (r.Ok? <==> settled.Some?)
        && (r.Err? ==> r.error == InsufficientBalance)
        && (r.Ok? ==> usertokens == settled.value)
      ensures r.Ok? ==>
        var o := orders[id];
        && completed == old(completed) + {id}
        && r.value == Trade(id, caller, o.tokenGet, o.amountGet, o.tokenGive, o.amountGive, o.user)
      ensures r.Err? ==> unchanged(this)
      ensures custody == old(custody) && orderCount == old(orderCount) && orders == old(orders)
      ensures cancelled == old(cancelled)
    {
      if !(1 <= id <= orderCount) {
        return Err(OrderNotFound);
      }
      var o := orders[id];
      if id in cancelled || id in completed {
        return Err(AlreadyFinalized);
      }
      var fee := Fee(o.amountGet, feePercent);
      // The five storage updates of the trade, each debit checked; a failing debit
      // reverts, leaving the ledger as it was.
      var giveTaken := Debit(usertokens, o.tokenGive, o.user, o.amountGive);
      if giveTaken.None? {
        return Err(InsufficientBalance);
      }
      var l := Credit(giveTaken.value, o.tokenGive, caller, o.amountGive);
      var getPaid := Debit(l, o.tokenGet, caller, o.amountGet + fee);
      if getPaid.None? {
        return Err(InsufficientBalance);
      }
      l := Credit(getPaid.value, o.tokenGet, o.user, o.amountGet);
      l := Credit(l, o.tokenGet, feeAccount, fee);
      assert Settle(usertokens, o, caller, feeAccount, fee) == Some(l);
      SettleConserves(usertokens, o, caller, feeAccount, fee);
      usertokens := l;
      completed := completed + {id};
      r := Ok(Trade(id, caller, o.tokenGet, o.amountGet, o.tokenGive, o.amountGive, o.user));
    }
  }
}
