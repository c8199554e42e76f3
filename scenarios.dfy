/**
 * The scenarios of the exchange's test suite, replayed against the model.
 * Addresses are arbitrary distinct numbers; one token is 10^18 base units.
 */
module ExchangeScenarios {
  import opened Wrappers
  import opened Ledger
  import opened Exchange

  const Ether: nat := 1_000_000_000_000_000_000
  const FeePercent: nat := 10

  const Deployer: Address := 0
  const FeeAccount: Address := 1
  const User1: Address := 2
  const User2: Address := 3
  const Token1: Address := 100
  const Token2: Address := 101

  /** Deployment records the fee account and the fee percentage. */
  method DeploymentScenario() returns (account: Address, percent: nat)
    ensures account == FeeAccount && percent == FeePercent
  {
    var ex := new OrderBookExchange(FeeAccount, FeePercent);
    account, percent := ex.feeAccount, ex.feePercent;
  }

  /** A deposit of 10 tokens after approving 10; a deposit without approval reverts. */
  method DepositScenario()
    returns (ok: Result<Event, Error>, balance: nat, held: nat, unapproved: Result<Event, Error>, untouched: nat)
    ensures ok == Ok(Deposit(Token1, User1, 10 * Ether, 10 * Ether))
    ensures balance == 10 * Ether && held == 10 * Ether
    ensures unapproved == Err(TransferFailed) && untouched == 0
  {
    var ex := new OrderBookExchange(FeeAccount, FeePercent);
    ok := ex.DepositToken(User1, Token1, 10 * Ether, 10 * Ether, 100 * Ether);
    balance, held := ex.BalanceOf(Token1, User1), ex.Held(Token1);

    var other := new OrderBookExchange(FeeAccount, FeePercent);
    unapproved := other.DepositToken(User1, Token1, 10 * Ether, 0, 100 * Ether);
    untouched := other.BalanceOf(Token1, User1);
  }

  /** Deposit then withdraw 10 tokens; withdrawing without a balance reverts. */
  method WithdrawScenario()
    returns (ok: Result<Event, Error>, balance: nat, held: nat, overdrawn: Result<Event, Error>)
    ensures ok == Ok(Withdraw(Token1, User1, 10 * Ether, 0))
    ensures balance == 0 && held == 0
    ensures overdrawn == Err(InsufficientBalance)
  {
    var ex := new OrderBookExchange(FeeAccount, FeePercent);
    var d := ex.DepositToken(User1, Token1, 10 * Ether, 10 * Ether, 100 * Ether);
    ok := ex.WithdrawToken(User1, Token1, 10 * Ether);
    balance, held := ex.BalanceOf(Token1, User1), ex.Held(Token1);

    var other := new OrderBookExchange(FeeAccount, FeePercent);
    overdrawn := other.WithdrawToken(User1, Token1, 10 * Ether);
  }

  /** Making the first order issues id 1; making one without a balance reverts. */
  method MakeOrderScenario() returns (ok: Result<Event, Error>, count: nat, unfunded: Result<Event, Error>)
    ensures ok == Ok(OrderEvent(1, User1, Token2, Ether, Token1, Ether))
    ensures count == 1
    ensures unfunded == Err(InsufficientBalance)
  {
    var ex := new OrderBookExchange(FeeAccount, FeePercent);
    var d := ex.DepositToken(User1, Token1, 10 * Ether, 10 * Ether, 100 * Ether);
    ok := ex.MakeOrder(User1, Token2, Ether, Token1, Ether);
    count := ex.orderCount;

    var other := new OrderBookExchange(FeeAccount, FeePercent);
    unfunded := other.MakeOrder(User1, Token2, Ether, Token1, Ether);
  }

  /** User1 funds 1 token1, user2 funds 2 token2, and user1 offers 1 token1 for 1 token2 (order 1). */
  method SetUpOrder() returns (ex: OrderBookExchange)
    ensures fresh(ex) && ex.Valid()
    ensures ex.feeAccount == FeeAccount && ex.feePercent == FeePercent
    ensures ex.orderCount == 1 && ex.orders[1] == Order(1, User1, Token2, Ether, Token1, Ether)
    ensures ex.cancelled == {} && ex.completed == {}
    ensures ex.BalanceOf(Token1, User1) == Ether && ex.BalanceOf(Token2, User2) == 2 * Ether
    ensures ex.BalanceOf(Token2, User1) == 0 && ex.BalanceOf(Token1, User2) == 0
    ensures ex.BalanceOf(Token1, FeeAccount) == 0 && ex.BalanceOf(Token2, FeeAccount) == 0
  {
    ex := new OrderBookExchange(FeeAccount, FeePercent);
    var r := ex.DepositToken(User1, Token1, Ether, Ether, 100 * Ether);
    r := ex.DepositToken(User2, Token2, 2 * Ether, 2 * Ether, 100 * Ether);
    r := ex.MakeOrder(User1, Token2, Ether, Token1, Ether);
  }

  /** Cancelling: the creator succeeds; an unknown id or another caller reverts. */
  method CancelScenario()
    returns (ok: Result<Event, Error>, flagged: bool, unknown: Result<Event, Error>, stranger: Result<Event, Error>)
    ensures ok == Ok(Cancel(1, User1, Token2, Ether, Token1, Ether))
    ensures flagged
    ensures unknown == Err(OrderNotFound)
    ensures stranger == Err(Unauthorized)
  {
    var ex := SetUpOrder();
    unknown := ex.CancelOrder(Deployer, 99999);
    stranger := ex.CancelOrder(User2, 1);
    ok := ex.CancelOrder(User1, 1);
    flagged := ex.OrderCancelled(1);
  }

  /**
   * User2 takes order 1 with a 10% fee: user1 ends with 0 token1 and 1 token2, user2 with
   * 1 token1 and 0.9 token2, the fee account with 0 token1 and 0.1 token2.
   */
  method TradeScenario()
    returns (trade: Result<Event, Error>,
             give1: nat, give2: nat, giveFee: nat, get1: nat, get2: nat, getFee: nat, done: bool)
    ensures trade == Ok(Trade(1, User2, Token2, Ether, Token1, Ether, User1))
    ensures give1 == 0 && give2 == Ether && giveFee == 0
    ensures get1 == Ether && get2 == 9 * Ether / 10 && getFee == Ether / 10
    ensures done
  {
    var ex := SetUpOrder();
    ghost var before := ex.usertokens;
    SettleBetweenThreeParties(before, ex.orders[1], User2, FeeAccount, Fee(Ether, FeePercent));
    trade := ex.ExecuteOrder(User2, 1);
    give1, give2, giveFee := ex.BalanceOf(Token1, User1), ex.BalanceOf(Token1, User2), ex.BalanceOf(Token1, FeeAccount);
    get1, get2, getFee := ex.BalanceOf(Token2, User1), ex.BalanceOf(Token2, User2), ex.BalanceOf(Token2, FeeAccount);
    done := ex.OrderCompleted(1);
  }

  /** Executing reverts for an unknown id, for a completed order and for a cancelled order. */
  method ExecuteFailureScenario()
    returns (unknown: Result<Event, Error>, again: Result<Event, Error>, afterCancel: Result<Event, Error>)
    ensures unknown == Err(OrderNotFound)
    ensures again == Err(AlreadyFinalized)
    ensures afterCancel == Err(AlreadyFinalized)
  {
    var ex := SetUpOrder();
    unknown := ex.ExecuteOrder(User2, 99999);
    SettleBetweenThreeParties(ex.usertokens, ex.orders[1], User2, FeeAccount, Fee(Ether, FeePercent));
    var first := ex.ExecuteOrder(User2, 1);
    again := ex.ExecuteOrder(User2, 1);

    var other := SetUpOrder();
    var c := other.CancelOrder(User1, 1);
    afterCancel := other.ExecuteOrder(User2, 1);
  }
}
