/**
 * The three Redux reducers of the front end: `provider`, `tokens` and
 * `exchange`. Each case of a reducer is one transition from the old state to
 * the new state; an action no case handles leaves the state as it was.
 * Every reducer receives every action (they are combined into one store).
 */
module Reducers {
  import opened Wrappers

  /** An opaque JavaScript object held in the store: a provider, a contract or an emitted event. */
  type Handle = nat

  /** The arguments of an `Order`, `Cancel` or `Trade` event as the store keeps them. */
  datatype OrderArgs = OrderArgs(
    id: nat, user: nat, tokenGet: nat, amountGet: nat, tokenGive: nat, amountGive: nat,
    creator: Option<nat>, timestamp: nat)

  /** The dispatched actions, one constructor per action type. */
  datatype Action =
    | ProviderLoaded(connection: Handle)                      // 'PROVIDER_LOADED'
    | NetworkLoaded(chainId: nat)                             // 'NETWORK_LOADED'
    | AccountLoaded(account: string)                          // 'ACCOUNT_LOADED'
    | EtherBalanceLoaded(balance: string)                     // 'ETHER_BALANCE_LOADED'
    | Token1Loaded(token: Handle, symbol: string)             // 'TOKEN_1_LOADED'
    | Token1BalanceLoaded(balance: string)                    // 'TOKEN_1_BALANCE_LOADED'
    | Token2Loaded(token: Handle, symbol: string)             // 'TOKEN_2_LOADED'
    | Token2BalanceLoaded(balance: string)                    // 'TOKEN_2_BALANCE_LOADED'
    | ExchangeLoaded(exchange: Handle)                        // 'EXCHANGE_LOADED'
    | CancelledOrdersLoaded(cancelledOrders: seq<OrderArgs>)  // 'CANCELLED_ORDERS_LOADED'
    | FilledOrdersLoaded(filledOrders: seq<OrderArgs>)        // 'FILLED_ORDERS_LOADED'
    | AllOrdersLoaded(allOrders: seq<OrderArgs>)              // 'ALL_ORDERS_LOADED'
    | ExchangeToken1BalanceLoaded(balance: string)            // 'EXCHANGE_TOKEN_1_BALANCE_LOADED'
    | ExchangeToken2BalanceLoaded(balance: string)            // 'EXCHANGE_TOKEN_2_BALANCE_LOADED'
    | TransferPending                                         // 'TRANSFER_PENDING'
    | TransferComplete(event: Handle)                         // 'TRANSFER_COMPLETE'
    | TransferFail                                            // 'TRANSFER_FAIL'
    | NewOrderRequest                                         // 'NEW_ORDER_REQUEST'
    | NewOrderSuccess(order: OrderArgs, event: Handle)        // 'NEW_ORDER_SUCCESS'
    | NewOrderFail                                            // 'NEW_ORDER_FAIL'
    | OrderCancelRequest                                      // 'ORDER_CANCEL_REQUEST'
    | OrderCancelSuccess(order: OrderArgs, event: Handle)     // 'ORDER_CANCEL_SUCCESS'
    | OrderCancelFail                                         // 'ORDER_CANCEL_FAIL'
    | OrderFillRequest                                        // 'ORDER_FILL_REQUEST'
    | OrderFillSuccess(order: OrderArgs, event: Handle)       // 'ORDER_FILL_SUCCESS'
    | OrderFillFail                                           // 'ORDER_FILL_FAIL'
    | Unknown(actionType: string)                             // any other action type

  // ---------------------------------------------------------------- provider

  datatype ProviderState = ProviderState(
    provider: Option<Handle>, network: Option<nat>, account: Option<string>, etherbalance: Option<string>)

  const ProviderInitialState := ProviderState(None, None, None, None)

  predicate IsProviderAction(a: Action)
  {
    a.ProviderLoaded? || a.NetworkLoaded? || a.AccountLoaded? || a.EtherBalanceLoaded?
  }

  /** Each provider action overwrites its own field with the latest value and touches nothing else. */
  function ProviderReducer(s: ProviderState, a: Action): (r: ProviderState)
    ensures r.provider == (if a.ProviderLoaded? then Some(a.connection) else s.provider)
    ensures r.network == (if a.NetworkLoaded? then Some(a.chainId) else s.network)
    ensures r.account == (if a.AccountLoaded? then Some(a.account) else s.account)
    ensures r.etherbalance == (if a.EtherBalanceLoaded? then Some(a.balance) else s.etherbalance)
    ensures !IsProviderAction(a) ==> r == s
  {
    match a
    case ProviderLoaded(connection) => s.(provider := Some(connection))
    case NetworkLoaded(chainId) => s.(network := Some(chainId))
    case AccountLoaded(account) => s.(account := Some(account))
    case EtherBalanceLoaded(balance) => s.(etherbalance := Some(balance))
    case _ => s
  }

  // ---------------------------------------------------------------- tokens

  datatype TokensState = TokensState(loaded: bool, contracts: seq<Handle>, symbols: seq<string>, balances: seq<string>)

  const TokensInitialState := TokensState(false, [], [], [])

  predicate IsTokensAction(a: Action)
  {
    a.Token1Loaded? || a.Token2Loaded? || a.Token1BalanceLoaded? || a.Token2BalanceLoaded?
  }

  /**
   * Token 1 resets the lists to a single entry, token 2 appends one; contracts and symbols
   * always change together.
   */
  function TokensReducer(s: TokensState, a: Action): (r: TokensState)
    ensures |s.contracts| == |s.symbols| ==> |r.contracts| == |r.symbols|
    ensures a.Token1Loaded? ==> r.loaded && r.contracts == [a.token] && r.symbols == [a.symbol]
    ensures a.Token2Loaded? ==> r.loaded && r.contracts == s.contracts + [a.token] && r.symbols == s.symbols + [a.symbol]
    ensures a.Token1BalanceLoaded? ==> r.balances == [a.balance]
    ensures a.Token2BalanceLoaded? ==> r.balances == s.balances + [a.balance]
    ensures !(a.Token1Loaded? || a.Token2Loaded?) ==> r.loaded == s.loaded && r.contracts == s.contracts && r.symbols == s.symbols
    ensures !(a.Token1BalanceLoaded? || a.Token2BalanceLoaded?) ==> r.balances == s.balances
  {
    match a
    case Token1Loaded(token, symbol) => s.(loaded := true, contracts := [token], symbols := [symbol])
    case Token1BalanceLoaded(balance) => s.(balances := [balance])
    case Token2Loaded(token, symbol) => s.(loaded := true, contracts := s.contracts + [token], symbols := s.symbols + [symbol])
    case Token2BalanceLoaded(balance) => s.(balances := s.balances + [balance])
    case _ => s
  }

  // ---------------------------------------------------------------- exchange

  /** The status of the last submitted transaction; `None` is both `null` and an absent field. */
  datatype Transaction = Transaction(
    transactionType: Option<string>, isPending: Option<bool>, success: Option<bool>, isError: Option<bool>)

  datatype OrderList = OrderList(loaded: bool, data: seq<OrderArgs>)

  datatype ExchangeState = ExchangeState(
    loaded: bool,
    contracts: Option<Handle>,
    balances: seq<string>,
    transaction: Transaction,
    transferInProgress: Option<bool>,
    events: seq<Handle>,
    allOrders: OrderList,
    cancelledOrders: OrderList,
    filledOrders: OrderList)

  const ExchangeInitialState := ExchangeState(
    false, None, [], Transaction(None, None, None, None), None, [],
    OrderList(false, []), OrderList(false, []), OrderList(false, []))

  /** No two orders in the list share an id. */
  predicate UniqueIds(data: seq<OrderArgs>)
  {
    forall i, j :: 0 <= i < j < |data| ==> data[i].id != data[j].id
  }

  /** Some order in the list has this id. */
  predicate HasId(data: seq<OrderArgs>, id: nat)
  {
    exists i :: 0 <= i < |data| && data[i].id == id
  }

  /** `data.findIndex(order => order.id == id)`: the first position holding `id`, or -1. */
  function FindIndex(data: seq<OrderArgs>, id: nat): (i: int)
    ensures -1 <= i < |data|
    ensures i == -1 <==> !HasId(data, id)
    ensures i != -1 ==> data[i].id == id && forall j :: 0 <= j < i ==> data[j].id != id
  {
    if |data| == 0 then -1
    else if data[0].id == id then 0
    else
      var k := FindIndex(data[1..], id);
      assert forall j :: 1 <= j < |data| ==> data[j] == data[1..][j - 1];
      if k == -1 then -1 else k + 1
  }

  /** Append `order` unless an order with the same id is already listed. */
  function AddUnique(data: seq<OrderArgs>, order: OrderArgs): (r: seq<OrderArgs>)
    ensures HasId(data, order.id) ==> r == data
    ensures !HasId(data, order.id) ==> r == data + [order]
    ensures HasId(r, order.id)
    ensures UniqueIds(data) ==> UniqueIds(r)
  {
    if FindIndex(data, order.id) == -1 then
      var appended := data + [order];
      assert appended[|data|] == order;
      appended
    else data
  }

  predicate IsRequest(a: Action)
  {
    a.TransferPending? || a.NewOrderRequest? || a.OrderCancelRequest? || a.OrderFillRequest?
  }

  predicate IsSuccess(a: Action)
  {
    a.TransferComplete? || a.NewOrderSuccess? || a.OrderCancelSuccess? || a.OrderFillSuccess?
  }

  predicate IsFail(a: Action)
  {
    a.TransferFail? || a.NewOrderFail? || a.OrderCancelFail? || a.OrderFillFail?
  }

  /** The `transactionType` of a transaction action. */
  function Kind(a: Action): string
    requires IsRequest(a) || IsSuccess(a) || IsFail(a)
  {
    if a.TransferPending? || a.TransferComplete? || a.TransferFail? then "Transfer"
    else if a.NewOrderRequest? || a.NewOrderSuccess? || a.NewOrderFail? then "New Order"
    else if a.OrderCancelRequest? || a.OrderCancelSuccess? || a.OrderCancelFail? then "Cancel"
    else "Fill Order"
  }

  predicate IsExchangeAction(a: Action)
  {
    || a.ExchangeLoaded? || a.CancelledOrdersLoaded? || a.FilledOrdersLoaded? || a.AllOrdersLoaded?
    || a.ExchangeToken1BalanceLoaded? || a.ExchangeToken2BalanceLoaded?
    || IsRequest(a) || IsSuccess(a) || IsFail(a)
  }

  /** The exchange reducer; its effect on each part of the state is stated here and in the lemmas below. */
  function ExchangeReducer(s: ExchangeState, a: Action): (r: ExchangeState)
    // events: every success prepends its event, nothing else touches the list
    // the exchange contract: set only when it is loaded
    ensures r.contracts == if a.ExchangeLoaded? then Some(a.exchange) else s.contracts
    ensures r.loaded == if a.ExchangeLoaded? || a.ExchangeToken1BalanceLoaded? || a.ExchangeToken2BalanceLoaded? then true else s.loaded
    ensures r.events == if IsSuccess(a) then [a.event] + s.events else s.events
    // transferInProgress: set by a pending transfer, cleared when it completes or fails
    ensures r.transferInProgress ==
      if a.TransferPending? then Some(true)
      else if a.TransferComplete? || a.TransferFail? then Some(false)
      else s.transferInProgress
  {
    match a
    case ExchangeLoaded(exchange) => s.(loaded := true, contracts := Some(exchange))
    case CancelledOrdersLoaded(orders) => s.(cancelledOrders := OrderList(true, orders))
    case FilledOrdersLoaded(orders) => s.(filledOrders := OrderList(true, orders))
    case AllOrdersLoaded(orders) => s.(allOrders := OrderList(true, orders))
    case ExchangeToken1BalanceLoaded(balance) => s.(loaded := true, balances := [balance])
    case ExchangeToken2BalanceLoaded(balance) => s.(loaded := true, balances := s.balances + [balance])
    case TransferPending =>
      s.(transaction := Transaction(Some("Transfer"), Some(true), Some(false), None),
         transferInProgress := Some(true))
    case TransferComplete(event) =>
      s.(transaction := Transaction(Some("Transfer"), Some(false), Some(true), Some(false)),
         transferInProgress := Some(false),
         events := [event] + s.events)
    case TransferFail =>
      s.(transaction := Transaction(Some("Transfer"), Some(false), Some(false), Some(true)),
         transferInProgress := Some(false))
    case NewOrderRequest =>
      s.(transaction := Transaction(Some("New Order"), Some(true), Some(false), None))
    case NewOrderSuccess(order, event) =>
      s.(allOrders := s.allOrders.(data := AddUnique(s.allOrders.data, order)),
         transaction := Transaction(Some("New Order"), Some(false), Some(true), None),
         events := [event] + s.events)
    case NewOrderFail =>
      s.(transaction := Transaction(Some("New Order"), Some(false), Some(false), Some(true)))
    case OrderCancelRequest =>
      s.(transaction := Transaction(Some("Cancel"), Some(true), Some(false), None))
    case OrderCancelSuccess(order, event) =>
      s.(transaction := Transaction(Some("Cancel"), Some(false), Some(true), None),
         cancelledOrders := s.cancelledOrders.(data := s.cancelledOrders.data + [order]),
         events := [event] + s.events)
    case OrderCancelFail =>
      s.(transaction := Transaction(Some("Cancel"), Some(false), Some(false), Some(true)))
    case OrderFillRequest =>
      s.(transaction := Transaction(Some("Fill Order"), Some(true), Some(false), None))
    case OrderFillSuccess(order, event) =>
      s.(transaction := Transaction(Some("Fill Order"), Some(false), Some(true), None),
         filledOrders := s.filledOrders.(data := AddUnique(s.filledOrders.data, order)),
         events := [event] + s.events)
    case OrderFillFail =>
      s.(transaction := Transaction(Some("Fill Order"), Some(false), Some(false), Some(true)))
    case _ => s
  }

  /** Requests mark the transaction pending, failures mark it failed, successes mark it successful. */
  lemma TransactionStatus(s: ExchangeState, a: Action)
    ensures IsRequest(a) ==> ExchangeReducer(s, a).transaction == Transaction(Some(Kind(a)), Some(true), Some(false), None)
    ensures IsSuccess(a) ==>
      var t := ExchangeReducer(s, a).transaction;
      t.transactionType == Some(Kind(a)) && t.isPending == Some(false) && t.success == Some(true)
    ensures IsFail(a) ==> ExchangeReducer(s, a).transaction == Transaction(Some(Kind(a)), Some(false), Some(false), Some(true))
    ensures !(IsRequest(a) || IsSuccess(a) || IsFail(a)) ==> ExchangeReducer(s, a).transaction == s.transaction
  {
  }

  /**
   * The order lists: each is replaced wholesale when loaded; new and filled orders are appended
   * unless their id is already listed; cancellations are always appended; nothing else touches them.
   */
  lemma OrderListUpdates(s: ExchangeState, a: Action)
    ensures a.AllOrdersLoaded? ==> ExchangeReducer(s, a).allOrders == OrderList(true, a.allOrders)
    ensures a.CancelledOrdersLoaded? ==> ExchangeReducer(s, a).cancelledOrders == OrderList(true, a.cancelledOrders)
    ensures a.FilledOrdersLoaded? ==> ExchangeReducer(s, a).filledOrders == OrderList(true, a.filledOrders)
    ensures a.NewOrderSuccess? ==>
      ExchangeReducer(s, a).allOrders ==
        if HasId(s.allOrders.data, a.order.id) then s.allOrders else s.allOrders.(data := s.allOrders.data + [a.order])
    ensures a.OrderFillSuccess? ==>
      ExchangeReducer(s, a).filledOrders ==
        if HasId(s.filledOrders.data, a.order.id) then s.filledOrders else s.filledOrders.(data := s.filledOrders.data + [a.order])
    ensures a.OrderCancelSuccess? ==>
      ExchangeReducer(s, a).cancelledOrders == s.cancelledOrders.(data := s.cancelledOrders.data + [a.order])
    ensures !(a.AllOrdersLoaded? || a.NewOrderSuccess?) ==> ExchangeReducer(s, a).allOrders == s.allOrders
    ensures !(a.CancelledOrdersLoaded? || a.OrderCancelSuccess?) ==> ExchangeReducer(s, a).cancelledOrders == s.cancelledOrders
    ensures !(a.FilledOrdersLoaded? || a.OrderFillSuccess?) ==> ExchangeReducer(s, a).filledOrders == s.filledOrders
  {
  }

  /** The exchange balances: token 1 resets them to one entry, token 2 appends one. */
  lemma ExchangeBalances(s: ExchangeState, a: Action)
    ensures a.ExchangeToken1BalanceLoaded? ==> ExchangeReducer(s, a).loaded && ExchangeReducer(s, a).balances == [a.balance]
    ensures a.ExchangeToken2BalanceLoaded? ==>
      ExchangeReducer(s, a).loaded && ExchangeReducer(s, a).balances == s.balances + [a.balance]
    ensures !(a.ExchangeToken1BalanceLoaded? || a.ExchangeToken2BalanceLoaded?) ==> ExchangeReducer(s, a).balances == s.balances
  {
  }

  /** Actions meant for the other reducers, and unknown ones, leave the exchange state unchanged. */
  lemma ExchangeIgnoresOtherActions(s: ExchangeState, a: Action)
    requires !IsExchangeAction(a)
    ensures ExchangeReducer(s, a) == s
  {
  }
}
