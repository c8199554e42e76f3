/**
 * Properties of the reducers over several dispatches, as the front end issues them.
 */
module ReducerProperties {
  import opened Wrappers
  import opened Reducers

  /** The exchange state after dispatching `actions` in order. */
  function Run(s: ExchangeState, actions: seq<Action>): ExchangeState
    decreases |actions|
  {
    if actions == [] then s else Run(ExchangeReducer(s, actions[0]), actions[1..])
  }

  /** How many of `actions` are successes (and so carry an event). */
  function SuccessCount(actions: seq<Action>): nat
    decreases |actions|
  {
    if actions == [] then 0 else (if IsSuccess(actions[0]) then 1 else 0) + SuccessCount(actions[1..])
  }

  /** The lists an action loads wholesale have unique ids. */
  predicate LoadsUniqueIds(a: Action)
  {
    && (a.AllOrdersLoaded? ==> UniqueIds(a.allOrders))
    && (a.FilledOrdersLoaded? ==> UniqueIds(a.filledOrders))
  }

  /** One dispatch keeps the ids of all orders and of filled orders unique. */
  lemma StepKeepsIdsUnique(s: ExchangeState, a: Action)
    requires UniqueIds(s.allOrders.data) && UniqueIds(s.filledOrders.data)
    requires LoadsUniqueIds(a)
    ensures UniqueIds(ExchangeReducer(s, a).allOrders.data) && UniqueIds(ExchangeReducer(s, a).filledOrders.data)
  {
  }

  /** Any sequence of dispatches keeps the order ids of `allOrders` and `filledOrders` unique. */
  lemma {:induction false} RunKeepsIdsUnique(s: ExchangeState, actions: seq<Action>)
    requires UniqueIds(s.allOrders.data) && UniqueIds(s.filledOrders.data)
    requires forall i :: 0 <= i < |actions| ==> LoadsUniqueIds(actions[i])
    ensures UniqueIds(Run(s, actions).allOrders.data) && UniqueIds(Run(s, actions).filledOrders.data)
    decreases |actions|
  {
    if actions != [] {
      StepKeepsIdsUnique(s, actions[0]);
      RunKeepsIdsUnique(ExchangeReducer(s, actions[0]), actions[1..]);
    }
  }

  /** From the initial state, the store never lists two orders with the same id. */
  lemma IdsUniqueFromInitialState(actions: seq<Action>)
    requires forall i :: 0 <= i < |actions| ==> LoadsUniqueIds(actions[i])
    ensures UniqueIds(Run(ExchangeInitialState, actions).allOrders.data)
    ensures UniqueIds(Run(ExchangeInitialState, actions).filledOrders.data)
  {
    RunKeepsIdsUnique(ExchangeInitialState, actions);
  }

  /** Each success adds exactly one event, the most recent first; nothing else adds any. */
  lemma {:induction false} RunEventCount(s: ExchangeState, actions: seq<Action>)
    ensures |Run(s, actions).events| == |s.events| + SuccessCount(actions)
    ensures Run(s, actions).events[|Run(s, actions).events| - |s.events|..] == s.events
    decreases |actions|
  {
    if actions != [] {
      var s' := ExchangeReducer(s, actions[0]);
      RunEventCount(s', actions[1..]);
      var e := Run(s', actions[1..]).events;
      assert e[|e| - |s'.events|..] == s'.events;
      if IsSuccess(actions[0]) {
        assert s'.events[1..] == s.events;
        assert e[|e| - |s.events|..] == s'.events[1..];
      }
    }
  }

  /** An order event delivered twice (the subscription can replay it) is listed once. */
  lemma DuplicateNewOrderListedOnce(s: ExchangeState, o: OrderArgs, o': OrderArgs, e: Handle, e': Handle)
    requires o'.id == o.id
    ensures
      var once := ExchangeReducer(s, NewOrderSuccess(o, e));
      var twice := ExchangeReducer(once, NewOrderSuccess(o', e'));
      && twice.allOrders == once.allOrders
      && HasId(once.allOrders.data, o.id)
      && twice.events == [e', e] + s.events
  {
  }

  /** A filled order reported twice is listed once. */
  lemma DuplicateFillListedOnce(s: ExchangeState, o: OrderArgs, o': OrderArgs, e: Handle, e': Handle)
    requires o'.id == o.id
    ensures
      var once := ExchangeReducer(s, OrderFillSuccess(o, e));
      var twice := ExchangeReducer(once, OrderFillSuccess(o', e'));
      && twice.filledOrders == once.filledOrders
      && HasId(once.filledOrders.data, o.id)
  {
  }

  /** A cancellation reported twice is listed twice: that list is not deduplicated. */
  lemma DuplicateCancelListedTwice(s: ExchangeState, o: OrderArgs, e: Handle, e': Handle)
    ensures
      var twice := ExchangeReducer(ExchangeReducer(s, OrderCancelSuccess(o, e)), OrderCancelSuccess(o, e'));
      twice.cancelledOrders.data == s.cancelledOrders.data + [o, o]
  {
  }

  /** Loading token 1 and then token 2 leaves exactly those two contracts and symbols, whatever came before. */
  lemma TokensLoadedInOrder(s: TokensState, t1: Handle, y1: string, t2: Handle, y2: string)
    ensures
      var r := TokensReducer(TokensReducer(s, Token1Loaded(t1, y1)), Token2Loaded(t2, y2));
      r.loaded && r.contracts == [t1, t2] && r.symbols == [y1, y2] && r.balances == s.balances
  {
  }

  /**
   * The balance loading sequence (wallet 1, exchange 1, wallet 2, exchange 2) leaves exactly
   * two wallet balances and two exchange balances, whatever came before.
   */
  lemma BalancesLoadedInOrder(ts: TokensState, xs: ExchangeState, w1: string, x1: string, w2: string, x2: string)
    ensures
      var actions := [Token1BalanceLoaded(w1), ExchangeToken1BalanceLoaded(x1),
                      Token2BalanceLoaded(w2), ExchangeToken2BalanceLoaded(x2)];
      var t := TokensReducer(TokensReducer(TokensReducer(TokensReducer(ts, actions[0]), actions[1]), actions[2]), actions[3]);
      var x := ExchangeReducer(ExchangeReducer(ExchangeReducer(ExchangeReducer(xs, actions[0]), actions[1]), actions[2]), actions[3]);
      t.balances == [w1, w2] && x.balances == [x1, x2] && x.loaded && x.events == xs.events
  {
  }

  /** A transfer that goes pending and then completes ends not in progress, successful, with its event recorded. */
  lemma TransferLifecycle(s: ExchangeState, e: Handle)
    ensures
      var pending := ExchangeReducer(s, TransferPending);
      var done := ExchangeReducer(pending, TransferComplete(e));
      && pending.transferInProgress == Some(true) && pending.events == s.events
      && done.transferInProgress == Some(false)
      && done.transaction == Transaction(Some("Transfer"), Some(false), Some(true), Some(false))
      && done.events == [e] + s.events
  {
  }

  /** Every reducer leaves its state unchanged for an action type it does not handle. */
  lemma UnknownActionIgnored(p: ProviderState, t: TokensState, x: ExchangeState, actionType: string)
    ensures ProviderReducer(p, Unknown(actionType)) == p
    ensures TokensReducer(t, Unknown(actionType)) == t
    ensures ExchangeReducer(x, Unknown(actionType)) == x
  {
  }
}
