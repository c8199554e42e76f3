# Order-book exchange: custody ledger, order lifecycle and front-end reducers

This project models two parts of an order-book token exchange and proves properties of them in Dafny.

1. **The `OrderBookExchange` contract.** Users deposit ERC20 tokens into custody, post orders
   ("give `amountGive` of `tokenGive` for `amountGet` of `tokenGet`"), cancel them, and take
   other users' orders. A taker pays a fee of `feePercent` percent of `amountGet`, in `tokenGet`,
   to a fixed fee account. The Solidity source of the contract is not part of this model. Its
   behaviour is taken from what `test/OrderBookExchange.js` asserts. Where the tests are silent
   (error kinds, the cancel-twice check, the order of the settlement updates), the model makes
   its own choices, listed under "Design decisions".
   - `Ledger` (ledger.dfy) holds the custody ledger `(token, user) -> amount`. An unset entry reads 0.
     A ghost `Total` gives the sum the ledger owes per token.
   - `Exchange` (exchange.dfy) holds the class `OrderBookExchange`. Its fields are the ledger
     (`usertokens`), the exchange's own holding per token (`custody`), `orderCount`, the order
     table, and the cancelled and completed id sets. `feeAccount` and `feePercent` are `const`.
     Each method returns `Ok(event)` or `Err(reason)`. On `Err` every field is unchanged, as after
     a revert. The class invariant `Valid()` says four things: the ledger never owes more of a
     token than the exchange holds; issued ids are exactly `1..orderCount`; only issued orders
     are flagged; no order is both cancelled and completed.
   - `ExchangeScenarios` (scenarios.dfy) replays the test suite's scenarios against the class.
     One of them is the 10% fee trade.
2. **The Redux reducers** of the front end (`provider`, `tokens`, `exchange`). They are modelled in
   `Reducers` (reducers.dfy) as functions from the old state and an action to the new state.
   Properties over several dispatches are in `ReducerProperties` (reducer_properties.dfy):
   order ids stay unique, how many events are added, and what the loading sequences produce.

The caller (`msg.sender`) is an explicit parameter of every contract method. The token's
`transferFrom` is modelled as two parameters: how much the caller approved the exchange for and
how much the caller holds. The transfer goes through when the amount is at most both, which is
the standard ERC20 rule. The token contract's source is not part of this model.

## Model

| member | source | states |
|---|---|---|
| Ledger.Credit | test/OrderBookExchange.js:59-63 | crediting raises exactly the one (token, user) entry by the amount; every other entry reads the same |
| Ledger.Debit | test/OrderBookExchange.js:117-120 | a debit succeeds iff the entry covers the amount, lowers only that entry by the amount, and otherwise reverts |
| Ledger.TotalUpdate | test/OrderBookExchange.js:59-63 | overwriting one entry changes the per-token total of its token by the difference and no other token's total |
| Ledger.BalanceAtMostTotal | test/OrderBookExchange.js:100-104 | no user's entry exceeds what the ledger owes in that token overall |
| Ledger.CreditTotal | test/OrderBookExchange.js:59-63 | a credit raises the credited token's total by exactly the amount and leaves all other totals unchanged |
| Ledger.DebitTotal | test/OrderBookExchange.js:100-104 | a debit lowers the debited token's total by exactly the amount and leaves all other totals unchanged |
| Ledger.CreditDebitRoundTrip | test/OrderBookExchange.js:88-104 | depositing and then withdrawing the same amount always succeeds and gives every (token, user) pair its previous balance |
| Exchange.Fee | test/OrderBookExchange.js:252-262 | the fee is `amountGet * feePercent / 100` rounded down: `100 * fee <= amountGet * feePercent < 100 * fee + 100` |
| Exchange.Settle | test/OrderBookExchange.js:252-262 | settlement succeeds iff the creator holds `amountGive` of `tokenGive` and the taker can pay `amountGet + fee` of `tokenGet` (counting what the taker has just received when both tokens are the same); no entry outside the two tokens and three parties changes; for every (token, user) pair, the new balance plus the debits equals the old balance plus the credits, one term per update, including self-trades, trades involving the fee account and same-token orders |
| Exchange.SettleConserves | test/OrderBookExchange.js:252-262 | a settlement moves balances only between users: the total owed in every token is unchanged |
| Exchange.SettleBetweenThreeParties | test/OrderBookExchange.js:252-262 | with two tokens and three distinct parties: the creator loses `amountGive` and gains `amountGet`; the taker gains `amountGive` and pays `amountGet + fee`; the fee account gains `fee` of `tokenGet` and nothing of `tokenGive`; it succeeds iff both payers are covered |
| Exchange.OrderBookExchange.constructor | test/OrderBookExchange.js:28-43 | deployment records the fee account and fee percent given (both `const`, so no operation changes them) and starts with an empty ledger, no holdings and no orders |
| Exchange.OrderBookExchange.BalanceOf | test/OrderBookExchange.js:59-63 | `balanceOf(token, user)` equals the `usertokens` entry, and is 0 for a pair never credited |
| Exchange.OrderBookExchange.OrderCancelled | test/OrderBookExchange.js:215-217 | a cancelled id is an issued order (1..orderCount) that is not completed |
| Exchange.OrderBookExchange.OrderCompleted | test/OrderBookExchange.js:263-265 | a completed id is an issued order that is not cancelled |
| Exchange.OrderBookExchange.DepositToken | test/OrderBookExchange.js:46-80 | a deposit succeeds iff the token transfer goes through (approval and wallet cover the amount). On success the user's ledger balance and the exchange's holding of the token both rise by the amount, and the Deposit record reports the new balance. Otherwise it reverts with nothing changed. The invariant is kept |
| Exchange.OrderBookExchange.WithdrawToken | test/OrderBookExchange.js:84-121 | a withdrawal succeeds iff the ledger balance covers the amount. It debits the ledger and lowers the exchange's holding by the amount; the outgoing transfer cannot fail because of the invariant. The Withdraw record reports the new balance. An overdraft reverts with nothing changed |
| Exchange.OrderBookExchange.MakeOrder | test/OrderBookExchange.js:141-181 | making an order succeeds iff the caller's `tokenGive` balance covers `amountGive`. On success `orderCount` rises by 1 and the new order gets id `orderCount` and exactly the arguments. No balance and no flag changes. Otherwise it reverts |
| Exchange.OrderBookExchange.CancelOrder | test/OrderBookExchange.js:209-243 | an id outside `1..orderCount` reverts as not found. A caller other than the creator reverts as unauthorized. An already cancelled or completed order reverts. Otherwise exactly this id becomes cancelled and the Cancel record carries the order's fields. Balances never change |
| Exchange.OrderBookExchange.ExecuteOrder | test/OrderBookExchange.js:245-299 | an unknown id reverts as not found; a cancelled or completed order reverts. Otherwise it succeeds iff `Settle` succeeds: the ledger becomes the settled ledger, exactly this id becomes completed, and the Trade record names the taker as `user` and the maker as `creator`. A failure changes nothing |
| ExchangeScenarios.DeploymentScenario | test/OrderBookExchange.js:37-44 | the deployed exchange reports the fee account and the 10% fee |
| ExchangeScenarios.DepositScenario | test/OrderBookExchange.js:46-81 | depositing 10 tokens gives a balance of 10, a holding of 10 and the Deposit record (token1, user1, 10, 10); a deposit without approval reverts and leaves the balance 0 |
| ExchangeScenarios.WithdrawScenario | test/OrderBookExchange.js:84-122 | deposit then withdraw of 10 leaves balance 0 and holding 0, and the Withdraw record reports balance 0; withdrawing without funds reverts |
| ExchangeScenarios.MakeOrderScenario | test/OrderBookExchange.js:141-181 | the first order gets id 1 with exactly its arguments and `orderCount` 1; an order without a balance reverts |
| ExchangeScenarios.SetUpOrder | test/OrderBookExchange.js:182-208 | after the two deposits and the order, the balances are user1: 1 token1, user2: 2 token2, everyone else 0, and order 1 is open |
| ExchangeScenarios.CancelScenario | test/OrderBookExchange.js:209-243 | the creator's cancel of order 1 succeeds and sets `orderCancelled(1)`; the deployer's cancel of id 99999 reverts as not found; user2's cancel reverts as unauthorized |
| ExchangeScenarios.TradeScenario | test/OrderBookExchange.js:245-280 | user2 taking order 1 leaves user1 with 0 token1 and 1 token2, user2 with 1 token1 and 0.9 token2, and the fee account with 0 token1 and 0.1 token2; the order is completed and the Trade record is (1, user2, token2, 1, token1, 1, user1) |
| ExchangeScenarios.ExecuteFailureScenario | test/OrderBookExchange.js:282-298 | executing id 99999 reverts, executing order 1 a second time reverts, and executing a cancelled order reverts |
| Reducers.ProviderReducer | src/store/reducers.js:14-29 | each provider action overwrites only its own field with the latest value; any other action leaves the state unchanged |
| Reducers.TokensReducer | src/store/reducers.js:37-59 | token 1 resets contracts and symbols to singletons, token 2 appends one of each, so contracts and symbols always have equal length; balance 1 resets the balances, balance 2 appends; nothing else changes them |
| Reducers.FindIndex | src/store/reducers.js:158 | `findIndex` returns -1 iff no listed order has the id, and otherwise the first position holding it |
| Reducers.AddUnique | src/store/reducers.js:156-168 | the order is appended iff no listed order has its id, otherwise the list is unchanged; afterwards its id is listed, and unique ids stay unique |
| Reducers.ExchangeReducer | src/store/reducers.js:82-254 | `EXCHANGE_LOADED` sets `contracts` and nothing else does; `loaded` is set by `EXCHANGE_LOADED` and the two exchange balance actions and otherwise kept. Every `*_SUCCESS` and `TRANSFER_COMPLETE` prepends its event and no other action touches `events`. `TRANSFER_PENDING` sets `transferInProgress` to true, `TRANSFER_COMPLETE` and `TRANSFER_FAIL` clear it, and nothing else touches it |
| Reducers.TransactionStatus | src/store/reducers.js:120-253 | every request (and `TRANSFER_PENDING`) sets `isPending: true, success: false` with its own transaction type. Every success sets `isPending: false, success: true`. Every failure sets `isPending: false, success: false, isError: true`. Other actions keep the record |
| Reducers.OrderListUpdates | src/store/reducers.js:90-107 | the `*_ORDERS_LOADED` actions replace their list wholesale with `loaded: true`. New and filled orders are appended only when their id is not yet listed. Cancellations are always appended. No other action changes the lists |
| Reducers.ExchangeBalances | src/store/reducers.js:109-117 | exchange token 1 balance resets the exchange balances to one entry, token 2 appends one, both set `loaded` |
| Reducers.ExchangeIgnoresOtherActions | src/store/reducers.js:82-254 | actions for the other reducers, and unknown ones, leave the exchange state unchanged |
| ReducerProperties.StepKeepsIdsUnique | src/store/reducers.js:156-168 | one dispatch keeps the ids in `allOrders` and `filledOrders` unique, given that a wholesale load brings unique ids |
| ReducerProperties.RunKeepsIdsUnique | src/store/reducers.js:226-243 | over any sequence of dispatches, the ids in `allOrders` and `filledOrders` stay unique, provided every wholesale `*_ORDERS_LOADED` load of those lists has unique ids |
| ReducerProperties.IdsUniqueFromInitialState | src/store/reducers.js:61-80 | starting from the initial state, the ids in `allOrders` and `filledOrders` stay unique, provided every wholesale load of those lists has unique ids (`cancelledOrders` is not deduplicated) |
| ReducerProperties.RunEventCount | src/store/reducers.js:137 | after any sequence of dispatches the event list grew by exactly the number of successes, with the old events at the end |
| ReducerProperties.DuplicateNewOrderListedOnce | src/store/reducers.js:156-175 | an Order event delivered twice is listed once in `allOrders`, while both events are recorded |
| ReducerProperties.DuplicateFillListedOnce | src/store/reducers.js:226-245 | a Trade reported twice is listed once in `filledOrders` |
| ReducerProperties.DuplicateCancelListedTwice | src/store/reducers.js:193-207 | a Cancel reported twice is listed twice: `cancelledOrders` grows by one per success, without deduplication |
| ReducerProperties.TokensLoadedInOrder | src/store/reducers.js:39-53 | token 1 then token 2 leaves exactly two contracts and two symbols, in that order, whatever the previous state |
| ReducerProperties.BalancesLoadedInOrder | src/store/reducers.js:45-57 | the loading sequence wallet 1, exchange 1, wallet 2, exchange 2 leaves exactly two wallet balances and two exchange balances, whatever the previous state |
| ReducerProperties.TransferLifecycle | src/store/reducers.js:120-138 | pending then complete leaves the transfer not in progress and successful, with its event recorded once |
| ReducerProperties.UnknownActionIgnored | src/store/reducers.js:28 | an unhandled action type leaves all three reducer states unchanged |

## Design decisions

- The settlement applies its five ledger updates in this order: the creator gives `amountGive`,
  the taker receives it, the taker pays `amountGet + fee`, the creator receives `amountGet`, and
  the fee account receives `fee`. Each debit reverts the whole trade when the entry is too small,
  as checked arithmetic does. This order matters when `tokenGet == tokenGive`, or when the taker is
  also the creator or the fee account. A self-trade, for example, reverts if the creator holds
  less than `amountGive`, because the debit comes before the credit. The tests use two different
  tokens and three different parties.
- The model distinguishes five revert reasons: `InsufficientBalance`, `TransferFailed`,
  `OrderNotFound`, `Unauthorized` and `AlreadyFinalized`. The tests only assert that a call
  reverts. Cancelling an order that is already cancelled or completed reverts with
  `AlreadyFinalized`; the tests do not exercise that case.
- A reverted `makeOrder` does not consume an id: a revert undoes the increment.
- The custody invariant is stated as "the ledger total of a token is at most the exchange's holding
  of it". It is preserved by every operation. It is what makes a withdrawal's outgoing transfer go
  through.

## Left out

- Block timestamps in the Order, Cancel and Trade records. The tests only assert `>= 1`.
- The positions of records in a transaction's event list (`result.events[0]`/`[1]`). They depend
  on what the token contract emits.
- 256-bit arithmetic: amounts are unbounded naturals. Overflow of `amountGet * feePercent` or of
  a credit is not modelled. Checked subtraction is modelled, as the debits that revert.
- The token contract's own state: wallet balances and allowances are inputs to `DepositToken`.
  Their decrease after a transfer is not tracked. Tokens sent to the exchange outside
  `depositToken` are not modelled either; the invariant allows such excess.
- src/store/interactions.js, src/store/store.js, the React components and the deployment and
  seeding scripts. They are wallet and network I/O, floating-point price arithmetic,
  `combineReducers` wiring and UI.
- Immer's draft mechanics and the shared `let index, data` variables of the exchange reducer.
  Each case is modelled as a pure old-state-to-new-state transition.
- JavaScript `null` and an absent field (`undefined`) are both `None`. Order ids are compared as
  numbers; the source compares their decimal strings, which agree for naturals.
- Provider, contract and event objects are opaque handles. Only order ids are inspected by the
  reducers.
