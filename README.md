# XTrading models in Dafny

This project models the core of the `xtrading_models` package, the data model
of a trading system's order lifecycle:

- **Orders** (`orders.dfy`, module `Orders`). There is one `Order` class whose
  `variant` records which Python class the order was built as: base `Order`,
  `LimitOrder`, `MarketOrder`, `StopOrder`, `StopLimitOrder`,
  `TrailingStopMarket` or `TrailingStopLimit`. Each variant's constructor is
  a method that passes its own arguments to the one base constructor
  `Order.Init`, the way the Python classes chain through `super().__init__`.
  - The class-wide `_next_order_id` is an explicit `IdCounter` object that
    every constructor reads and advances.
  - `AddChild` links bracket orders in place.
  - `triggered`, `triggerPrice`, `stopPrice`, `extremePrice`,
    `trailingDistance` and `trailingPercent` change only through setters.
    These setters model pydantic's validated assignment: a write to a field
    the class does not declare is refused. On a trailing order, the
    exactly-one-of rule runs again on every write.
  - A run of constructions is modelled by the specification functions
    `AssignId`/`AssignIds`. The lemmas about them prove that automatic IDs
    are consecutive and strictly increasing across classes.
- **Bars** (`bars.dfy`, module `Bars`). `NewBar` rejects a missing date.
  `ValidateOhlc` then runs the five ordered price checks and reports the
  first one that fails.
- **Trades** (`trades.dfy`, module `Trades`). `OrderStatus` and `Trade` are
  classes whose fields callers overwrite or append to. `IsDone` and
  `IsActive` read the status string against the fixed sets `DoneStates` and
  `ActiveStates`.

`wrappers.dfy` holds `Option`, `Result` and `Outcome`, which stand for
`None` and for pydantic's `ValueError`. It also holds the opaque
`Timestamp` type, which stands for `datetime`.

Prices are `real`. The UNSET_DOUBLE sentinel (+infinity) is the separate
case `Price.Unset`, and `Optional[float]` fields are `Option<real>`.
UNSET_INTEGER is the constant `UnsetInteger` = 2^31 - 1.

The model keeps these behaviours of the code:
- The code does not check that `totalQuantity` is positive (src/xtrading_models/order.py:23).
- The code keeps an explicitly supplied `orderId` as given, even when it is
  negative. Only automatic IDs are known to be positive (`AutoIdsPositive`).
- The code does not check the sign of `limitOffset`. The only description of
  the field, the docstring at src/xtrading_models/order.py:188, calls it
  "always positive", but nothing enforces that.
- The code lets a `LimitOrder` take the unset price, and it does not check
  that a price is finite.
- The code does not check that a bar's `volume` is non-negative
  (src/xtrading_models/bar.py:13).
- The default `OrderStatus.parentId` is 0, not UNSET_INTEGER
  (src/xtrading_models/trade.py:16).

## Model

| member | source | states |
|---|---|---|
| `Orders.IdCounter.constructor` | src/xtrading_models/order.py:17 | The shared order-ID counter starts at 1. |
| `Orders.Order.Init` | src/xtrading_models/order.py:19-45 | An order built with orderId 0 takes the counter's current value, and the counter rises by exactly 1. An order built with a non-zero orderId keeps it, and the counter is unchanged. Every other field takes the value given or its default: children empty, parentId UNSET_INTEGER, transmit true, price unset unless given, triggered false, optional execution fields absent. |
| `Orders.AssignIdsExact` | src/xtrading_models/order.py:41-45 | In any sequence of constructions, the i-th automatic ID is the start value plus the number of earlier automatic constructions. Explicit IDs are kept, and the final counter is the start plus the number of automatic constructions. |
| `Orders.AutoIdsIncrease` | src/xtrading_models/order.py:41-45 | Automatic IDs strictly increase in construction order, whatever mix of order classes is built. |
| `Orders.AutoIdsConsecutive` | src/xtrading_models/order.py:41-45 | Two automatic IDs with no automatic construction between them differ by exactly 1. |
| `Orders.AutoIdsPositive` | src/xtrading_models/order.py:17-45 | From a counter at or above 1, every automatic ID is at least that start value and positive. |
| `Orders.ValidateTrailingParams` | src/xtrading_models/order.py:130-136 | Passes exactly when one of trailingDistance and trailingPercent is present. If both or neither are present, it fails with the exactly-one-of error. |
| `Orders.TrailingModeStable` | src/xtrading_models/order.py:130-136 | Each assignment is validated on its own, so an accepted write to trailingDistance leaves it present exactly when it was present before: a trailing order cannot switch between distance and percent mode. This holds under the model's choice that a refused write leaves the field unchanged (see `Orders.Order.SetTrailingDistance` under Left out). |
| `Orders.Order.AddChild` | src/xtrading_models/order.py:47-50 | Afterwards the child's parentId is the parent's orderId and the parent's children are the old list plus the child. Only those two fields change. |
| `Orders.Order.SetTriggered` | src/xtrading_models/order.py:89 | On a stop-family order the write is accepted and changes only `triggered`. On any other class it is refused and nothing changes. |
| `Orders.Order.SetTriggerPrice` | src/xtrading_models/order.py:90 | On a stop-family order the write is accepted and changes only `triggerPrice`. On any other class it is refused. |
| `Orders.Order.SetStopPrice` | src/xtrading_models/order.py:127 | On a trailing order the write is accepted, changes only `stopPrice`, and keeps the trailing rule. On any other class it is refused. |
| `Orders.Order.SetExtremePrice` | src/xtrading_models/order.py:128 | On a trailing order the write is accepted, changes only `extremePrice`, and keeps the trailing rule. On any other class it is refused. |
| `Orders.Order.SetTrailingDistance` | src/xtrading_models/order.py:125-136 | On a trailing order the write is accepted exactly when the exactly-one-of rule still holds afterwards. Otherwise it fails with that rule's error and the order keeps its value. On other classes the field does not exist. |
| `Orders.Order.SetTrailingPercent` | src/xtrading_models/order.py:125-136 | The same as `SetTrailingDistance`, for trailingPercent. |
| `Orders.NewOrder` | src/xtrading_models/order.py:19-45 | The base `Order(...)` keeps the given action, quantity, orderType and price, and assigns its ID from the counter. |
| `Orders.NewLimitOrder` | src/xtrading_models/order.py:61-68 | orderType is LMT and price is the given price. |
| `Orders.NewMarketOrder` | src/xtrading_models/order.py:73-79 | orderType is MKT and price stays unset. |
| `Orders.NewStopOrder` | src/xtrading_models/order.py:92-99 | orderType is STP, the stop level is stored in price, and the order is not triggered. |
| `Orders.NewStopLimitOrder` | src/xtrading_models/order.py:112-120 | orderType is STP LMT, the stop level is in price and limitPrice is kept separately. |
| `Orders.NewTrailingStopMarket` | src/xtrading_models/order.py:139-174 | Succeeds exactly when one trailing parameter is given, and otherwise fails with the exactly-one-of error. On success: orderType TRAIL, price 0.0, both trailing parameters as given (so the unsupplied one is absent), stopPrice and extremePrice absent, not triggered. |
| `Orders.NewTrailingStopLimit` | src/xtrading_models/order.py:195-208 | The same as `NewTrailingStopMarket` with orderType TRAIL LIMIT. limitOffset is stored as given. |
| `Orders.ConsecutiveIds` | tests/test_models.py:446-455 | Orders of different classes get consecutive IDs: a limit, a market and a stop order built in turn from a fresh counter get IDs 1, 2 and 3. |
| `Orders.ExplicitIdSkipsCounter` | src/xtrading_models/order.py:43 | An order built with orderId 42 between two automatic ones keeps 42. The automatic ones stay consecutive, and the counter advances by two. |
| `Orders.Bracket` | tests/test_models.py:42-64 | Children point at their own parents. Each parent lists only its own child, and an unrelated order's children stay empty. |
| `Orders.AddChildTwice` | src/xtrading_models/order.py:47-50 | Adding the same child twice appends it twice. Its parentId is the parent's orderId, and its own children do not change. |
| `Orders.TrailingLifecycle` | tests/test_models.py:244-264 | A distance-mode trailing order accepts engine writes to extremePrice and stopPrice, and these do not affect another instance. A single write that would switch it to percent mode is refused. Building with neither parameter fails. |
| `Bars.ValidateOhlc` | src/xtrading_models/bar.py:24-37 | Accepts exactly when all five relations hold, and returns the bar unchanged. Otherwise the error names the first relation, in checking order, that fails, with the two prices it compared. |
| `Bars.NewBar` | src/xtrading_models/bar.py:8-37 | A missing date is rejected before any price check. Otherwise the bar is accepted exactly when all five relations hold, carries the inputs unchanged, and on rejection reports `ValidateOhlc`'s error. |
| `Bars.AcceptedIffBracketed` | src/xtrading_models/bar.py:27-36 | A bar is accepted exactly when low <= min(open, close) and max(open, close) <= high. |
| `Bars.HighLowCheckImplied` | src/xtrading_models/bar.py:27-36 | A bar is accepted exactly when the last four relations hold, so the first check (high >= low) never decides whether a bar is accepted. It only decides which error is reported. |
| `Bars.SoleViolationReported` | src/xtrading_models/bar.py:27-36 | A bar that breaks exactly one relation is rejected with that relation and its two prices. |
| `Bars.DefaultBarAccepted` | src/xtrading_models/bar.py:9-13 | A bar given only its date gets all-zero prices and volume, and is accepted. |
| `Bars.SampleBarAccepted` | src/xtrading_models/bar.py:24-37 | open 10, high 12, low 9, close 11 is accepted with the values as given. |
| `Trades.OrderStatus.constructor` | src/xtrading_models/trade.py:9-16 | Every field takes the value given, or its default: orderId 0, status PendingSubmit, all amounts 0.0, parentId 0. |
| `Trades.Trade.constructor` | src/xtrading_models/trade.py:35-40 | The trade keeps the given order and status object. fills and log are as given, and empty by default. |
| `Trades.Trade.IsDone` | src/xtrading_models/trade.py:42-44 | True exactly when the status is Filled or Cancelled. |
| `Trades.Trade.IsActive` | src/xtrading_models/trade.py:46-48 | True exactly when the status is PendingSubmit or Submitted. An active trade is never done. |
| `Trades.Trade.AppendFill` | src/xtrading_models/trade.py:39 | fills grows by the one new fill, keeping the earlier ones. Done and active do not change. |
| `Trades.Trade.AppendLog` | src/xtrading_models/trade.py:40 | log grows by the one new entry, keeping the earlier ones. Done and active do not change. |
| `Trades.DoneAndActiveDisjoint` | src/xtrading_models/trade.py:24-25 | No status string is in both DoneStates and ActiveStates. |
| `Trades.NeitherDoneNorActive` | src/xtrading_models/trade.py:18-25 | A status is neither done nor active exactly when it is none of PendingSubmit, Submitted, Filled and Cancelled. In particular Inactive is neither. |
| `Trades.DefaultTrade` | src/xtrading_models/trade.py:9-16 | A trade on a default OrderStatus is active and not done, with empty fills and log and all-zero amounts. |
| `Trades.FillLifecycle` | tests/test_models.py:571-591 | A Submitted limit-order trade is active. After a fill is appended and the status fields are overwritten to Filled, it is done and not active, with exactly one fill. |
| `Trades.StatusIsUnguarded` | tests/test_models.py:585-588 | Any status may be written, including moving a Filled trade back to Submitted, which makes it active again. `filled` may disagree with the fills. |

## Left out

- `Execution`, `CommissionReport` and `Fill`: `fill.py` is not part of this model. `Fill` is an opaque type that trades only store.
- `execution_result.py` is not part of this model. The package `__init__.py` only re-exports names.
- The pydantic identity validators `allow_unset_price` and `allow_unset_limit_price`, type coercion and `arbitrary_types_allowed`. They change no values. (`validate_assignment` is modelled by the setters.)
- IEEE floating point: prices are reals, so infinity other than the unset sentinel, NaN and rounding are not modelled. The code does no arithmetic on prices, only stores and compares them.
- Keyword arguments that override a class's own arguments are not modelled. Examples: `price` passed to `MarketOrder`, or `orderType` passed to `StopOrder`, whose `setdefault` would accept it. The same goes for `children`, `triggered`, `triggerPrice`, `stopPrice` or `extremePrice` passed at construction.
- Assignments to the plain fields (`action`, `price`, `orderType` and so on) are direct field writes with no model member, because no validator beyond the field type applies to them. `limitPrice` and `limitOffset` exist on every `Order` in the model, so a direct write to them on an order of another class is not refused, although pydantic would refuse it as a field the class does not declare.
- BarData: the source does not re-validate writes after construction, because `BarData` does not turn on `validate_assignment`. The model has no writes to a bar.
- Orders.NewTrailingStopMarket: when construction fails, the contract says only that the counter does not go back. Whether a failed construction uses up an ID depends on the order of pydantic's hooks, which the source does not show.
- Orders.NewTrailingStopLimit: the same gap as `NewTrailingStopMarket`.
- Orders.Order.SetTrailingDistance: a refused write leaves the field unchanged. Whether pydantic restores the field after its model validator fails on assignment is library behaviour outside this model. `SetTrailingPercent` makes the same choice.
- Bars.NewBar: a missing date is one error, `DateMissing`. Under pydantic, the `datetime` type check rejects `None` before `date_required` runs, so the message a caller sees differs.
- Error messages are not built as strings. Errors carry the violated relation and the prices the message would print.
- Thread safety of the counter: construction is sequential.
- Trailing-stop recalculation: nothing in this code derives `stopPrice` from `extremePrice`. The engine writes both.
- Timestamps are opaque, and log entries are not ordered by time.
