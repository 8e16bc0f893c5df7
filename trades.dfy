/** `xtrading_models.trade`: the status record of an order, the log entries
    kept about it, and the `Trade` aggregate whose done/active
    classification is read off the current status string. */
module Trades {
  import opened Time
  import Orders

  // The status strings the system names. The field itself is a free string.
  const PendingSubmit: string := "PendingSubmit"
  const Submitted: string := "Submitted"
  const Filled: string := "Filled"
  const Cancelled: string := "Cancelled"
  const Inactive: string := "Inactive"

  const DoneStates: set<string> := {Filled, Cancelled}
  const ActiveStates: set<string> := {PendingSubmit, Submitted}

  /** One execution against an order. Its fields are defined outside this
      model, so it is opaque here. */
  type Fill

  datatype TradeLogEntry = TradeLogEntry(time: Timestamp, status: string, message: string := "")

  /** The in-place status snapshot of one order. Every field may be
      overwritten with any value; nothing ties them together. */
  class OrderStatus {
    var orderId: int
    var status: string
    var filled: real
    var remaining: real
    var avgFillPrice: real
    var lastFillPrice: real
    var parentId: int

    constructor (orderId: int := 0, status: string := PendingSubmit,
                 filled: real := 0.0, remaining: real := 0.0,
                 avgFillPrice: real := 0.0, lastFillPrice: real := 0.0,
                 parentId: int := 0)
      ensures this.orderId == orderId && this.status == status
      ensures this.filled == filled && this.remaining == remaining
      ensures this.avgFillPrice == avgFillPrice && this.lastFillPrice == lastFillPrice
      ensures this.parentId == parentId
    {
      this.orderId := orderId;
      this.status := status;
      this.filled := filled;
      this.remaining := remaining;
      this.avgFillPrice := avgFillPrice;
      this.lastFillPrice := lastFillPrice;
      this.parentId := parentId;
    }
  }

  /** An order, its status, and the fills and log entries callers append. */
  class Trade {
    var order: Orders.Order
    var orderStatus: OrderStatus
    var fills: seq<Fill>
    var log: seq<TradeLogEntry>

    constructor (order: Orders.Order, orderStatus: OrderStatus,
                 fills: seq<Fill> := [], log: seq<TradeLogEntry> := [])
      ensures this.order == order && this.orderStatus == orderStatus
      ensures this.fills == fills && this.log == log
    {
      this.order := order;
      this.orderStatus := orderStatus;
      this.fills := fills;
      this.log := log;
    }

    /** `is_done`: the status is one of the terminal ones. */
    function IsDone(): (r: bool)
      reads this, orderStatus
      ensures r <==> orderStatus.status == Filled || orderStatus.status == Cancelled
    {
      orderStatus.status in DoneStates
    }

    /** `is_active`: the status is one of the in-flight ones; an active trade
        is never done. */
    function IsActive(): (r: bool)
      reads this, orderStatus
      ensures r <==> orderStatus.status == PendingSubmit || orderStatus.status == Submitted
      ensures r ==> !IsDone()
    {
      orderStatus.status in ActiveStates
    }

    /** `trade.fills.append(fill)`: the classification does not move. */
    method AppendFill(fill: Fill)
      modifies this`fills
      ensures fills == old(fills) + [fill]
      ensures IsDone() == old(IsDone()) && IsActive() == old(IsActive())
    {
      fills := fills + [fill];
    }

    /** `trade.log.append(entry)`: the classification does not move. */
    method AppendLog(entry: TradeLogEntry)
      modifies this`log
      ensures log == old(log) + [entry]
      ensures IsDone() == old(IsDone()) && IsActive() == old(IsActive())
    {
      log := log + [entry];
    }
  }

  /** No status is both done and active. */
  lemma DoneAndActiveDisjoint(status: string)
    ensures !(status in DoneStates && status in ActiveStates)
  {
  }

  /** A status is neither done nor active exactly when it is none of the four
      listed ones: `Inactive`, and every string the system does not name. */
  lemma NeitherDoneNorActive(status: string)
    ensures (status !in DoneStates && status !in ActiveStates) <==>
      status !in {PendingSubmit, Submitted, Filled, Cancelled}
    ensures status == Inactive ==> status !in DoneStates && status !in ActiveStates
  {
  }

  /** A trade built on a default status is active and not done, with no fills
      and no log entries. */
  method DefaultTrade(order: Orders.Order) returns (t: Trade)
    ensures t.order == order && t.fills == [] && t.log == []
    ensures t.orderStatus.status == PendingSubmit && t.orderStatus.orderId == 0
    ensures t.orderStatus.filled == 0.0 && t.orderStatus.remaining == 0.0
    ensures t.orderStatus.avgFillPrice == 0.0 && t.orderStatus.lastFillPrice == 0.0
    ensures t.IsActive() && !t.IsDone()
  {
    var status := new OrderStatus();
    t := new Trade(order, status);
  }

  /** A limit order goes from Submitted to Filled: the fill is appended and
      the status fields are overwritten one by one. */
  method FillLifecycle(counter: Orders.IdCounter, fill: Fill) returns (t: Trade)
    requires counter.Valid()
    modifies counter
    ensures t.fills == [fill]
    ensures t.IsDone() && !t.IsActive()
  {
    var order := Orders.NewLimitOrder(counter, "BUY", 100.0, Orders.At(150.25));
    var status := new OrderStatus(orderId := order.orderId, status := Submitted, remaining := 100.0);
    t := new Trade(order, status);
    assert t.IsActive() && !t.IsDone();
    t.AppendFill(fill);
    assert t.IsActive();
    t.orderStatus.status := Filled;
    t.orderStatus.filled := 100.0;
    t.orderStatus.remaining := 0.0;
  }

  /** Nothing guards the status: a filled trade can be set back to Submitted
      and is active again, and `filled` need not match the fills. */
  method StatusIsUnguarded(t: Trade)
    requires t.orderStatus.status == Filled
    modifies t.orderStatus
    ensures t.IsActive() && !t.IsDone()
    ensures t.orderStatus.filled == 7.0 && t.fills == old(t.fills)
  {
    t.orderStatus.status := Submitted;
    t.orderStatus.filled := 7.0;
  }
}
