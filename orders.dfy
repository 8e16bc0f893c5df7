/** The order-instruction hierarchy of `xtrading_models.order`: the base
    `Order` with its process-wide ID counter and bracket linkage, the fixed
    variants (limit, market, stop, stop-limit) and the trailing variants
    whose exactly-one-of rule is re-checked on every field assignment. */
module Orders {
  import opened Wrappers

  /** UNSET_INTEGER, 2^31 - 1: the `parentId` of an order nobody has adopted. */
  const UnsetInteger: int := 0x7FFF_FFFF

  /** A float price field. `Unset` is the UNSET_DOUBLE sentinel (+infinity),
      kept apart from every finite price. */
  datatype Price = Unset | At(value: real)

  /** The order classes. The base `Order` can be built directly (`Plain`). */
  datatype Variant =
    | Plain
    | Limit
    | Market
    | Stop
    | StopLimit
    | TrailingStopMarket
    | TrailingStopLimit
  {
    /** Subclasses of StopOrder: they declare `triggered` and `triggerPrice`. */
    predicate IsStopFamily() {
      Stop? || StopLimit? || IsTrailing()
    }

    /** Subclasses of TrailingOrder: they declare `trailingDistance`,
        `trailingPercent`, `stopPrice` and `extremePrice`. */
    predicate IsTrailing() {
      TrailingStopMarket? || TrailingStopLimit?
    }
  }

  /** The `ValueError`s a construction or an assignment can raise. */
  datatype OrderError =
    | TrailingParams            // the exactly-one-of rule of TrailingOrder
    | NoSuchField(name: string) // assignment to a field the class does not declare

  const TrailingParamsMessage: string :=
    "Exactly one of trailingDistance or trailingPercent must be specified"

  /** The keyword arguments every order class hands on to the base `Order`
      untouched, with the base class's defaults. */
  datatype CommonArgs = CommonArgs(
    orderId: int := 0,
    permId: int := 0,
    clientId: int := 0,
    tif: string := "",
    goodTillDate: string := "",
    goodAfterTime: string := "",
    ocaGroup: string := "",
    orderRef: string := "",
    parentId: int := UnsetInteger,
    transmit: bool := true)

  // ---------------------------------------------------------------------
  // Order IDs

  /** The class-wide `_next_order_id`, shared by every order class. */
  class IdCounter {
    var next: int

    ghost predicate Valid()
      reads this
    {
      next >= 1
    }

    constructor ()
      ensures Valid() && next == 1
    {
      next := 1;
    }
  }

  /** One run of `model_post_init`: from the counter before and the orderId
      the caller supplied, the orderId the order keeps and the counter after. */
  function AssignId(next: int, requested: int): (int, int)
  {
    if requested == 0 then (next, next + 1) else (requested, next)
  }

  /** How many of the requested orderIds ask for an automatic ID (are 0). */
  ghost function AutoCount(requested: seq<int>): nat
    decreases |requested|
  {
    if requested == [] then 0
    else
      AutoCount(requested[..|requested| - 1])
      + (if requested[|requested| - 1] == 0 then 1 else 0)
  }

  /** Orders constructed one after another, in any mix of classes, with the
      given requested orderIds: the orderIds they end with and the counter
      afterwards. */
  ghost function AssignIds(next: int, requested: seq<int>): (seq<int>, int)
    decreases |requested|
  {
    if requested == [] then ([], next)
    else
      var prior := AssignIds(next, requested[..|requested| - 1]);
      var step := AssignId(prior.1, requested[|requested| - 1]);
      (prior.0 + [step.0], step.1)
  }

  /** Every construction with orderId 0 takes the counter as it stands and
      raises it by one; every other construction keeps its orderId and leaves
      the counter alone. */
  lemma {:induction false} AssignIdsExact(next: int, requested: seq<int>)
    ensures |AssignIds(next, requested).0| == |requested|
    ensures AssignIds(next, requested).1 == next + AutoCount(requested)
    ensures forall i :: 0 <= i < |requested| ==>
      AssignIds(next, requested).0[i]
      == if requested[i] == 0 then next + AutoCount(requested[..i]) else requested[i]
  {
    if requested != [] {
      var n := |requested| - 1;
      var init := requested[..n];
      AssignIdsExact(next, init);
      forall i | 0 <= i < n
        ensures init[..i] == requested[..i]
      {
      }
      assert requested[..n] == init;
    }
  }

  lemma {:induction false} AutoCountPastAuto(requested: seq<int>, i: nat, j: nat)
    requires i < j <= |requested| && requested[i] == 0
    ensures AutoCount(requested[..j]) >= AutoCount(requested[..i]) + 1
    ensures (forall k :: i < k < j ==> requested[k] != 0) ==>
      AutoCount(requested[..j]) == AutoCount(requested[..i]) + 1
    decreases j
  {
    assert requested[..j][..j - 1] == requested[..j - 1];
    if j == i + 1 {
      assert requested[..j][j - 1] == 0;
    } else {
      AutoCountPastAuto(requested, i, j - 1);
    }
  }

  /** Automatic IDs strictly increase in construction order, across classes. */
  lemma AutoIdsIncrease(next: int, requested: seq<int>, i: nat, j: nat)
    requires i < j < |requested| && requested[i] == 0 && requested[j] == 0
    ensures |AssignIds(next, requested).0| == |requested|
    ensures AssignIds(next, requested).0[i] < AssignIds(next, requested).0[j]
  {
    AssignIdsExact(next, requested);
    AutoCountPastAuto(requested, i, j);
  }

  /** Two automatic IDs with only explicit IDs constructed between them are
      consecutive. */
  lemma AutoIdsConsecutive(next: int, requested: seq<int>, i: nat, j: nat)
    requires i < j < |requested| && requested[i] == 0 && requested[j] == 0
    requires forall k :: i < k < j ==> requested[k] != 0
    ensures |AssignIds(next, requested).0| == |requested|
    ensures AssignIds(next, requested).0[j] == AssignIds(next, requested).0[i] + 1
  {
    AssignIdsExact(next, requested);
    AutoCountPastAuto(requested, i, j);
  }

  /** Starting from the counter's initial value 1, every automatic ID is
      positive and no smaller than where the counter started. */
  lemma AutoIdsPositive(next: int, requested: seq<int>, i: nat)
    requires next >= 1 && i < |requested| && requested[i] == 0
    ensures |AssignIds(next, requested).0| == |requested|
    ensures AssignIds(next, requested).0[i] >= next >= 1
  {
    AssignIdsExact(next, requested);
  }

  // ---------------------------------------------------------------------
  // The trailing rule

  /** Exactly one of the two trailing parameters is present. */
  ghost predicate ExactlyOne(distance: Option<real>, percent: Option<real>) {
    distance.Some? != percent.Some?
  }

  /** `TrailingOrder.validate_trailing_params`: fails when both parameters
      are absent or both are present. */
  function ValidateTrailingParams(distance: Option<real>, percent: Option<real>): (r: Outcome<OrderError>)
    ensures r.Pass? <==> ExactlyOne(distance, percent)
    ensures r.Fail? ==> r.error == TrailingParams
  {
    if (distance.None? && percent.None?) || (distance.Some? && percent.Some?) then
      Fail(TrailingParams)
    else
      Pass
  }

  /** Because each assignment is validated on its own, a trailing order can
      never change mode: an accepted write to `trailingDistance` leaves it
      present exactly when it was present before. */
  lemma TrailingModeStable(distance: Option<real>, percent: Option<real>, newDistance: Option<real>)
    requires ExactlyOne(distance, percent)
    requires ValidateTrailingParams(newDistance, percent).Pass?
    ensures newDistance.Some? == distance.Some?
  {
  }

  // ---------------------------------------------------------------------
  // Orders

  class Order {
    var orderId: int
    var permId: int
    var clientId: int
    var action: string
    var totalQuantity: real
    var orderType: string
    var price: Price
    var tif: string
    var goodTillDate: string
    var goodAfterTime: string
    var ocaGroup: string
    var orderRef: string
    var parentId: int
    var transmit: bool
    var children: seq<Order>

    /** The class the order was built as. */
    const variant: Variant

    // StopOrder and its subclasses
    var triggered: bool
    var triggerPrice: Option<real>
    // StopLimitOrder
    var limitPrice: Price
    // TrailingOrder and its subclasses
    var trailingDistance: Option<real>
    var trailingPercent: Option<real>
    var stopPrice: Option<real>
    var extremePrice: Option<real>
    // TrailingStopLimit
    var limitOffset: real

    /** What the model validators guarantee of every order that exists. */
    ghost predicate Valid()
      reads this
    {
      variant.IsTrailing() ==> ExactlyOne(trailingDistance, trailingPercent)
    }

    /** The pass-through fields, as the keyword arguments that set them. */
    ghost function Terms(): CommonArgs
      reads this
    {
      CommonArgs(orderId, permId, clientId, tif, goodTillDate, goodAfterTime,
                 ocaGroup, orderRef, parentId, transmit)
    }

    /** The state every order starts in, given the keyword arguments and the
        counter before (`before`) and after (`after`) its construction. */
    ghost predicate StartsFrom(args: CommonArgs, before: int, after: int)
      reads this
    {
      && (orderId, after) == AssignId(before, args.orderId)
      && Terms() == args.(orderId := orderId)
      && children == []
      && !triggered && triggerPrice == None
      && stopPrice == None && extremePrice == None
    }

    /** `Order.__init__` followed by `model_post_init`. Each order class
        reaches it through `super().__init__` with its own arguments. */
    constructor Init(variant: Variant, action: string, totalQuantity: real,
                     orderType: string, price: Price, args: CommonArgs,
                     counter: IdCounter,
                     limitPrice: Price := Unset,
                     trailingDistance: Option<real> := None,
                     trailingPercent: Option<real> := None,
                     limitOffset: real := 0.0)
      requires counter.Valid()
      requires variant.IsTrailing() ==> ExactlyOne(trailingDistance, trailingPercent)
      modifies counter
      ensures Valid() && counter.Valid()
      ensures args.orderId == 0 ==> orderId == old(counter.next) && counter.next == old(counter.next) + 1
      ensures args.orderId != 0 ==> orderId == args.orderId && counter.next == old(counter.next)
      ensures StartsFrom(args, old(counter.next), counter.next)
      ensures this.variant == variant && this.action == action
      ensures this.totalQuantity == totalQuantity && this.orderType == orderType && this.price == price
      ensures this.limitPrice == limitPrice && this.limitOffset == limitOffset
      ensures this.trailingDistance == trailingDistance && this.trailingPercent == trailingPercent
    {
      this.variant := variant;
      this.action := action;
      this.totalQuantity := totalQuantity;
      this.orderType := orderType;
      this.price := price;
      permId := args.permId;
      clientId := args.clientId;
      tif := args.tif;
      goodTillDate := args.goodTillDate;
      goodAfterTime := args.goodAfterTime;
      ocaGroup := args.ocaGroup;
      orderRef := args.orderRef;
      parentId := args.parentId;
      transmit := args.transmit;
      children := [];
      triggered := false;
      triggerPrice := None;
      this.limitPrice := limitPrice;
      this.trailingDistance := trailingDistance;
      this.trailingPercent := trailingPercent;
      stopPrice := None;
      extremePrice := None;
      this.limitOffset := limitOffset;
      new;
      if args.orderId == 0 {
        orderId := counter.next;
        counter.next := counter.next + 1;
      } else {
        orderId := args.orderId;
      }
    }

    /** `add_child`: the child points back at this order and is appended to
        its children, even when it is already there or has another parent. */
    method AddChild(child: Order)
      modifies this`children, child`parentId
      ensures child.parentId == orderId
      ensures children == old(children) + [child]
    {
      child.parentId := orderId;
      children := children + [child];
    }

    /** Assignment to `triggered` (declared by StopOrder). */
    method SetTriggered(value: bool) returns (r: Outcome<OrderError>)
      requires Valid()
      modifies this`triggered
      ensures Valid()
      ensures r.Pass? <==> variant.IsStopFamily()
      ensures r.Fail? ==> r.error == NoSuchField("triggered")
      ensures triggered == if r.Pass? then value else old(triggered)
    {
      if variant.IsStopFamily() {
        triggered := value;
        r := Pass;
      } else {
        r := Fail(NoSuchField("triggered"));
      }
    }

    /** Assignment to `triggerPrice` (declared by StopOrder). */
    method SetTriggerPrice(value: Option<real>) returns (r: Outcome<OrderError>)
      requires Valid()
      modifies this`triggerPrice
      ensures Valid()
      ensures r.Pass? <==> variant.IsStopFamily()
      ensures r.Fail? ==> r.error == NoSuchField("triggerPrice")
      ensures triggerPrice == if r.Pass? then value else old(triggerPrice)
    {
      if variant.IsStopFamily() {
        triggerPrice := value;
        r := Pass;
      } else {
        r := Fail(NoSuchField("triggerPrice"));
      }
    }

    /** Assignment to `stopPrice` (declared by TrailingOrder); the engine
        writes it, nothing here derives it. */
    method SetStopPrice(value: Option<real>) returns (r: Outcome<OrderError>)
      requires Valid()
      modifies this`stopPrice
      ensures Valid()
      ensures r.Pass? <==> variant.IsTrailing()
      ensures r.Fail? ==> r.error == NoSuchField("stopPrice")
      ensures stopPrice == if r.Pass? then value else old(stopPrice)
    {
      if variant.IsTrailing() {
        stopPrice := value;
        r := Pass;
      } else {
        r := Fail(NoSuchField("stopPrice"));
      }
    }

    /** Assignment to `extremePrice` (declared by TrailingOrder). */
    method SetExtremePrice(value: Option<real>) returns (r: Outcome<OrderError>)
      requires Valid()
      modifies this`extremePrice
      ensures Valid()
      ensures r.Pass? <==> variant.IsTrailing()
      ensures r.Fail? ==> r.error == NoSuchField("extremePrice")
      ensures extremePrice == if r.Pass? then value else old(extremePrice)
    {
      if variant.IsTrailing() {
        extremePrice := value;
        r := Pass;
      } else {
        r := Fail(NoSuchField("extremePrice"));
      }
    }

    /** Assignment to `trailingDistance`: with validate_assignment the
        exactly-one-of rule runs again and a violating write is refused. */
    method SetTrailingDistance(value: Option<real>) returns (r: Outcome<OrderError>)
      requires Valid()
      modifies this`trailingDistance
      ensures Valid()
      ensures r.Pass? <==> variant.IsTrailing() && ExactlyOne(value, trailingPercent)
      ensures r.Fail? ==> r.error == if variant.IsTrailing() then TrailingParams else NoSuchField("trailingDistance")
      ensures trailingDistance == if r.Pass? then value else old(trailingDistance)
    {
      if !variant.IsTrailing() {
        r := Fail(NoSuchField("trailingDistance"));
      } else {
        r := ValidateTrailingParams(value, trailingPercent);
        if r.Pass? {
          trailingDistance := value;
        }
      }
    }

    /** Assignment to `trailingPercent`, validated like `trailingDistance`. */
    method SetTrailingPercent(value: Option<real>) returns (r: Outcome<OrderError>)
      requires Valid()
      modifies this`trailingPercent
      ensures Valid()
      ensures r.Pass? <==> variant.IsTrailing() && ExactlyOne(trailingDistance, value)
      ensures r.Fail? ==> r.error == if variant.IsTrailing() then TrailingParams else NoSuchField("trailingPercent")
      ensures trailingPercent == if r.Pass? then value else old(trailingPercent)
    {
      if !variant.IsTrailing() {
        r := Fail(NoSuchField("trailingPercent"));
      } else {
        r := ValidateTrailingParams(trailingDistance, value);
        if r.Pass? {
          trailingPercent := value;
        }
      }
    }
  }

  // ---------------------------------------------------------------------
  // The order classes' constructors

  /** `Order(...)`: every field from the caller, defaults for the rest. */
  method NewOrder(counter: IdCounter, action: string := "", totalQuantity: real := 0.0,
                  orderType: string := "", price: Price := Unset,
                  args: CommonArgs := CommonArgs())
    returns (o: Order)
    requires counter.Valid()
    modifies counter
    ensures fresh(o) && o.Valid() && counter.Valid()
    ensures o.StartsFrom(args, old(counter.next), counter.next)
    ensures o.variant == Plain && o.action == action && o.totalQuantity == totalQuantity
    ensures o.orderType == orderType && o.price == price
  {
    o := new Order.Init(Plain, action, totalQuantity, orderType, price, args, counter);
  }

  /** `LimitOrder(action, totalQuantity, price)`: type LMT at the given price. */
  method NewLimitOrder(counter: IdCounter, action: string, totalQuantity: real, price: Price,
                       args: CommonArgs := CommonArgs())
    returns (o: Order)
    requires counter.Valid()
    modifies counter
    ensures fresh(o) && o.Valid() && counter.Valid()
    ensures o.StartsFrom(args, old(counter.next), counter.next)
    ensures o.variant == Limit && o.action == action && o.totalQuantity == totalQuantity
    ensures o.orderType == "LMT" && o.price == price
  {
    o := new Order.Init(Limit, action, totalQuantity, "LMT", price, args, counter);
  }

  /** `MarketOrder(action, totalQuantity)`: type MKT, price left unset. */
  method NewMarketOrder(counter: IdCounter, action: string, totalQuantity: real,
                        args: CommonArgs := CommonArgs())
    returns (o: Order)
    requires counter.Valid()
    modifies counter
    ensures fresh(o) && o.Valid() && counter.Valid()
    ensures o.StartsFrom(args, old(counter.next), counter.next)
    ensures o.variant == Market && o.action == action && o.totalQuantity == totalQuantity
    ensures o.orderType == "MKT" && o.price == Unset
  {
    o := new Order.Init(Market, action, totalQuantity, "MKT", Unset, args, counter);
  }

  /** `StopOrder(action, totalQuantity, stopPrice)`: type STP; the stop level
      is stored in `price`, and the order is not yet triggered. */
  method NewStopOrder(counter: IdCounter, action: string, totalQuantity: real, stopPrice: Price,
                      args: CommonArgs := CommonArgs())
    returns (o: Order)
    requires counter.Valid()
    modifies counter
    ensures fresh(o) && o.Valid() && counter.Valid()
    ensures o.StartsFrom(args, old(counter.next), counter.next)
    ensures o.variant == Stop && o.action == action && o.totalQuantity == totalQuantity
    ensures o.orderType == "STP" && o.price == stopPrice
  {
    o := new Order.Init(Stop, action, totalQuantity, "STP", stopPrice, args, counter);
  }

  /** `StopLimitOrder(action, totalQuantity, limitPrice, stopPrice)`: type
      STP LMT; the stop level in `price`, the limit in its own field. */
  method NewStopLimitOrder(counter: IdCounter, action: string, totalQuantity: real,
                           limitPrice: Price, stopPrice: Price,
                           args: CommonArgs := CommonArgs())
    returns (o: Order)
    requires counter.Valid()
    modifies counter
    ensures fresh(o) && o.Valid() && counter.Valid()
    ensures o.StartsFrom(args, old(counter.next), counter.next)
    ensures o.variant == StopLimit && o.action == action && o.totalQuantity == totalQuantity
    ensures o.orderType == "STP LMT" && o.price == stopPrice && o.limitPrice == limitPrice
  {
    o := new Order.Init(StopLimit, action, totalQuantity, "STP LMT", stopPrice, args, counter,
                        limitPrice := limitPrice);
  }

  /** `TrailingStopMarket(action, totalQuantity, trailingDistance, trailingPercent)`:
      type TRAIL. TrailingOrder passes a stop price of 0.0, which StopOrder
      stores in `price`, so `stopPrice` itself starts absent. */
  method NewTrailingStopMarket(counter: IdCounter, action: string, totalQuantity: real,
                               trailingDistance: Option<real> := None,
                               trailingPercent: Option<real> := None,
                               args: CommonArgs := CommonArgs())
    returns (r: Result<Order, OrderError>)
    requires counter.Valid()
    modifies counter
    ensures counter.Valid()
    ensures r.Success? <==> ExactlyOne(trailingDistance, trailingPercent)
    ensures r.Failure? ==> r.error == TrailingParams && counter.next >= old(counter.next)
    ensures r.Success? ==>
      && fresh(r.value) && r.value.Valid()
      && r.value.StartsFrom(args, old(counter.next), counter.next)
      && r.value.variant == TrailingStopMarket
      && r.value.action == action && r.value.totalQuantity == totalQuantity
      && r.value.orderType == "TRAIL" && r.value.price == At(0.0)
      && r.value.trailingDistance == trailingDistance
      && r.value.trailingPercent == trailingPercent
  {
    var check := ValidateTrailingParams(trailingDistance, trailingPercent);
    if check.Fail? {
      return Failure(check.error);
    }
    var o := new Order.Init(TrailingStopMarket, action, totalQuantity, "TRAIL", At(0.0), args, counter,
                            trailingDistance := trailingDistance, trailingPercent := trailingPercent);
    r := Success(o);
  }

  /** `TrailingStopLimit(action, totalQuantity, limitOffset, trailingDistance,
      trailingPercent)`: type TRAIL LIMIT, otherwise as TrailingStopMarket.
      The offset is stored as given; nothing checks its sign. */
  method NewTrailingStopLimit(counter: IdCounter, action: string, totalQuantity: real,
                              limitOffset: real,
                              trailingDistance: Option<real> := None,
                              trailingPercent: Option<real> := None,
                              args: CommonArgs := CommonArgs())
    returns (r: Result<Order, OrderError>)
    requires counter.Valid()
    modifies counter
    ensures counter.Valid()
    ensures r.Success? <==> ExactlyOne(trailingDistance, trailingPercent)
    ensures r.Failure? ==> r.error == TrailingParams && counter.next >= old(counter.next)
    ensures r.Success? ==>
      && fresh(r.value) && r.value.Valid()
      && r.value.StartsFrom(args, old(counter.next), counter.next)
      && r.value.variant == TrailingStopLimit
      && r.value.action == action && r.value.totalQuantity == totalQuantity
      && r.value.orderType == "TRAIL LIMIT" && r.value.price == At(0.0)
      && r.value.trailingDistance == trailingDistance
      && r.value.trailingPercent == trailingPercent
      && r.value.limitOffset == limitOffset
  {
    var check := ValidateTrailingParams(trailingDistance, trailingPercent);
    if check.Fail? {
      return Failure(check.error);
    }
    var o := new Order.Init(TrailingStopLimit, action, totalQuantity, "TRAIL LIMIT", At(0.0), args, counter,
                            trailingDistance := trailingDistance, trailingPercent := trailingPercent,
                            limitOffset := limitOffset);
    r := Success(o);
  }

  // ---------------------------------------------------------------------
  // Construction sequences and bracket linkage, as a caller sees them

  /** Three orders of different classes built one after another from a
      fresh counter get 1, 2 and 3. */
  method ConsecutiveIds() returns (a: Order, b: Order, c: Order)
    ensures a.orderId == 1 && b.orderId == a.orderId + 1 && c.orderId == b.orderId + 1
  {
    var counter := new IdCounter();
    a := NewLimitOrder(counter, "BUY", 100.0, At(150.25));
    b := NewMarketOrder(counter, "SELL", 50.0);
    c := NewStopOrder(counter, "BUY", 25.0, At(145.0));
  }

  /** An order built with an explicit orderId in between does not use up an
      automatic ID. */
  method ExplicitIdSkipsCounter(counter: IdCounter) returns (a: Order, b: Order, c: Order)
    requires counter.Valid()
    modifies counter
    ensures b.orderId == 42 && c.orderId == a.orderId + 1
    ensures counter.next == old(counter.next) + 2
  {
    a := NewMarketOrder(counter, "BUY", 10.0);
    b := NewMarketOrder(counter, "BUY", 10.0, CommonArgs(orderId := 42));
    c := NewMarketOrder(counter, "BUY", 10.0);
  }

  /** Two children added to one parent, a grandchild to the first child:
      each child points at its own parent, and an unrelated order keeps an
      empty list of children. */
  method Bracket(counter: IdCounter) returns (parent: Order, other: Order, child1: Order, child2: Order)
    requires counter.Valid()
    modifies counter
    ensures child1.parentId == parent.orderId && child2.parentId == child1.orderId
    ensures parent.children == [child1] && child1.children == [child2] && other.children == []
  {
    parent := NewOrder(counter, "BUY", 100.0, "LMT", At(150.0));
    other := NewOrder(counter, "SELL", 50.0, "LMT");
    child1 := NewLimitOrder(counter, "SELL", 100.0, At(155.0));
    child2 := NewLimitOrder(counter, "SELL", 100.0, At(145.0));
    parent.AddChild(child1);
    child1.AddChild(child2);
  }

  /** Adding the same child twice lists it twice; its parentId ends at the
      parent's orderId either way. */
  method AddChildTwice(parent: Order, child: Order)
    requires parent != child
    modifies parent, child
    ensures parent.children == old(parent.children) + [child, child]
    ensures child.parentId == parent.orderId
    ensures child.children == old(child.children)
  {
    parent.AddChild(child);
    parent.AddChild(child);
  }

  /** A trailing order in distance mode: the engine's writes to
      `extremePrice` and `stopPrice` go through and touch nothing else, and
      switching to percent mode by a single assignment is refused. */
  method TrailingLifecycle(counter: IdCounter) returns (o: Order, other: Order)
    requires counter.Valid()
    modifies counter
    ensures o.trailingDistance == Some(2.0) && o.trailingPercent == None
    ensures o.extremePrice == Some(100.0) && o.stopPrice == Some(98.0)
    ensures other.extremePrice == None && other.stopPrice == None
  {
    var r1 := NewTrailingStopMarket(counter, "BUY", 100.0, trailingDistance := Some(2.0));
    var r2 := NewTrailingStopMarket(counter, "BUY", 100.0, trailingDistance := Some(1.0));
    o, other := r1.value, r2.value;
    assert o.stopPrice == None && o.extremePrice == None && o.price == At(0.0) && !o.triggered;
    var w := o.SetExtremePrice(Some(100.0));
    assert w.Pass?;
    w := o.SetStopPrice(Some(98.0));
    assert w.Pass?;
    w := o.SetTrailingPercent(Some(2.5));
    assert w == Fail(TrailingParams);
    var none := NewTrailingStopMarket(counter, "BUY", 100.0);
    assert none == Failure(TrailingParams);
  }
}
