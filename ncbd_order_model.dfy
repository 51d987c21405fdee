/**
 * The order document of the customer-facing shop (src/models/Order.js): its
 * enumerations, the validation that runs when a document is saved, the two
 * pre-save hooks (the opening history with the cash-on-delivery shortcut,
 * and the cost and profit totals) and the order collection with its
 * `orderId` unique index and soft-delete find filter.
 */
module NcbdOrderModel {
  import opened Common

  const PaymentMethods: set<string> :=
    {"Bkash", "Nagad", "Rocket", "Bank Transfer", "bkash", "nagad", "rocket", "bank", "cod"}
  const CashOnDelivery := "cod"

  const Pending := "Pending"
  const PaymentVerified := "Verified"
  const PaymentFailed := "Failed"
  const PaymentStatuses: set<string> := {Pending, PaymentVerified, PaymentFailed}

  const OrderReceived := "Order Received"
  const AwaitingVerification := "Awaiting Verification"
  const Packaging := "Packaging"
  const Processing := "Processing"
  const Shipped := "Shipped"
  const InTransit := "In Transit"
  const OutForDelivery := "Out for Delivery"
  const Delivered := "Delivered"
  const Cancelled := "Cancelled"
  const OnHold := "On Hold"

  /** The values a shipping update may carry. */
  const UpdateStatuses: set<string> :=
    {OrderReceived, AwaitingVerification, Packaging, Shipped, InTransit, OutForDelivery, Delivered, Cancelled, OnHold}

  /** The values `orderStatus` may carry. */
  const OrderStatuses: set<string> := {AwaitingVerification, Processing, Shipped, Delivered, Cancelled, OnHold}

  /** An order line: the product's `_id`, title, price and buy price as they were when the order was placed. */
  datatype OrderItem = OrderItem(product: nat, title: string, quantity: int, price: int, buyPrice: Option<int>)

  datatype ShippingUpdate = ShippingUpdate(status: string, date: int, notes: string)

  datatype Address = Address(fullName: string, phone: string, address: string, city: string, zipCode: string)

  datatype PaymentDetails = PaymentDetails(
    paymentMethod: string,
    transactionId: string,
    senderNumber: string,
    amount: int,
    paymentStatus: string,
    verifiedAt: Option<int>)

  datatype Order = Order(
    orderId: string,
    user: nat,
    items: seq<OrderItem>,
    shippingAddress: Address,
    paymentDetails: PaymentDetails,
    totalAmount: int,
    shippingCost: int,
    totalBuyAmount: int,
    totalProfit: int,
    orderStatus: string,
    shippingUpdates: seq<ShippingUpdate>,
    isDeleted: bool,
    createdAt: int,
    updatedAt: int)

  // ---------------------------------------------------------------------------
  // Validation

  predicate AddressValid(a: Address) {
    a.fullName != [] && a.phone != [] && a.address != [] && a.city != []
  }

  predicate ItemsValid(items: seq<OrderItem>) {
    forall k :: 0 <= k < |items| ==> items[k].quantity >= 1
  }

  predicate UpdatesValid(us: seq<ShippingUpdate>) {
    forall k :: 0 <= k < |us| ==> us[k].status in UpdateStatuses
  }

  /** Everything the schema checks when an order is saved. */
  predicate OrderSchemaValid(o: Order) {
    && o.orderId != []
    && ItemsValid(o.items)
    && AddressValid(o.shippingAddress)
    && o.paymentDetails.paymentMethod in PaymentMethods
    && o.paymentDetails.paymentStatus in PaymentStatuses
    && o.orderStatus in OrderStatuses
    && UpdatesValid(o.shippingUpdates)
  }

  /** `Packaging` is a shipping-update value only, never an order status. */
  lemma PackagingIsNoOrderStatus()
    ensures Packaging in UpdateStatuses && Packaging !in OrderStatuses
    ensures OrderStatuses * UpdateStatuses == {AwaitingVerification, Shipped, Delivered, Cancelled, OnHold}
  {
  }

  // ---------------------------------------------------------------------------
  // The pre-save hooks

  /** `item.buyPrice || 0`. */
  function BuyPriceOrZero(it: OrderItem): int {
    if it.buyPrice.Some? then it.buyPrice.value else 0
  }

  /** Σ (`buyPrice` or 0) × `quantity`, summed from the first line on. */
  function BuyTotal(items: seq<OrderItem>): int {
    if items == [] then 0 else BuyTotal(items[..|items| - 1]) + BuyPriceOrZero(items[|items| - 1]) * items[|items| - 1].quantity
  }

  /** Σ `price` × `quantity`. */
  function ProductTotal(items: seq<OrderItem>): int {
    if items == [] then 0 else ProductTotal(items[..|items| - 1]) + items[|items| - 1].price * items[|items| - 1].quantity
  }

  /** Σ (`price` − (`buyPrice` or 0)) × `quantity`: what the lines earn. */
  function Margin(items: seq<OrderItem>): int {
    if items == [] then 0
    else Margin(items[..|items| - 1]) + (items[|items| - 1].price - BuyPriceOrZero(items[|items| - 1])) * items[|items| - 1].quantity
  }

  lemma {:induction false} MarginIsDifference(items: seq<OrderItem>)
    ensures Margin(items) == ProductTotal(items) - BuyTotal(items)
  {
    if items != [] {
      var init := items[..|items| - 1];
      var last := items[|items| - 1];
      MarginIsDifference(init);
      assert (last.price - BuyPriceOrZero(last)) * last.quantity
          == last.price * last.quantity - BuyPriceOrZero(last) * last.quantity;
    }
  }

  /** With valid quantities and buy prices no higher than the prices, no line loses money. */
  lemma {:induction false} MarginNonNegative(items: seq<OrderItem>)
    requires ItemsValid(items)
    requires forall k :: 0 <= k < |items| ==> BuyPriceOrZero(items[k]) <= items[k].price
    ensures Margin(items) >= 0
  {
    if items != [] {
      var init := items[..|items| - 1];
      assert forall k :: 0 <= k < |init| ==> init[k] == items[k];
      MarginNonNegative(init);
      var last := items[|items| - 1];
      assert last.quantity >= 1 && last.price - BuyPriceOrZero(last) >= 0;
    }
  }

  /** The shipping updates pushed by the first hook on a new order. */
  function OpeningUpdates(p: PaymentDetails, now: int): (us: seq<ShippingUpdate>)
    ensures |us| >= 1 && us[0] == ShippingUpdate(OrderReceived, now, "")
    ensures p.paymentMethod == CashOnDelivery ==> us == [us[0], ShippingUpdate(Packaging, now, "Cash on Delivery")]
    ensures p.paymentMethod != CashOnDelivery && p.paymentStatus == Pending ==>
      us == [us[0], ShippingUpdate(AwaitingVerification, now, "")]
    ensures p.paymentMethod != CashOnDelivery && p.paymentStatus != Pending ==> us == [us[0]]
    ensures UpdatesValid(us)
  {
    var received := ShippingUpdate(OrderReceived, now, "");
    if p.paymentMethod == CashOnDelivery then [received, ShippingUpdate(Packaging, now, "Cash on Delivery")]
    else if p.paymentStatus == Pending then [received, ShippingUpdate(AwaitingVerification, now, "")]
    else [received]
  }

  /** What the first hook leaves of a new order: cash on delivery is verified and in processing. */
  function Opened(o: Order, now: int): (r: Order)
    ensures r.shippingUpdates == o.shippingUpdates + OpeningUpdates(o.paymentDetails, now)
    ensures o.paymentDetails.paymentMethod == CashOnDelivery ==>
      r.paymentDetails.paymentStatus == PaymentVerified && r.orderStatus == Processing
    ensures o.paymentDetails.paymentMethod != CashOnDelivery ==> r.paymentDetails == o.paymentDetails && r.orderStatus == o.orderStatus
    ensures r.paymentDetails.(paymentStatus := o.paymentDetails.paymentStatus) == o.paymentDetails
    ensures r.(paymentDetails := o.paymentDetails, orderStatus := o.orderStatus, shippingUpdates := o.shippingUpdates) == o
    ensures OrderSchemaValid(o) ==> OrderSchemaValid(r)
  {
    var us := o.shippingUpdates + OpeningUpdates(o.paymentDetails, now);
    assert UpdatesValid(o.shippingUpdates) ==> UpdatesValid(us) by {
      forall k | 0 <= k < |us| && UpdatesValid(o.shippingUpdates) ensures us[k].status in UpdateStatuses {
        if k >= |o.shippingUpdates| { assert us[k] == OpeningUpdates(o.paymentDetails, now)[k - |o.shippingUpdates|]; }
      }
    }
    if o.paymentDetails.paymentMethod == CashOnDelivery then
      o.(paymentDetails := o.paymentDetails.(paymentStatus := PaymentVerified), orderStatus := Processing, shippingUpdates := us)
    else o.(shippingUpdates := us)
  }

  /** What the second hook leaves: the buy total and the profit after cost and shipping. */
  function WithTotals(o: Order): (r: Order)
    ensures r.totalBuyAmount == BuyTotal(o.items)
    ensures r.totalProfit + r.totalBuyAmount + r.shippingCost == r.totalAmount
    ensures r.(totalBuyAmount := o.totalBuyAmount, totalProfit := o.totalProfit) == o
  {
    o.(totalBuyAmount := BuyTotal(o.items), totalProfit := o.totalAmount - BuyTotal(o.items) - o.shippingCost)
  }

  /** The profit the second hook records is what the lines earn beyond their buy price, once the shipping is added back. */
  lemma TotalsProfitIsMargin(o: Order)
    requires ProductTotal(o.items) + o.shippingCost == o.totalAmount
    ensures WithTotals(o).totalProfit == Margin(o.items)
  {
    MarginIsDifference(o.items);
  }

  /** An order document loaded or created in memory; the hooks update it in place. */
  class OrderDocument {
    var data: Order
    var isNew: bool
    var itemsModified: bool
    var id: nat

    /** `new Order({...})`. */
    constructor Create(o: Order)
      ensures data == o && isNew && itemsModified && id == 0
    {
      data, isNew, itemsModified, id := o, true, true, 0;
    }

    /** A document as a find returns it. */
    constructor Load(o: Order, id: nat)
      ensures data == o && !isNew && !itemsModified && this.id == id
    {
      data, isNew, itemsModified, this.id := o, false, false, id;
    }

    /** The first pre-save hook (src/models/Order.js:149-165). */
    method OpeningHook(now: int)
      modifies this
      ensures isNew == old(isNew) && itemsModified == old(itemsModified) && id == old(id)
      ensures old(isNew) ==> data == Opened(old(data), now)
      ensures !old(isNew) ==> data == old(data)
    {
      if isNew {
        data := data.(shippingUpdates := data.shippingUpdates + [ShippingUpdate(OrderReceived, now, "")]);
        if data.paymentDetails.paymentMethod == CashOnDelivery {
          data := data.(paymentDetails := data.paymentDetails.(paymentStatus := PaymentVerified));
          data := data.(orderStatus := Processing);
          data := data.(shippingUpdates := data.shippingUpdates + [ShippingUpdate(Packaging, now, "Cash on Delivery")]);
        } else if data.paymentDetails.paymentStatus == Pending {
          data := data.(shippingUpdates := data.shippingUpdates + [ShippingUpdate(AwaitingVerification, now, "")]);
        }
      }
    }

    /** The second pre-save hook (src/models/Order.js:169-180), with its `forEach` over the lines. */
    method TotalsHook()
      modifies this
      ensures isNew == old(isNew) && itemsModified == old(itemsModified) && id == old(id)
      ensures old(isNew) || old(itemsModified) ==> data == WithTotals(old(data))
      ensures !(old(isNew) || old(itemsModified)) ==> data == old(data)
    {
      if itemsModified || isNew {
        var items := data.items;
        var totalBuy := 0;
        var i := 0;
        while i < |items|
          invariant 0 <= i <= |items|
          invariant totalBuy == BuyTotal(items[..i])
        {
          assert items[..i + 1][..i] == items[..i];
          totalBuy := totalBuy + BuyPriceOrZero(items[i]) * items[i].quantity;
          i := i + 1;
        }
        assert items[..|items|] == items;
        data := data.(totalBuyAmount := totalBuy);
        data := data.(totalProfit := data.totalAmount - data.totalBuyAmount - data.shippingCost);
      }
    }
  }

  /** Both hooks, in their order. */
  function Hooked(o: Order, isNew: bool, itemsModified: bool, now: int): Order {
    var h := if isNew then Opened(o, now) else o;
    if isNew || itemsModified then WithTotals(h) else h
  }

  /** The `timestamps` option: both stamps on creation, `updatedAt` on every later save. */
  function Stamped(o: Order, isNew: bool, now: int): Order {
    if isNew then o.(createdAt := now, updatedAt := now) else o.(updatedAt := now)
  }

  /** The `orderId` unique index admits `orderId` at position `self` (a new document when out of range). */
  predicate OrderIdFree(orders: seq<Order>, orderId: string, self: int) {
    forall j :: 0 <= j < |orders| && j != self ==> orders[j].orderId != orderId
  }

  predicate OrderIdsUnique(orders: seq<Order>) {
    forall i, j :: 0 <= i < j < |orders| ==> orders[i].orderId != orders[j].orderId
  }

  /** The default find filter. */
  predicate OrderFound(orders: seq<Order>, id: nat) {
    id < |orders| && !orders[id].isDeleted
  }

  /**
   * What holds of every stored order: it passed the schema, its history
   * opens with `Order Received`, its totals are the hook's, its shipping is
   * what the declared total leaves after the lines, and the declared payment
   * is that total.
   */
  predicate OrderInvariant(o: Order) {
    && OrderSchemaValid(o)
    && o.shippingUpdates != [] && o.shippingUpdates[0].status == OrderReceived
    && o.totalBuyAmount == BuyTotal(o.items)
    && o.totalProfit == o.totalAmount - o.totalBuyAmount - o.shippingCost
    && o.shippingCost >= 0 && ProductTotal(o.items) + o.shippingCost == o.totalAmount
    && o.paymentDetails.amount == o.totalAmount
  }

  /** A stored order keeps its invariant through a save that changes only statuses, appends history and restamps. */
  lemma TransitionKeepsInvariant(o: Order, o': Order)
    requires OrderInvariant(o) && OrderSchemaValid(o')
    requires o'.items == o.items && o'.totalAmount == o.totalAmount && o'.shippingCost == o.shippingCost
    requires o'.totalBuyAmount == o.totalBuyAmount && o'.totalProfit == o.totalProfit
    requires o'.paymentDetails.amount == o.paymentDetails.amount
    requires |o'.shippingUpdates| >= |o.shippingUpdates| && o'.shippingUpdates[..|o.shippingUpdates|] == o.shippingUpdates
    ensures OrderInvariant(o')
  {
    assert o'.shippingUpdates[0] == o.shippingUpdates[0];
  }

  /** The order collection's invariant: the `orderId` index and every stored order's invariant. */
  predicate StoredOrdersValid(orders: seq<Order>) {
    OrderIdsUnique(orders) && forall i :: 0 <= i < |orders| ==> OrderInvariant(orders[i])
  }

  lemma AppendOrderKeepsValid(orders: seq<Order>, o: Order)
    requires StoredOrdersValid(orders) && OrderIdFree(orders, o.orderId, -1) && OrderInvariant(o)
    ensures StoredOrdersValid(orders + [o])
  {
    var r := orders + [o];
    forall i | 0 <= i < |r| ensures OrderInvariant(r[i]) {
      if i < |orders| { assert r[i] == orders[i]; }
    }
  }

  lemma ReplaceOrderKeepsValid(orders: seq<Order>, id: nat, o: Order)
    requires StoredOrdersValid(orders) && id < |orders| && OrderIdFree(orders, o.orderId, id) && OrderInvariant(o)
    ensures StoredOrdersValid(orders[id := o])
  {
  }

  /** A stored order's own `orderId` is free at its own position. */
  lemma OwnOrderIdFree(orders: seq<Order>, id: nat)
    requires OrderIdsUnique(orders) && id < |orders|
    ensures OrderIdFree(orders, orders[id].orderId, id)
  {
    forall j | 0 <= j < |orders| && j != id ensures orders[j].orderId != orders[id].orderId {
      if j < id { assert orders[j].orderId != orders[id].orderId; } else { assert orders[id].orderId != orders[j].orderId; }
    }
  }

  /**
   * A new order that passed the schema, has no history yet, is priced (the
   * lines and the shipping make up the declared total) and declares that
   * total as its payment, is stored with the invariant.
   */
  lemma NewOrderInvariant(o: Order, now: int)
    requires OrderSchemaValid(o) && o.shippingUpdates == []
    requires o.shippingCost >= 0 && ProductTotal(o.items) + o.shippingCost == o.totalAmount
    requires o.paymentDetails.amount == o.totalAmount
    ensures OrderInvariant(Stamped(Hooked(o, true, true, now), true, now))
  {
    var h := Opened(o, now);
    assert h.items == o.items && h.totalAmount == o.totalAmount && h.shippingCost == o.shippingCost;
    assert h.paymentDetails.amount == o.paymentDetails.amount;
  }

  class OrderStore {
    var orders: seq<Order>

    ghost predicate Valid()
      reads this
    {
      StoredOrdersValid(orders)
    }

    constructor ()
      ensures Valid() && orders == []
    {
      orders := [];
    }

    /**
     * `doc.save()`: validation, the two hooks, the timestamps, the unique
     * index, then the insert (a new document) or the replacement (a loaded one).
     */
    method Save(d: OrderDocument, now: int) returns (r: Result<nat, StoreFailure>)
      requires !d.isNew ==> d.id < |orders|
      modifies this, d
      ensures var self := if old(d.isNew) then -1 else old(d.id) as int;
        var stored := Stamped(Hooked(old(d.data), old(d.isNew), old(d.itemsModified), now), old(d.isNew), now);
        && (r.Ok? <==> OrderSchemaValid(old(d.data)) && OrderIdFree(old(orders), old(d.data).orderId, self))
        && (!OrderSchemaValid(old(d.data)) ==> r == Err(ValidationFailed))
        && (OrderSchemaValid(old(d.data)) && r.Err? ==> r == Err(DuplicateKey))
        && (r.Err? ==> r.error in {ValidationFailed, DuplicateKey} && orders == old(orders))
        && (r.Ok? && old(d.isNew) ==> r.value == |old(orders)| && orders == old(orders) + [stored])
        && (r.Ok? && !old(d.isNew) ==> r.value == old(d.id) && orders == old(orders)[old(d.id) := stored])
        && (r.Ok? ==> d.data == stored && d.id == r.value && !d.isNew)
    {
      if !OrderSchemaValid(d.data) {
        return Err(ValidationFailed);
      }
      ghost var before := d.data;
      d.OpeningHook(now);
      d.TotalsHook();
      assert d.data == Hooked(before, d.isNew, d.itemsModified, now);
      var stored := Stamped(d.data, d.isNew, now);
      var self := if d.isNew then -1 else d.id as int;
      if !OrderIdFree(orders, stored.orderId, self) {
        return Err(DuplicateKey);
      }
      d.data := stored;
      if d.isNew {
        d.id := |orders|;
        orders := orders + [stored];
        d.isNew := false;
      } else {
        orders := orders[d.id := stored];
      }
      d.itemsModified := false;
      r := Ok(d.id);
    }

    /**
     * `new Order(o).save()` for an order as `createOrder` builds it: priced,
     * with no history yet. The stored order keeps the collection's invariant.
     */
    method SaveNew(o: Order, now: int) returns (r: Result<nat, StoreFailure>)
      requires Valid()
      requires o.shippingUpdates == [] && o.shippingCost >= 0 && ProductTotal(o.items) + o.shippingCost == o.totalAmount
      requires o.paymentDetails.amount == o.totalAmount
      modifies this
      ensures Valid()
      ensures r.Ok? <==> OrderSchemaValid(o) && OrderIdFree(old(orders), o.orderId, -1)
      ensures r.Ok? ==> r.value == |old(orders)| && orders == old(orders) + [Stamped(Hooked(o, true, true, now), true, now)]
      ensures r.Err? ==> orders == old(orders) && r.error == if OrderSchemaValid(o) then DuplicateKey else ValidationFailed
    {
      var d := new OrderDocument.Create(o);
      r := Save(d, now);
      if r.Ok? {
        NewOrderInvariant(o, now);
        AppendOrderKeepsValid(old(orders), d.data);
      }
    }
  }

  /** A new order saved with no history has one that opens with `Order Received`. */
  lemma NewOrderHistoryOpens(o: Order, now: int)
    requires o.shippingUpdates == []
    ensures var s := Stamped(Hooked(o, true, true, now), true, now);
      && s.shippingUpdates == OpeningUpdates(o.paymentDetails, now)
      && s.shippingUpdates[0].status == OrderReceived
      && s.totalBuyAmount == BuyTotal(o.items)
      && s.totalProfit == o.totalAmount - BuyTotal(o.items) - o.shippingCost
      && s.createdAt == now && s.updatedAt == now
  {
  }

  /** A loaded order whose lines are untouched keeps its totals through a save. */
  lemma LoadedSaveKeepsTotals(o: Order, now: int)
    ensures Stamped(Hooked(o, false, false, now), false, now) == o.(updatedAt := now)
  {
  }
}
