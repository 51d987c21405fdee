/**
 * The order handlers of the customer-facing shop
 * (src/controllers/orderController.js): placing an order with server-side
 * prices, the customer's cancellation, the administrator's payment
 * verification and shipping updates, and the public tracking view. Each
 * handler is a method over the order collection that loads or creates an
 * `OrderDocument`, changes it and saves it, and is proved equal to a function
 * of the collection that the lemmas below reason about.
 */
module NcbdOrders {
  import opened Common
  import opened NcbdProduct
  import opened NcbdOrderModel
  import opened NcbdOrderId

  datatype Error =
    | NoItems
    | MissingProductId
    | ProductNotFound(productId: nat)
    | AmountBelowProducts
    | AmountMismatch
    | OrderNotFound
    | AlreadyCancelled
    | NotCancellable(status: string)
    | AlreadyVerified
    | Store(failure: StoreFailure)

  /** The HTTP status each failure is answered with. */
  function ErrorStatus(e: Error): (code: nat)
    ensures code == 404 <==> e.ProductNotFound? || e.OrderNotFound?
    ensures code == 409 <==> e == Store(DuplicateKey)
    ensures code == 400 || code == 404 || code == 409
  {
    match e
    case ProductNotFound(_) => 404
    case OrderNotFound => 404
    case Store(f) => StoreFailureStatus(f)
    case _ => 400
  }

  // ---------------------------------------------------------------------------
  // Placing an order

  /** One requested line: the product id (`productId`, else `product`) and the quantity. */
  datatype RequestItem = RequestItem(productId: Option<nat>, quantity: int)

  datatype PaymentInput = PaymentInput(
    paymentMethod: string,
    transactionId: string,
    senderNumber: string,
    amount: int,
    paymentStatus: Option<string>)

  /** The request body; a `totalAmount` of 0 stands for a missing or falsy one. */
  datatype OrderRequest = OrderRequest(
    items: seq<RequestItem>,
    shippingAddress: Address,
    payment: PaymentInput,
    totalAmount: int)

  /** `Product.findById`: the soft-delete filter hides deleted and archived products. */
  predicate ProductAvailable(products: seq<Product>, id: nat) {
    id < |products| && Visible(products[id])
  }

  predicate ItemResolves(products: seq<Product>, it: RequestItem) {
    it.productId.Some? && ProductAvailable(products, it.productId.value)
  }

  function ItemError(it: RequestItem): Error {
    if it.productId.None? then MissingProductId else ProductNotFound(it.productId.value)
  }

  /** The line stored for a product: the price a customer pays now and the buy price, fixed at order time. */
  function Snapshot(p: Product, id: nat, quantity: int): (it: OrderItem)
    ensures it.price == EffectivePrice(p) && it.buyPrice == Some(p.buyPrice)
    ensures it.product == id && it.title == p.titleEn && it.quantity == quantity
  {
    OrderItem(id, p.titleEn, quantity, EffectivePrice(p), Some(p.buyPrice))
  }

  /** The lines of a request, priced in order; the first line that does not resolve decides the failure. */
  function Priced(products: seq<Product>, req: seq<RequestItem>): (r: Result<seq<OrderItem>, Error>)
    ensures r.Ok? ==> |r.value| == |req|
    ensures r.Ok? ==> forall k :: 0 <= k < |req| ==>
      ItemResolves(products, req[k]) && r.value[k] == Snapshot(products[req[k].productId.value], req[k].productId.value, req[k].quantity)
    ensures r.Err? ==> r.error == MissingProductId || r.error.ProductNotFound?
  {
    if req == [] then Ok([])
    else
      match Priced(products, req[..|req| - 1])
      case Err(e) => Err(e)
      case Ok(init) =>
        var it := req[|req| - 1];
        if !ItemResolves(products, it) then Err(ItemError(it))
        else Ok(init + [Snapshot(products[it.productId.value], it.productId.value, it.quantity)])
  }

  /** Pricing succeeds exactly when every line names a product that can be found. */
  lemma {:induction false} PricedOk(products: seq<Product>, req: seq<RequestItem>)
    ensures Priced(products, req).Ok? <==> forall k :: 0 <= k < |req| ==> ItemResolves(products, req[k])
  {
    if req != [] {
      var init := req[..|req| - 1];
      PricedOk(products, init);
      assert forall k :: 0 <= k < |init| ==> init[k] == req[k];
    }
  }

  /** The first line that does not resolve decides the failure. */
  lemma {:induction false} PricedFirstFailure(products: seq<Product>, req: seq<RequestItem>, k: nat)
    requires k < |req| && !ItemResolves(products, req[k])
    requires forall j :: 0 <= j < k ==> ItemResolves(products, req[j])
    ensures Priced(products, req) == Err(ItemError(req[k]))
  {
    var init := req[..|req| - 1];
    if k == |req| - 1 {
      assert forall j :: 0 <= j < |init| ==> init[j] == req[j];
      PricedOk(products, init);
    } else {
      PricedFirstFailure(products, init, k);
    }
  }

  /** A failure of a prefix is the failure of the whole request. */
  lemma PricedPrefixFailure(products: seq<Product>, req: seq<RequestItem>, j: nat)
    requires j <= |req| && Priced(products, req[..j]).Err?
    ensures Priced(products, req) == Priced(products, req[..j])
    decreases |req| - j
  {
    if j == |req| {
      assert req[..j] == req;
    } else {
      assert req[..j + 1][..j] == req[..j];
      PricedPrefixFailure(products, req, j + 1);
    }
  }

  /** Pricing one more line of a request whose prefix priced. */
  lemma PricedStep(products: seq<Product>, req: seq<RequestItem>, i: nat)
    requires i < |req| && Priced(products, req[..i]).Ok?
    ensures !ItemResolves(products, req[i]) ==> Priced(products, req[..i + 1]) == Err(ItemError(req[i]))
    ensures ItemResolves(products, req[i]) ==> (Priced(products, req[..i + 1]) ==
      Ok(Priced(products, req[..i]).value + [Snapshot(products[req[i].productId.value], req[i].productId.value, req[i].quantity)]))
  {
    assert req[..i + 1][..i] == req[..i];
  }

  lemma ProductTotalAppend(items: seq<OrderItem>, line: OrderItem)
    ensures ProductTotal(items + [line]) == ProductTotal(items) + line.price * line.quantity
  {
    assert (items + [line])[..|items|] == items;
  }

  /** One pass of that loop: the line's product id, the product lookup, the snapshot. */
  method PriceLine(products: seq<Product>, it: RequestItem) returns (r: Result<OrderItem, Error>)
    ensures !ItemResolves(products, it) ==> r == Err(ItemError(it))
    ensures ItemResolves(products, it) ==> r == Ok(Snapshot(products[it.productId.value], it.productId.value, it.quantity))
  {
    if it.productId.None? {
      return Err(MissingProductId);
    }
    var id := it.productId.value;
    if !ProductAvailable(products, id) {
      return Err(ProductNotFound(id));
    }
    r := Ok(Snapshot(products[id], id, it.quantity));
  }

  /** The `for` loop of `createOrder`: looks each line up, snapshots it and sums the product total. */
  method PriceItems(products: seq<Product>, req: seq<RequestItem>) returns (r: Result<(seq<OrderItem>, int), Error>)
    ensures Priced(products, req).Err? ==> r == Err(Priced(products, req).error)
    ensures Priced(products, req).Ok? ==> r == Ok((Priced(products, req).value, ProductTotal(Priced(products, req).value)))
  {
    var itemsToSave: seq<OrderItem> := [];
    var total := 0;
    var i := 0;
    while i < |req|
      invariant 0 <= i <= |req|
      invariant Priced(products, req[..i]) == Ok(itemsToSave)
      invariant total == ProductTotal(itemsToSave)
    {
      var priced := PriceLine(products, req[i]);
      PricedStep(products, req, i);
      if priced.Err? {
        PricedPrefixFailure(products, req, i + 1);
        return Err(priced.error);
      }
      var line := priced.value;
      ProductTotalAppend(itemsToSave, line);
      total := total + line.price * line.quantity;
      itemsToSave := itemsToSave + [line];
      i := i + 1;
    }
    assert req[..|req|] == req;
    assert Priced(products, req) == Ok(itemsToSave);
    r := Ok((itemsToSave, total));
  }

  /** `totalAmount || paymentDetails.amount`. */
  function GrandTotal(req: OrderRequest): int {
    if req.totalAmount != 0 then req.totalAmount else req.payment.amount
  }

  /** The checks `createOrder` makes before it builds the order: the lines, then the shipping, then the payment. */
  function Checked(products: seq<Product>, req: OrderRequest): (r: Result<(seq<OrderItem>, int), Error>)
    ensures r.Ok? ==> Priced(products, req.items) == Ok(r.value.0)
    ensures r.Ok? ==> r.value.1 >= 0 && ProductTotal(r.value.0) + r.value.1 == GrandTotal(req) == req.payment.amount
    ensures r.Ok? ==> req.items != []
  {
    if req.items == [] then Err(NoItems)
    else
      match Priced(products, req.items)
      case Err(e) => Err(e)
      case Ok(items) =>
        var shipping := GrandTotal(req) - ProductTotal(items);
        if shipping < 0 then Err(AmountBelowProducts)
        else if GrandTotal(req) != req.payment.amount then Err(AmountMismatch)
        else Ok((items, shipping))
  }

  /** Which failure a request meets first. */
  lemma CheckedFailures(products: seq<Product>, req: OrderRequest)
    ensures req.items == [] ==> Checked(products, req) == Err(NoItems)
    ensures req.items != [] && Priced(products, req.items).Err? ==> Checked(products, req) == Err(Priced(products, req.items).error)
    ensures req.items != [] && Priced(products, req.items).Ok? && GrandTotal(req) < ProductTotal(Priced(products, req.items).value) ==>
      Checked(products, req) == Err(AmountBelowProducts)
    ensures Checked(products, req) == Err(AmountMismatch) ==> req.totalAmount != 0 && req.totalAmount != req.payment.amount
  {
  }

  /** The document `createOrder` saves: the defaults of the schema, the trimmed payment fields, no history yet. */
  function NewOrder(orderId: string, user: nat, items: seq<OrderItem>, req: OrderRequest, shipping: int): (o: Order)
    ensures o.shippingUpdates == [] && o.orderStatus == AwaitingVerification && !o.isDeleted
    ensures o.totalAmount == GrandTotal(req) && o.shippingCost == shipping && o.paymentDetails.amount == req.payment.amount
    ensures o.paymentDetails.paymentStatus == if req.payment.paymentStatus.Some? then req.payment.paymentStatus.value else Pending
  {
    var p := req.payment;
    var status := if p.paymentStatus.Some? then p.paymentStatus.value else Pending;
    Order(orderId, user, items, req.shippingAddress,
          PaymentDetails(p.paymentMethod, Trim(p.transactionId), Trim(p.senderNumber), p.amount, status, None),
          GrandTotal(req), shipping, 0, 0, AwaitingVerification, [], false, 0, 0)
  }

  /** What `createOrder` writes for a request that passed its checks. */
  function Placed(orders: seq<Order>, user: nat, items: seq<OrderItem>, req: OrderRequest, shipping: int,
                  datePart: string, dayStart: int, dayEnd: int): Order {
    NewOrder(GenerateOrderId(orders, datePart, dayStart, dayEnd), user, items, req, shipping)
  }

  /** The checks of `createOrder`, in its order, with the pricing loop. */
  method CheckOrder(products: seq<Product>, req: OrderRequest) returns (r: Result<(seq<OrderItem>, int), Error>)
    ensures r == Checked(products, req)
  {
    if req.items == [] {
      return Err(NoItems);
    }
    var priced := PriceItems(products, req.items);
    if priced.Err? {
      return Err(priced.error);
    }
    var items := priced.value.0;
    var productTotal := priced.value.1;
    var grand := if req.totalAmount != 0 then req.totalAmount else req.payment.amount;
    var shipping := grand - productTotal;
    if shipping < 0 {
      return Err(AmountBelowProducts);
    }
    if grand != req.payment.amount {
      return Err(AmountMismatch);
    }
    r := Ok((items, shipping));
  }

  /** `createOrder`: the checks, the order number, then the save that validates, runs the hooks and the unique index. */
  method CreateOrder(store: OrderStore, products: seq<Product>, user: nat, req: OrderRequest,
                     datePart: string, dayStart: int, dayEnd: int, now: int) returns (r: Result<nat, Error>)
    requires store.Valid()
    modifies store
    ensures store.Valid()
    ensures Checked(products, req).Err? ==> r == Err(Checked(products, req).error) && store.orders == old(store.orders)
    ensures Checked(products, req).Ok? ==>
      var o := Placed(old(store.orders), user, Checked(products, req).value.0, req, Checked(products, req).value.1, datePart, dayStart, dayEnd);
      && (r.Ok? <==> OrderSchemaValid(o) && OrderIdFree(old(store.orders), o.orderId, -1))
      && (r.Ok? ==> r.value == |old(store.orders)| && store.orders == old(store.orders) + [Stamped(Hooked(o, true, true, now), true, now)])
      && (r.Err? ==> r.error in {Store(ValidationFailed), Store(DuplicateKey)} && store.orders == old(store.orders))
  {
    var checked := CheckOrder(products, req);
    if checked.Err? {
      return Err(checked.error);
    }
    var orderId := FormatOrderId(datePart, TodayCount(store.orders, dayStart, dayEnd) + 1);
    var o := NewOrder(orderId, user, checked.value.0, req, checked.value.1);
    var s := store.SaveNew(o, now);
    if s.Err? {
      return Err(Store(s.error));
    }
    r := Ok(s.value);
  }

  /** A client may declare its own payment `Verified`: the schema accepts it and no history entry asks for verification. */
  lemma ClientDeclaredVerified(o: Order, now: int)
    requires o.paymentDetails.paymentMethod != CashOnDelivery && o.paymentDetails.paymentStatus == PaymentVerified
    requires o.shippingUpdates == []
    ensures Hooked(o, true, true, now).shippingUpdates == [ShippingUpdate(OrderReceived, now, "")]
    ensures Hooked(o, true, true, now).paymentDetails.paymentStatus == PaymentVerified
  {
  }

  // ---------------------------------------------------------------------------
  // Changing a stored order

  const CancellableStatuses: set<string> := {AwaitingVerification, Processing, Packaging, OnHold}
  const CancelNote := "Order cancelled by customer."
  const VerifiedNote := "Payment verified by admin."

  /** `findOne({ _id, user })` of `cancelOrder`, under the soft-delete filter. */
  predicate OwnOrderFound(orders: seq<Order>, id: nat, caller: nat) {
    OrderFound(orders, id) && orders[id].user == caller
  }

  /** The outcome of `cancelOrder`: which check fails first, or the order as saved. */
  function Cancellation(orders: seq<Order>, id: nat, caller: nat, now: int): (r: Result<Order, Error>)
    ensures r.Ok? <==> OwnOrderFound(orders, id, caller) && orders[id].orderStatus != Cancelled && orders[id].orderStatus in CancellableStatuses
    ensures r.Err? ==> r.error in {OrderNotFound, AlreadyCancelled} || r.error.NotCancellable?
    ensures !OwnOrderFound(orders, id, caller) ==> r == Err(OrderNotFound)
  {
    if !OwnOrderFound(orders, id, caller) then Err(OrderNotFound)
    else
      var o := orders[id];
      if o.orderStatus == Cancelled then Err(AlreadyCancelled)
      else if o.orderStatus !in CancellableStatuses then Err(NotCancellable(o.orderStatus))
      else Ok(o.(orderStatus := Cancelled, shippingUpdates := o.shippingUpdates + [ShippingUpdate(Cancelled, now, CancelNote)], updatedAt := now))
  }

  /** The outcome of `verifyPayment`. */
  function Verification(orders: seq<Order>, id: nat, now: int): (r: Result<Order, Error>)
    ensures r.Ok? <==> OrderFound(orders, id) && orders[id].paymentDetails.paymentStatus != PaymentVerified
    ensures !OrderFound(orders, id) ==> r == Err(OrderNotFound)
    ensures r.Err? ==> r.error in {OrderNotFound, AlreadyVerified}
  {
    if !OrderFound(orders, id) then Err(OrderNotFound)
    else
      var o := orders[id];
      if o.paymentDetails.paymentStatus == PaymentVerified then Err(AlreadyVerified)
      else Ok(o.(paymentDetails := o.paymentDetails.(paymentStatus := PaymentVerified, verifiedAt := Some(now)),
                 orderStatus := Processing,
                 shippingUpdates := o.shippingUpdates + [ShippingUpdate(Packaging, now, VerifiedNote)],
                 updatedAt := now))
  }

  /** The document `updateShippingStatus` hands to the save, before validation. */
  function WithShippingUpdate(o: Order, status: string, notes: string, now: int): Order {
    o.(shippingUpdates := o.shippingUpdates + [ShippingUpdate(status, now, Trim(notes))], orderStatus := status)
  }

  /** The outcome of `updateShippingStatus`: any status the schema accepts, whatever the current one. */
  function StatusUpdate(orders: seq<Order>, id: nat, status: string, notes: string, now: int): (r: Result<Order, Error>)
    ensures !OrderFound(orders, id) ==> r == Err(OrderNotFound)
    ensures r.Err? ==> r.error in {OrderNotFound, Store(ValidationFailed)}
  {
    if !OrderFound(orders, id) then Err(OrderNotFound)
    else
      var o := WithShippingUpdate(orders[id], status, notes, now);
      if !OrderSchemaValid(o) then Err(Store(ValidationFailed)) else Ok(o.(updatedAt := now))
  }

  /** A status change keeps the stored order's invariant. */
  lemma {:induction false} ChangeKeepsValid(orders: seq<Order>, id: nat, o': Order)
    requires StoredOrdersValid(orders) && id < |orders| && OrderSchemaValid(o')
    requires var o := orders[id];
      && o'.orderId == o.orderId && o'.items == o.items && o'.totalAmount == o.totalAmount && o'.shippingCost == o.shippingCost
      && o'.totalBuyAmount == o.totalBuyAmount && o'.totalProfit == o.totalProfit && o'.paymentDetails.amount == o.paymentDetails.amount
      && |o'.shippingUpdates| == |o.shippingUpdates| + 1 && o'.shippingUpdates[..|o.shippingUpdates|] == o.shippingUpdates
    ensures StoredOrdersValid(orders[id := o'])
  {
    TransitionKeepsInvariant(orders[id], o');
    OwnOrderIdFree(orders, id);
    ReplaceOrderKeepsValid(orders, id, o');
  }

  /** The history of an order grows by exactly `u` and keeps its earlier entries. */
  predicate AppendsOne(o: Order, o': Order, u: ShippingUpdate) {
    o'.shippingUpdates == o.shippingUpdates + [u]
  }

  /** `cancelOrder`. */
  method CancelOrder(store: OrderStore, id: nat, caller: nat, now: int) returns (r: Result<Order, Error>)
    requires store.Valid()
    modifies store
    ensures store.Valid()
    ensures r == Cancellation(old(store.orders), id, caller, now)
    ensures store.orders == if r.Ok? then old(store.orders)[id := r.value] else old(store.orders)
  {
    if !OwnOrderFound(store.orders, id, caller) {
      return Err(OrderNotFound);
    }
    var d := new OrderDocument.Load(store.orders[id], id);
    if d.data.orderStatus == Cancelled {
      return Err(AlreadyCancelled);
    }
    if d.data.orderStatus !in CancellableStatuses {
      return Err(NotCancellable(d.data.orderStatus));
    }
    d.data := d.data.(orderStatus := Cancelled);
    d.data := d.data.(shippingUpdates := d.data.shippingUpdates + [ShippingUpdate(Cancelled, now, CancelNote)]);
    OwnOrderIdFree(store.orders, id);
    var s := store.Save(d, now);
    assert s.Ok?;
    ChangeKeepsValid(old(store.orders), id, d.data);
    r := Ok(d.data);
  }

  /** `verifyPayment`. */
  method VerifyPayment(store: OrderStore, id: nat, now: int) returns (r: Result<Order, Error>)
    requires store.Valid()
    modifies store
    ensures store.Valid()
    ensures r == Verification(old(store.orders), id, now)
    ensures store.orders == if r.Ok? then old(store.orders)[id := r.value] else old(store.orders)
  {
    if !OrderFound(store.orders, id) {
      return Err(OrderNotFound);
    }
    var d := new OrderDocument.Load(store.orders[id], id);
    if d.data.paymentDetails.paymentStatus == PaymentVerified {
      return Err(AlreadyVerified);
    }
    d.data := d.data.(paymentDetails := d.data.paymentDetails.(paymentStatus := PaymentVerified));
    d.data := d.data.(paymentDetails := d.data.paymentDetails.(verifiedAt := Some(now)));
    d.data := d.data.(orderStatus := Processing);
    d.data := d.data.(shippingUpdates := d.data.shippingUpdates + [ShippingUpdate(Packaging, now, VerifiedNote)]);
    OwnOrderIdFree(store.orders, id);
    var s := store.Save(d, now);
    assert s.Ok?;
    ChangeKeepsValid(old(store.orders), id, d.data);
    r := Ok(d.data);
  }

  /** `updateShippingStatus`; an empty `status` stands for a missing one. */
  method UpdateShippingStatus(store: OrderStore, id: nat, status: string, notes: string, now: int) returns (r: Result<Order, Error>)
    requires store.Valid()
    modifies store
    ensures store.Valid()
    ensures r == StatusUpdate(old(store.orders), id, status, notes, now)
    ensures store.orders == if r.Ok? then old(store.orders)[id := r.value] else old(store.orders)
  {
    if !OrderFound(store.orders, id) {
      return Err(OrderNotFound);
    }
    var d := new OrderDocument.Load(store.orders[id], id);
    d.data := d.data.(shippingUpdates := d.data.shippingUpdates + [ShippingUpdate(status, now, Trim(notes))]);
    d.data := d.data.(orderStatus := status);
    OwnOrderIdFree(store.orders, id);
    var s := store.Save(d, now);
    if s.Err? {
      return Err(Store(s.error));
    }
    ChangeKeepsValid(old(store.orders), id, d.data);
    r := Ok(d.data);
  }

  // ---------------------------------------------------------------------------
  // Properties of the transitions

  /** A cancellation sets `Cancelled` and appends exactly one `Cancelled` entry; only the owner can cancel, and only once. */
  lemma CancellationEffect(orders: seq<Order>, id: nat, caller: nat, now: int)
    requires Cancellation(orders, id, caller, now).Ok?
    ensures var o' := Cancellation(orders, id, caller, now).value;
      && orders[id].user == caller
      && o'.orderStatus == Cancelled && AppendsOne(orders[id], o', ShippingUpdate(Cancelled, now, CancelNote))
      && Cancellation(orders[id := o'], id, caller, now + 1) == Err(AlreadyCancelled)
      && forall other :: other != caller ==> Cancellation(orders, id, other, now) == Err(OrderNotFound)
  {
  }

  /** In a collection whose orders passed the schema, `Packaging` is never the status being cancelled from. */
  lemma CancellableStoredStatuses(orders: seq<Order>, id: nat, caller: nat, now: int)
    requires StoredOrdersValid(orders) && OwnOrderFound(orders, id, caller)
    ensures Cancellation(orders, id, caller, now).Ok? <==> orders[id].orderStatus in {AwaitingVerification, Processing, OnHold}
    ensures orders[id].orderStatus in {Shipped, Delivered} ==> Cancellation(orders, id, caller, now) == Err(NotCancellable(orders[id].orderStatus))
  {
    assert OrderInvariant(orders[id]);
  }

  /** Verification sets `Verified`, its time, `Processing`, appends one `Packaging` entry, and cannot be repeated. */
  lemma VerificationEffect(orders: seq<Order>, id: nat, now: int)
    requires Verification(orders, id, now).Ok?
    ensures var o' := Verification(orders, id, now).value;
      && o'.paymentDetails.paymentStatus == PaymentVerified && o'.paymentDetails.verifiedAt == Some(now)
      && o'.orderStatus == Processing && AppendsOne(orders[id], o', ShippingUpdate(Packaging, now, VerifiedNote))
      && Verification(orders[id := o'], id, now + 1) == Err(AlreadyVerified)
  {
  }

  /** Verification does not look at the order status: a cancelled order with an unverified payment is reopened. */
  lemma VerificationReopensCancelled(orders: seq<Order>, id: nat, now: int)
    requires OrderFound(orders, id) && orders[id].orderStatus == Cancelled
    requires orders[id].paymentDetails.paymentStatus == Pending
    ensures Verification(orders, id, now).Ok? && Verification(orders, id, now).value.orderStatus == Processing
  {
  }

  /** The statuses a shipping update can set: those both enumerations share. */
  const SettableStatuses: set<string> := {AwaitingVerification, Shipped, Delivered, Cancelled, OnHold}

  /** A shipping update succeeds for a stored order exactly when the status is settable, whatever the current status. */
  lemma StatusUpdateAccepts(orders: seq<Order>, id: nat, status: string, notes: string, now: int)
    requires StoredOrdersValid(orders) && OrderFound(orders, id)
    ensures StatusUpdate(orders, id, status, notes, now).Ok? <==> status in SettableStatuses
    ensures StatusUpdate(orders, id, status, notes, now).Ok? ==>
      var o' := StatusUpdate(orders, id, status, notes, now).value;
      o'.orderStatus == status && AppendsOne(orders[id], o', ShippingUpdate(status, now, Trim(notes)))
  {
    assert OrderInvariant(orders[id]);
    var o := WithShippingUpdate(orders[id], status, notes, now);
    if status in SettableStatuses {
      assert UpdatesValid(o.shippingUpdates) by {
        forall k | 0 <= k < |o.shippingUpdates| ensures o.shippingUpdates[k].status in UpdateStatuses {
          if k < |orders[id].shippingUpdates| { assert o.shippingUpdates[k] == orders[id].shippingUpdates[k]; }
        }
      }
    } else {
      var u := o.shippingUpdates[|o.shippingUpdates| - 1];
      assert u.status == status;
      assert !(status in UpdateStatuses && status in OrderStatuses);
    }
  }

  /** `In Transit`, `Out for Delivery`, `Order Received`, `Packaging` and `Processing` cannot be set by a shipping update. */
  lemma UnsettableStatuses()
    ensures InTransit !in SettableStatuses && OutForDelivery !in SettableStatuses && OrderReceived !in SettableStatuses
    ensures Packaging !in SettableStatuses && Processing !in SettableStatuses
    ensures SettableStatuses == UpdateStatuses * OrderStatuses
  {
  }

  // ---------------------------------------------------------------------------
  // Public tracking

  /** What `trackOrderById` reveals: no prices, no customer, no payment. */
  datatype Tracking = Tracking(
    orderId: string,
    orderStatus: string,
    shippingUpdates: seq<ShippingUpdate>,
    createdAt: int,
    isDelivered: bool,
    deliveredAt: Option<int>)

  function TrackOrderById(orders: seq<Order>, orderId: string): (r: Result<Tracking, Error>)
    ensures r.Err? <==> forall k :: 0 <= k < |orders| ==> !(orders[k].orderId == orderId && !orders[k].isDeleted)
    ensures r.Err? ==> r.error == OrderNotFound
    ensures r.Ok? ==> exists k :: (0 <= k < |orders| && orders[k].orderId == orderId && !orders[k].isDeleted &&
      r.value == Tracking(orderId, orders[k].orderStatus, orders[k].shippingUpdates, orders[k].createdAt,
                          orders[k].orderStatus == Delivered,
                          if orders[k].orderStatus == Delivered then Some(orders[k].updatedAt) else None))
  {
    match FindFirst(orders, (o: Order) => o.orderId == orderId && !o.isDeleted)
    case None => Err(OrderNotFound)
    case Some(k) =>
      var o := orders[k];
      Ok(Tracking(o.orderId, o.orderStatus, o.shippingUpdates, o.createdAt, o.orderStatus == Delivered,
                  if o.orderStatus == Delivered then Some(o.updatedAt) else None))
  }

  /** A tracking view reports delivery, and a delivery time, exactly for a delivered order. */
  lemma TrackingReportsDelivery(orders: seq<Order>, orderId: string)
    requires TrackOrderById(orders, orderId).Ok?
    ensures var t := TrackOrderById(orders, orderId).value;
      && (t.isDelivered <==> t.orderStatus == Delivered)
      && (t.deliveredAt.Some? <==> t.isDelivered)
  {
  }

  /** With unique order numbers, the tracking view is that of the one stored order with the number. */
  lemma TrackingFindsTheOrder(orders: seq<Order>, i: nat)
    requires OrderIdsUnique(orders) && OrderFound(orders, i)
    ensures var r := TrackOrderById(orders, orders[i].orderId);
      r.Ok? && r.value.orderStatus == orders[i].orderStatus && r.value.shippingUpdates == orders[i].shippingUpdates
  {
    var r := TrackOrderById(orders, orders[i].orderId);
    assert r.Ok?;
    var k :| 0 <= k < |orders| && orders[k].orderId == orders[i].orderId && !orders[k].isDeleted &&
      r.value.orderStatus == orders[k].orderStatus && r.value.shippingUpdates == orders[k].shippingUpdates;
    assert k == i;
  }
}
