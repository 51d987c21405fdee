/**
 * Order placement and lookup in the order service
 * (src/controllers/order.controller.js). The products are only read: their
 * stock is compared with each quantity and never changed. The random draws
 * for the order numbers are a parameter.
 */
module OrdOrders {
  import opened Common
  import opened OrdModel
  import opened OrdOrderId

  const MaxIdAttempts := 5

  datatype Customer = Customer(name: string, phone: string, address: string)

  /** A cart line as the client sends it; a quantity of 0 is the falsy one. */
  datatype RequestItem = RequestItem(productId: Option<nat>, quantity: int)

  datatype Error =
    | MissingCustomer
    | EmptyCart
    | InvalidItem
    | ProductNotFound(productId: nat)
    | NotEnoughStock(productId: nat)
    | IdsExhausted
    | OrderNotFound
    | Store(failure: StoreFailure)

  function ErrorStatus(e: Error): (code: nat)
    ensures code == 404 <==> e.ProductNotFound? || e == OrderNotFound
    ensures code == 500 <==> e == IdsExhausted
    ensures code == 400 <==> e in {MissingCustomer, EmptyCart, InvalidItem, Store(ValidationFailed)} || e.NotEnoughStock?
  {
    match e
    case MissingCustomer => 400
    case EmptyCart => 400
    case InvalidItem => 400
    case ProductNotFound(_) => 404
    case NotEnoughStock(_) => 400
    case IdsExhausted => 500
    case OrderNotFound => 404
    case Store(f) => StoreFailureStatus(f)
  }

  predicate CustomerGiven(c: Option<Customer>) {
    c.Some? && c.value.name != [] && c.value.phone != [] && c.value.address != []
  }

  /** Σ `price` × `quantity`. */
  function ItemsTotal(items: seq<Item>): real {
    if items == [] then 0.0 else ItemsTotal(items[..|items| - 1]) + items[|items| - 1].price * items[|items| - 1].quantity as real
  }

  /** One pass of the item loop: the checks in their order, then the snapshot of the selling price. */
  function Line(products: seq<Product>, it: RequestItem): (r: Result<Item, Error>)
    ensures r.Ok? <==> it.productId.Some? && it.quantity != 0 && it.productId.value < |products|
                       && products[it.productId.value].stock >= it.quantity
    ensures r.Ok? ==> r.value == Item(it.productId.value, it.quantity, products[it.productId.value].sellPrice)
    ensures r.Err? ==> r.error == InvalidItem || r.error.ProductNotFound? || r.error.NotEnoughStock?
  {
    if it.productId.None? || it.quantity == 0 then Err(InvalidItem)
    else
      var id := it.productId.value;
      if id >= |products| then Err(ProductNotFound(id))
      else if products[id].stock < it.quantity then Err(NotEnoughStock(id))
      else Ok(Item(id, it.quantity, products[id].sellPrice))
  }

  /** The item loop over a cart: the first failing line stops it. */
  function Processed(products: seq<Product>, req: seq<RequestItem>): (r: Result<seq<Item>, Error>)
    ensures r.Ok? ==> |r.value| == |req| && forall k :: 0 <= k < |req| ==> Line(products, req[k]) == Ok(r.value[k])
    ensures r.Err? ==> r.error == InvalidItem || r.error.ProductNotFound? || r.error.NotEnoughStock?
  {
    if req == [] then Ok([])
    else match Processed(products, req[..|req| - 1])
      case Err(e) => Err(e)
      case Ok(items) =>
        match Line(products, req[|req| - 1])
        case Err(e) => Err(e)
        case Ok(it) => Ok(items + [it])
  }

  /** A cart fails exactly when some line fails, and then with the error of the first failing line. */
  lemma {:induction false} ProcessedFailure(products: seq<Product>, req: seq<RequestItem>)
    ensures Processed(products, req).Err? <==> exists k :: 0 <= k < |req| && Line(products, req[k]).Err?
    ensures Processed(products, req).Err? ==> exists k :: (0 <= k < |req| && Line(products, req[k]).Err?
      && Processed(products, req).error == Line(products, req[k]).error
      && forall j :: 0 <= j < k ==> Line(products, req[j]).Ok?)
  {
    if req != [] {
      var n := |req| - 1;
      var init := req[..n];
      ProcessedFailure(products, init);
      if Processed(products, init).Err? {
        var k :| 0 <= k < |init| && Line(products, init[k]).Err? && Processed(products, init).error == Line(products, init[k]).error
          && forall j :: 0 <= j < k ==> Line(products, init[j]).Ok?;
        assert req[k] == init[k];
        forall j | 0 <= j < k ensures Line(products, req[j]).Ok? { assert req[j] == init[j]; }
      } else {
        forall j | 0 <= j < n ensures Line(products, req[j]).Ok? { assert req[j] == init[j]; }
      }
    }
  }

  /** The candidate numbers `generateOrderId` yields for the random draws. */
  function Candidates(draws: seq<(byte, byte, byte)>): (ids: seq<string>)
    ensures |ids| == |draws| && forall k :: 0 <= k < |draws| ==> ids[k] == GenerateOrderId(draws[k].0, draws[k].1, draws[k].2)
  {
    if draws == [] then [] else [GenerateOrderId(draws[0].0, draws[0].1, draws[0].2)] + Candidates(draws[1..])
  }

  /** The retry loop: the first candidate no order holds. */
  function FirstFreeId(orders: seq<Order>, ids: seq<string>): (r: Option<string>)
    ensures r.None? <==> forall k :: 0 <= k < |ids| ==> FindByOrderId(orders, ids[k]).Some?
    ensures r.Some? ==> r.value in ids && FindByOrderId(orders, r.value).None?
  {
    if ids == [] then None
    else if FindByOrderId(orders, ids[0]).None? then Some(ids[0])
    else
      var r := FirstFreeId(orders, ids[1..]);
      assert r.Some? ==> r.value in ids by {
        if r.Some? { assert r.value in ids[1..]; }
      }
      r
  }

  /** The loop takes the first free candidate: every earlier one is held by an order. */
  lemma {:induction false} FirstFreeIdIsFirst(orders: seq<Order>, ids: seq<string>)
    requires FirstFreeId(orders, ids).Some?
    ensures exists k :: (0 <= k < |ids| && ids[k] == FirstFreeId(orders, ids).value
      && forall j :: 0 <= j < k ==> FindByOrderId(orders, ids[j]).Some?)
  {
    if FindByOrderId(orders, ids[0]).None? {
      assert ids[0] == FirstFreeId(orders, ids).value;
    } else {
      var tail := ids[1..];
      FirstFreeIdIsFirst(orders, tail);
      var k :| 0 <= k < |tail| && tail[k] == FirstFreeId(orders, tail).value
        && forall j :: 0 <= j < k ==> FindByOrderId(orders, tail[j]).Some?;
      assert ids[k + 1] == FirstFreeId(orders, ids).value;
      forall j | 0 <= j < k + 1 ensures FindByOrderId(orders, ids[j]).Some? {
        if j > 0 { assert ids[j] == tail[j - 1]; }
      }
    }
  }

  /** The document `createOrder` means to insert: the buyer, the snapshots, their total, `Pending`. */
  function NewOrder(orderId: string, userId: nat, items: seq<Item>): Order {
    Order(orderId, Some(userId), items, ItemsTotal(items), Pending, PaymentDetails(None, None, None, None), None, None, 0, 0)
  }

  /**
   * The document `Order.create` receives as written: `customerDetails` is not
   * a path of the schema and is dropped, and no `userId` is given.
   */
  function NewOrderAsWritten(orderId: string, items: seq<Item>): Order {
    Order(orderId, None, items, ItemsTotal(items), Pending, PaymentDetails(None, None, None, None), None, None, 0, 0)
  }

  /** As written, the insert always fails validation: `userId` is required. */
  lemma CreateAsWrittenRejected(orderId: string, items: seq<Item>)
    ensures !OrderSchemaValid(NewOrderAsWritten(orderId, items))
  {
  }

  /** Everything `createOrder` decides before the insert, with the buyer's id supplied. */
  function Creation(orders: seq<Order>, products: seq<Product>, userId: nat, customer: Option<Customer>,
                    items: Option<seq<RequestItem>>, ids: seq<string>): (r: Result<Order, Error>)
    ensures r.Ok? ==> (r.value.status == Pending && r.value.userId == Some(userId)
      && r.value.totalAmount == ItemsTotal(r.value.items) && OrderIdFree(orders, r.value.orderId, -1))
    ensures r.Err? ==> r.error != OrderNotFound && !r.error.Store?
  {
    if !CustomerGiven(customer) then Err(MissingCustomer)
    else if items.None? || items.value == [] then Err(EmptyCart)
    else match Processed(products, items.value)
      case Err(e) => Err(e)
      case Ok(snapshots) =>
        match FirstFreeId(orders, ids)
        case None => Err(IdsExhausted)
        case Some(orderId) => Ok(NewOrder(orderId, userId, snapshots))
  }

  /** A created order's lines are the cart's lines at the products' selling prices, and its total is their sum. */
  lemma CreationSnapshots(orders: seq<Order>, products: seq<Product>, userId: nat, customer: Option<Customer>,
                          items: Option<seq<RequestItem>>, ids: seq<string>)
    requires Creation(orders, products, userId, customer, items, ids).Ok?
    ensures var o := Creation(orders, products, userId, customer, items, ids).value;
      && items.Some? && |o.items| == |items.value| > 0
      && (forall k :: 0 <= k < |o.items| ==> var p := o.items[k].productId;
            && items.value[k] == RequestItem(Some(p), o.items[k].quantity) && p < |products|
            && o.items[k].price == products[p].sellPrice && products[p].stock >= o.items[k].quantity)
      && o.totalAmount == ItemsTotal(o.items)
  {
    var o := Creation(orders, products, userId, customer, items, ids).value;
    forall k | 0 <= k < |o.items| ensures items.value[k] == RequestItem(Some(o.items[k].productId), o.items[k].quantity) {
      assert Line(products, items.value[k]) == Ok(o.items[k]);
    }
  }

  /** A negative quantity passes the stock check, and the insert then rejects the order. */
  lemma NegativeQuantityReachesInsert(id: nat)
    ensures var products := [Product("s", "n", None, [], "c", 1.0, 10.0, 0, 0)];
      var o := Creation([], products, id, Some(Customer("a", "b", "c")), Some([RequestItem(Some(0), -1)]), ["ORD-00000"]);
      o.Ok? && !OrderSchemaValid(o.value)
  {
    var products := [Product("s", "n", None, [], "c", 1.0, 10.0, 0, 0)];
    var req := [RequestItem(Some(0), -1)];
    assert req[..0] == [];
    assert Processed(products, req[..0]) == Ok([]);
    assert Line(products, req[|req| - 1]) == Ok(Item(0, -1, 10.0));
    assert [] + [Item(0, -1, 10.0)] == [Item(0, -1, 10.0)];
    assert Processed(products, req) == Ok([Item(0, -1, 10.0)]);
  }

  /** The item loop, accumulating the total as it goes. */
  method ProcessItems(products: seq<Product>, req: seq<RequestItem>) returns (r: Result<seq<Item>, Error>, total: real)
    ensures r == Processed(products, req)
    ensures r.Ok? ==> total == ItemsTotal(r.value)
  {
    var items: seq<Item> := [];
    total := 0.0;
    var i := 0;
    while i < |req|
      invariant i <= |req|
      invariant Processed(products, req[..i]) == Ok(items)
      invariant total == ItemsTotal(items)
    {
      assert req[..i + 1][..i] == req[..i];
      var line := Line(products, req[i]);
      if line.Err? {
        ProcessedAbort(products, req, i + 1);
        return Err(line.error), total;
      }
      assert (items + [line.value])[..|items|] == items;
      total := total + line.value.price * line.value.quantity as real;
      items := items + [line.value];
      i := i + 1;
    }
    assert req[..i] == req;
    r := Ok(items);
  }

  /** A failure in a prefix is the failure of the whole cart. */
  lemma {:induction false} ProcessedAbort(products: seq<Product>, req: seq<RequestItem>, i: nat)
    requires 0 < i <= |req| && Processed(products, req[..i]).Err?
    ensures Processed(products, req) == Processed(products, req[..i])
    decreases |req| - i
  {
    if i < |req| {
      assert req[..i + 1][..i] == req[..i];
      ProcessedAbort(products, req, i + 1);
    } else {
      assert req[..i] == req;
    }
  }

  /** The retry loop over the five draws. */
  method PickOrderId(orders: seq<Order>, draws: seq<(byte, byte, byte)>) returns (orderId: Option<string>)
    requires |draws| == MaxIdAttempts
    ensures orderId == FirstFreeId(orders, Candidates(draws))
  {
    var ids := Candidates(draws);
    var i := 0;
    while i < MaxIdAttempts
      invariant i <= MaxIdAttempts
      invariant FirstFreeId(orders, ids) == FirstFreeId(orders, ids[i..])
    {
      var candidate := GenerateOrderId(draws[i].0, draws[i].1, draws[i].2);
      assert ids[i..][0] == candidate && ids[i..][1..] == ids[i + 1..];
      if FindByOrderId(orders, candidate).None? {
        return Some(candidate);
      }
      i := i + 1;
    }
    orderId := None;
  }

  /**
   * `createOrder` with the buyer's id supplied: the checks, the item loop, the
   * number, then the insert, whose validation still rejects a quantity below 1.
   */
  method CreateOrder(store: OrderStore, catalog: ProductStore, userId: nat, customer: Option<Customer>,
                     items: Option<seq<RequestItem>>, draws: seq<(byte, byte, byte)>, now: nat)
    returns (r: Result<nat, Error>)
    requires store.Valid() && |draws| == MaxIdAttempts
    modifies store
    ensures store.Valid() && catalog.products == old(catalog.products)
    ensures var c := Creation(old(store.orders), catalog.products, userId, customer, items, Candidates(draws));
      && (c.Err? ==> r == Err(c.error) && store.orders == old(store.orders))
      && (c.Ok? && !ItemsValid(c.value.items) ==> r == Err(Store(ValidationFailed)) && store.orders == old(store.orders))
      && (c.Ok? && ItemsValid(c.value.items) ==>
            r == Ok(|old(store.orders)|) && store.orders == old(store.orders) + [c.value.(createdAt := now, updatedAt := now)])
  {
    if !CustomerGiven(customer) {
      return Err(MissingCustomer);
    }
    if items.None? || items.value == [] {
      return Err(EmptyCart);
    }
    var processed, total := ProcessItems(catalog.products, items.value);
    if processed.Err? {
      return Err(processed.error);
    }
    var orderId := PickOrderId(store.orders, draws);
    if orderId.None? {
      return Err(IdsExhausted);
    }
    var o := NewOrder(orderId.value, userId, processed.value);
    assert o.totalAmount == total;
    var saved := store.Insert(o, now);
    if saved.Err? {
      return Err(Store(saved.error));
    }
    r := Ok(saved.value);
  }

  /** `getOrderById`: the lookup by the order number. */
  function OrderById(orders: seq<Order>, orderId: string): (r: Result<Order, Error>)
    ensures r.Ok? <==> exists k :: 0 <= k < |orders| && orders[k].orderId == orderId
    ensures r.Ok? ==> r.value in orders && r.value.orderId == orderId
    ensures r.Err? ==> r.error == OrderNotFound
  {
    match FindByOrderId(orders, orderId)
    case None => Err(OrderNotFound)
    case Some(k) => Ok(orders[k])
  }

  /** A created order can be looked up by its number. */
  lemma CreatedOrderFound(orders: seq<Order>, o: Order)
    requires StoredOrdersValid(orders + [o])
    ensures OrderById(orders + [o], o.orderId) == Ok(o)
  {
    FindByOrderIdUnique(orders + [o], |orders|);
  }
}
