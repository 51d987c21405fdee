/**
 * The order service's documents (src/models/order.model.js,
 * src/models/product.model.js): fields, what the schemas validate, the
 * `orderId` and `supplierProductId` unique indexes, and the two collections
 * as stores. `_id` is the position in the store; there is no soft delete in
 * this service. Times are numbers from a clock that is a parameter.
 */
module OrdModel {
  import opened Common

  const Pending := "Pending"
  const Paid := "Paid"
  const Verified := "Verified"
  const Processing := "Processing"
  const Shipped := "Shipped"
  const Completed := "Completed"
  const Cancelled := "Cancelled"
  const Statuses: set<string> := {Pending, Paid, Verified, Processing, Shipped, Completed, Cancelled}

  /** The mobile financial services: bKash, Nagad, Rocket. */
  const MfsMethods: set<string> := {"bKash", "Nagad", "Rocket"}
  /** The `paymentDetails.method` enum. */
  const Methods: set<string> := MfsMethods + {"Unknown"}

  datatype Item = Item(productId: nat, quantity: int, price: real)

  datatype PaymentDetails = PaymentDetails(
    payMethod: Option<string>,
    receiverNumber: Option<string>,
    transactionId: Option<string>,
    submittedAt: Option<nat>)

  datatype Order = Order(
    orderId: string,
    userId: Option<nat>,
    items: seq<Item>,
    totalAmount: real,
    status: string,
    paymentDetails: PaymentDetails,
    adminNotes: Option<string>,
    verifiedAt: Option<nat>,
    createdAt: nat,
    updatedAt: nat)

  datatype Product = Product(
    supplierProductId: string,
    name: string,
    description: Option<string>,
    images: seq<string>,
    category: string,
    buyPrice: real,
    sellPrice: real,
    stock: int,
    lastSyncedAt: nat)

  predicate ItemsValid(items: seq<Item>) {
    forall k :: 0 <= k < |items| ==> items[k].quantity >= 1
  }

  /** What the order schema checks: the required fields, `quantity` at least 1, the two enums. */
  predicate OrderSchemaValid(o: Order) {
    && o.orderId != [] && o.userId.Some? && ItemsValid(o.items) && o.status in Statuses
    && (o.paymentDetails.payMethod.None? || o.paymentDetails.payMethod.value in Methods)
  }

  /** No order other than the one at `self` holds `orderId`. */
  predicate OrderIdFree(orders: seq<Order>, orderId: string, self: int) {
    forall k :: 0 <= k < |orders| && k != self ==> orders[k].orderId != orderId
  }

  predicate OrderIdsUnique(orders: seq<Order>) {
    forall i, j :: 0 <= i < j < |orders| ==> orders[i].orderId != orders[j].orderId
  }

  predicate StoredOrdersValid(orders: seq<Order>) {
    OrderIdsUnique(orders) && forall k :: 0 <= k < |orders| ==> OrderSchemaValid(orders[k])
  }

  /** `Order.findOne({ orderId })`. */
  function FindByOrderId(orders: seq<Order>, orderId: string): (r: Option<nat>)
    ensures r.Some? ==> r.value < |orders| && orders[r.value].orderId == orderId
    ensures r.None? <==> forall k :: 0 <= k < |orders| ==> orders[k].orderId != orderId
  {
    FindFirst(orders, (o: Order) => o.orderId == orderId)
  }

  /** With unique numbers, the lookup finds the one order that holds the number. */
  lemma FindByOrderIdUnique(orders: seq<Order>, k: nat)
    requires OrderIdsUnique(orders) && k < |orders|
    ensures FindByOrderId(orders, orders[k].orderId) == Some(k)
  {
  }

  lemma AppendOrderKeepsValid(orders: seq<Order>, o: Order)
    requires StoredOrdersValid(orders) && OrderIdFree(orders, o.orderId, -1) && OrderSchemaValid(o)
    ensures StoredOrdersValid(orders + [o])
  {
    var r := orders + [o];
    forall k | 0 <= k < |r| ensures OrderSchemaValid(r[k]) {
      if k < |orders| { assert r[k] == orders[k]; }
    }
  }

  lemma ReplaceOrderKeepsValid(orders: seq<Order>, id: nat, o: Order)
    requires StoredOrdersValid(orders) && id < |orders| && o.orderId == orders[id].orderId && OrderSchemaValid(o)
    ensures StoredOrdersValid(orders[id := o])
  {
    var r := orders[id := o];
    forall i, j | 0 <= i < j < |r| ensures r[i].orderId != r[j].orderId {
      assert orders[i].orderId != orders[j].orderId;
    }
  }

  class OrderStore {
    var orders: seq<Order>

    ghost predicate Valid()
      reads this
    {
      StoredOrdersValid(orders)
    }

    constructor ()
      ensures Valid() && orders == []
    {
      orders := [];
    }

    /** `Order.create(o)`: validation, the timestamps, the unique index, the insert. */
    method Insert(o: Order, now: nat) returns (r: Result<nat, StoreFailure>)
      requires Valid()
      modifies this
      ensures Valid()
      ensures r.Ok? <==> OrderSchemaValid(o) && OrderIdFree(old(orders), o.orderId, -1)
      ensures !OrderSchemaValid(o) ==> r == Err(ValidationFailed)
      ensures OrderSchemaValid(o) && r.Err? ==> r == Err(DuplicateKey)
      ensures r.Err? ==> orders == old(orders)
      ensures r.Ok? ==> r.value == |old(orders)| && orders == old(orders) + [o.(createdAt := now, updatedAt := now)]
    {
      if !OrderSchemaValid(o) {
        return Err(ValidationFailed);
      }
      if !OrderIdFree(orders, o.orderId, -1) {
        return Err(DuplicateKey);
      }
      var stored := o.(createdAt := now, updatedAt := now);
      AppendOrderKeepsValid(orders, stored);
      orders := orders + [stored];
      r := Ok(|orders| - 1);
    }

    /**
     * `order.save({ validateBeforeSave: true })` on a fetched order whose
     * number is unchanged; the unique index cannot object, the schema can.
     */
    method Replace(id: nat, o: Order, now: nat) returns (r: Result<nat, StoreFailure>)
      requires Valid() && id < |orders| && o.orderId == orders[id].orderId
      modifies this
      ensures Valid()
      ensures r.Ok? <==> OrderSchemaValid(o)
      ensures r.Err? ==> r == Err(ValidationFailed) && orders == old(orders)
      ensures r.Ok? ==> r.value == id && orders == old(orders)[id := o.(updatedAt := now)]
    {
      if !OrderSchemaValid(o) {
        return Err(ValidationFailed);
      }
      ReplaceOrderKeepsValid(orders, id, o.(updatedAt := now));
      orders := orders[id := o.(updatedAt := now)];
      r := Ok(id);
    }
  }

  /**
   * What the product schema guarantees of a stored product: the name and the
   * category non-empty, the name trimmed, every image non-empty. The required
   * `supplierProductId` is not among them: products are written only by the
   * sync's upsert, which takes the id from its filter, and the update
   * validators never look at the filter, so an empty id is stored.
   */
  predicate ProductSchemaValid(p: Product) {
    && p.name != [] && Trim(p.name) == p.name && p.category != []
    && forall k :: 0 <= k < |p.images| ==> p.images[k] != []
  }

  /**
   * The `$set` document of the supplier sync. A key whose value is
   * `undefined` is dropped from the update (`name` or `description` is
   * `None`), so a stored product keeps that field.
   */
  datatype ProductSet = ProductSet(
    supplierProductId: string,
    name: Option<string>,
    description: Option<string>,
    images: seq<string>,
    category: string,
    buyPrice: real,
    sellPrice: real,
    stock: int,
    lastSyncedAt: nat)

  /** The update validators: the schema's checks on the paths being set only. */
  predicate SetValid(s: ProductSet) {
    && s.category != []
    && (s.name.Some? ==> s.name.value != [] && Trim(s.name.value) == s.name.value)
    && forall k :: 0 <= k < |s.images| ==> s.images[k] != []
  }

  /** The document an upsert inserts when no product has the supplier's id. */
  function Inserted(s: ProductSet): (p: Product)
    requires s.name.Some?
    ensures ProductSchemaValid(p) <==> SetValid(s)
    ensures p.supplierProductId == s.supplierProductId && p.name == s.name.value && p.description == s.description
  {
    Product(s.supplierProductId, s.name.value, s.description, s.images, s.category,
            s.buyPrice, s.sellPrice, s.stock, s.lastSyncedAt)
  }

  /** A stored product after the `$set`: every key sent overwrites, a key left out keeps its value. */
  function Applied(stored: Product, s: ProductSet): (p: Product)
    ensures p.name == (if s.name.Some? then s.name.value else stored.name)
    ensures p.description == (if s.description.Some? then s.description else stored.description)
    ensures p.supplierProductId == s.supplierProductId && p.images == s.images && p.category == s.category
    ensures p.buyPrice == s.buyPrice && p.sellPrice == s.sellPrice && p.stock == s.stock
    ensures p.lastSyncedAt == s.lastSyncedAt
  {
    Product(s.supplierProductId, if s.name.Some? then s.name.value else stored.name,
            if s.description.Some? then s.description else stored.description,
            s.images, s.category, s.buyPrice, s.sellPrice, s.stock, s.lastSyncedAt)
  }

  /** Fields that pass their validators, set over a valid product, give a valid product. */
  lemma AppliedSchemaValid(stored: Product, s: ProductSet)
    requires ProductSchemaValid(stored) && SetValid(s)
    ensures ProductSchemaValid(Applied(stored, s))
  {
  }

  predicate SupplierIdsUnique(products: seq<Product>) {
    forall i, j :: 0 <= i < j < |products| ==> products[i].supplierProductId != products[j].supplierProductId
  }

  predicate StoredProductsValid(products: seq<Product>) {
    SupplierIdsUnique(products) && forall k :: 0 <= k < |products| ==> ProductSchemaValid(products[k])
  }

  /** `Product.findOne({ supplierProductId })`. */
  function FindBySupplierId(products: seq<Product>, supplierId: string): (r: Option<nat>)
    ensures r.Some? ==> r.value < |products| && products[r.value].supplierProductId == supplierId
    ensures r.None? <==> forall k :: 0 <= k < |products| ==> products[k].supplierProductId != supplierId
  {
    FindFirst(products, (p: Product) => p.supplierProductId == supplierId)
  }

  lemma AppendProductKeepsValid(products: seq<Product>, p: Product)
    requires StoredProductsValid(products) && ProductSchemaValid(p)
    requires forall k :: 0 <= k < |products| ==> products[k].supplierProductId != p.supplierProductId
    ensures StoredProductsValid(products + [p])
  {
    var r := products + [p];
    forall k | 0 <= k < |r| ensures ProductSchemaValid(r[k]) {
      if k < |products| { assert r[k] == products[k]; }
    }
  }

  lemma ReplaceProductKeepsValid(products: seq<Product>, k: nat, p: Product)
    requires StoredProductsValid(products) && ProductSchemaValid(p)
    requires k < |products| && products[k].supplierProductId == p.supplierProductId
    ensures StoredProductsValid(products[k := p])
  {
    var r := products[k := p];
    forall i, j | 0 <= i < j < |r| ensures r[i].supplierProductId != r[j].supplierProductId {
      assert products[i].supplierProductId != products[j].supplierProductId;
    }
  }

  class ProductStore {
    var products: seq<Product>

    ghost predicate Valid()
      reads this
    {
      StoredProductsValid(products)
    }

    constructor ()
      ensures Valid() && products == []
    {
      products := [];
    }

    /**
     * `Product.findOneAndUpdate({ supplierProductId }, { $set }, { upsert: true,
     * runValidators: true })`: the update validators check the paths being
     * set, then the product at the supplier's id takes the `$set`, or a new
     * product is appended when there is none; `true` when it was appended.
     */
    method Upsert(s: ProductSet) returns (r: Result<bool, StoreFailure>)
      requires Valid()
      modifies this
      ensures Valid()
      ensures r.Err? ==> r == Err(ValidationFailed) && products == old(products)
      ensures match FindBySupplierId(old(products), s.supplierProductId)
        case None => (r.Ok? <==> SetValid(s) && s.name.Some?)
                     && (r.Ok? ==> r.value && products == old(products) + [Inserted(s)])
        case Some(k) => (r.Ok? <==> SetValid(s))
                        && (r.Ok? ==> !r.value && products == old(products)[k := Applied(old(products)[k], s)])
    {
      if !SetValid(s) {
        return Err(ValidationFailed);
      }
      var found := FindBySupplierId(products, s.supplierProductId);
      if found.None? {
        if s.name.None? {
          return Err(ValidationFailed);
        }
        AppendProductKeepsValid(products, Inserted(s));
        products := products + [Inserted(s)];
        r := Ok(true);
      } else {
        AppliedSchemaValid(products[found.value], s);
        ReplaceProductKeepsValid(products, found.value, Applied(products[found.value], s));
        products := products[found.value := Applied(products[found.value], s)];
        r := Ok(false);
      }
    }
  }
}
