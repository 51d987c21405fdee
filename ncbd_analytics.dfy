/**
 * The admin dashboard of the customer-facing shop
 * (getDashboardSummary in src/controllers/analyticsController.js): sales
 * totals over the live orders whose payment is verified, and four counts.
 * The division for the profit percentage is exact here; JavaScript's
 * floating point is not modelled.
 */
module NcbdAnalytics {
  import opened Common
  import opened NcbdOrderModel
  import NcbdProduct
  import NcbdUser
  import NcbdOrders

  datatype Sales = Sales(totalSell: int, totalBuy: int, totalProfit: int, profitPercent: real)
  datatype Counts = Counts(totalOrders: nat, pendingOrders: nat, totalCustomers: nat, totalProducts: nat)
  datatype Summary = Summary(sales: Sales, counts: Counts)

  /** The query of the sales figures: payment `Verified` and not deleted. */
  predicate InSales(o: Order) {
    o.paymentDetails.paymentStatus == PaymentVerified && !o.isDeleted
  }

  predicate Live(o: Order) {
    !o.isDeleted
  }

  predicate Pending(o: Order) {
    o.orderStatus == AwaitingVerification && !o.isDeleted
  }

  /** `roles: 'customer'` matches a user whose role array holds `customer`. */
  predicate LiveCustomer(u: NcbdUser.User) {
    NcbdUser.Customer in u.roles && !u.isDeleted
  }

  predicate Listed(p: NcbdProduct.Product) {
    p.status == NcbdProduct.Active && !p.isDeleted
  }

  function SalesOrders(orders: seq<Order>): seq<Order> {
    Filter(orders, InSales)
  }

  /** Σ `totalAmount`. */
  function SellSum(orders: seq<Order>): int {
    if orders == [] then 0 else SellSum(orders[..|orders| - 1]) + orders[|orders| - 1].totalAmount
  }

  /** Σ `totalBuyAmount`. */
  function BuySum(orders: seq<Order>): int {
    if orders == [] then 0 else BuySum(orders[..|orders| - 1]) + orders[|orders| - 1].totalBuyAmount
  }

  /** Σ `totalProfit`, the per-order profit the save hook stored. */
  function StoredProfitSum(orders: seq<Order>): int {
    if orders == [] then 0 else StoredProfitSum(orders[..|orders| - 1]) + orders[|orders| - 1].totalProfit
  }

  /** Σ `shippingCost`. */
  function ShippingSum(orders: seq<Order>): int {
    if orders == [] then 0 else ShippingSum(orders[..|orders| - 1]) + orders[|orders| - 1].shippingCost
  }

  /** What one order adds to the sales figure. */
  function SaleOf(o: Order): int {
    if InSales(o) then o.totalAmount else 0
  }

  function BuyOf(o: Order): int {
    if InSales(o) then o.totalBuyAmount else 0
  }

  /** `(totalProfit / totalSell) * 100`, or 0 when nothing was sold. */
  function PercentOf(profit: int, sell: int): (r: real)
    ensures sell > 0 ==> r * sell as real == profit as real * 100.0
    ensures sell <= 0 ==> r == 0.0
    ensures sell > 0 && 0 <= profit <= sell ==> 0.0 <= r <= 100.0
  {
    if sell > 0 then (profit as real / sell as real) * 100.0 else 0.0
  }

  /** `getDashboardSummary`: the loop over the verified orders, then the counts. */
  method DashboardSummary(orders: seq<Order>, users: seq<NcbdUser.User>, products: seq<NcbdProduct.Product>)
    returns (s: Summary)
    ensures s.sales.totalSell == SellSum(SalesOrders(orders)) && s.sales.totalBuy == BuySum(SalesOrders(orders))
    ensures s.sales.totalProfit == s.sales.totalSell - s.sales.totalBuy
    ensures s.sales.profitPercent == PercentOf(s.sales.totalProfit, s.sales.totalSell)
    ensures s.counts == Counts(Count(orders, Live), Count(orders, Pending), Count(users, LiveCustomer), Count(products, Listed))
    ensures s.counts.pendingOrders <= s.counts.totalOrders && |SalesOrders(orders)| <= s.counts.totalOrders
  {
    var verified := SalesOrders(orders);
    var totalSell, totalBuy := 0, 0;
    var i := 0;
    while i < |verified|
      invariant i <= |verified|
      invariant totalSell == SellSum(verified[..i]) && totalBuy == BuySum(verified[..i])
    {
      assert verified[..i + 1][..i] == verified[..i];
      totalSell := totalSell + verified[i].totalAmount;
      totalBuy := totalBuy + verified[i].totalBuyAmount;
      i := i + 1;
    }
    assert verified[..i] == verified;
    var totalProfit := totalSell - totalBuy;
    var counts := Counts(Count(orders, Live), Count(orders, Pending), Count(users, LiveCustomer), Count(products, Listed));
    CountMonotone(orders, Pending, Live);
    CountMonotone(orders, InSales, Live);
    s := Summary(Sales(totalSell, totalBuy, totalProfit, PercentOf(totalProfit, totalSell)), counts);
  }

  /** A filter that admits less counts no more. */
  lemma {:induction false} CountMonotone(orders: seq<Order>, p: Order -> bool, q: Order -> bool)
    requires forall o :: p(o) ==> q(o)
    ensures Count(orders, p) <= Count(orders, q)
  {
    if orders != [] {
      CountMonotone(orders[..|orders| - 1], p, q);
    }
  }

  lemma SumsAppend(orders: seq<Order>, o: Order)
    ensures SellSum(orders + [o]) == SellSum(orders) + o.totalAmount
    ensures BuySum(orders + [o]) == BuySum(orders) + o.totalBuyAmount
  {
    assert (orders + [o])[..|orders|] == orders;
  }

  /** Σ of what each order adds to the sales figure, over the whole collection. */
  function SaleSum(orders: seq<Order>): int {
    if orders == [] then 0 else SaleSum(orders[..|orders| - 1]) + SaleOf(orders[|orders| - 1])
  }

  function BuyOfSum(orders: seq<Order>): int {
    if orders == [] then 0 else BuyOfSum(orders[..|orders| - 1]) + BuyOf(orders[|orders| - 1])
  }

  /** The query result grows by the last order when that order is sold. */
  lemma SalesOrdersStep(orders: seq<Order>)
    requires orders != []
    ensures SalesOrders(orders) ==
      SalesOrders(orders[..|orders| - 1]) + (if InSales(orders[|orders| - 1]) then [orders[|orders| - 1]] else [])
  {
  }

  /** Summing the verified orders is summing every order's contribution. */
  lemma {:induction false} SalesSumsOverAll(orders: seq<Order>)
    ensures SellSum(SalesOrders(orders)) == SaleSum(orders) && BuySum(SalesOrders(orders)) == BuyOfSum(orders)
  {
    if orders != [] {
      var n := |orders| - 1;
      var init := orders[..n];
      SalesOrdersStep(orders);
      SalesSumsOverAll(init);
      if InSales(orders[n]) {
        SumsAppend(SalesOrders(init), orders[n]);
      } else {
        assert SalesOrders(orders) == SalesOrders(init);
      }
    }
  }

  lemma {:induction false} SumsAfterReplace(orders: seq<Order>, k: nat, o': Order)
    requires k < |orders|
    ensures SaleSum(orders[k := o']) == SaleSum(orders) - SaleOf(orders[k]) + SaleOf(o')
    ensures BuyOfSum(orders[k := o']) == BuyOfSum(orders) - BuyOf(orders[k]) + BuyOf(o')
  {
    var r := orders[k := o'];
    var n := |orders| - 1;
    if k == n {
      assert r[..n] == orders[..n];
    } else {
      assert r[..n] == orders[..n][k := o'];
      SumsAfterReplace(orders[..n], k, o');
    }
  }

  /** Replacing one order changes the sales figures by exactly what that order contributes before and after. */
  lemma SalesAfterReplace(orders: seq<Order>, k: nat, o': Order)
    requires k < |orders|
    ensures SellSum(SalesOrders(orders[k := o'])) == SellSum(SalesOrders(orders)) - SaleOf(orders[k]) + SaleOf(o')
    ensures BuySum(SalesOrders(orders[k := o'])) == BuySum(SalesOrders(orders)) - BuyOf(orders[k]) + BuyOf(o')
  {
    SalesSumsOverAll(orders);
    SalesSumsOverAll(orders[k := o']);
    SumsAfterReplace(orders, k, o');
  }

  /** Confirming a payment adds the order's amounts to the sales figures. */
  lemma VerificationAddsSale(orders: seq<Order>, id: nat, now: int)
    requires NcbdOrders.Verification(orders, id, now).Ok?
    ensures var after := orders[id := NcbdOrders.Verification(orders, id, now).value];
      && SellSum(SalesOrders(after)) == SellSum(SalesOrders(orders)) + orders[id].totalAmount
      && BuySum(SalesOrders(after)) == BuySum(SalesOrders(orders)) + orders[id].totalBuyAmount
  {
    SalesAfterReplace(orders, id, NcbdOrders.Verification(orders, id, now).value);
  }

  /** Cancelling does not touch the payment, so a cancelled order that was paid for still counts as sold. */
  lemma CancelledSaleStillCounts(orders: seq<Order>, id: nat, caller: nat, now: int)
    requires NcbdOrders.Cancellation(orders, id, caller, now).Ok?
    ensures var after := orders[id := NcbdOrders.Cancellation(orders, id, caller, now).value];
      && SellSum(SalesOrders(after)) == SellSum(SalesOrders(orders))
      && BuySum(SalesOrders(after)) == BuySum(SalesOrders(orders))
  {
    SalesAfterReplace(orders, id, NcbdOrders.Cancellation(orders, id, caller, now).value);
  }

  /** A cash-on-delivery order is marked verified by the save hook, so it counts as sold from the start. */
  lemma CashOnDeliveryCountsAtOnce(o: Order, now: int)
    requires o.paymentDetails.paymentMethod == CashOnDelivery && !o.isDeleted
    ensures InSales(Stamped(Hooked(o, true, true, now), true, now))
  {
  }

  lemma {:induction false} SalesSumsSplit(orders: seq<Order>)
    requires forall i :: 0 <= i < |orders| ==> OrderInvariant(orders[i])
    ensures SellSum(orders) - BuySum(orders) == StoredProfitSum(orders) + ShippingSum(orders)
  {
    if orders != [] {
      SalesSumsSplit(orders[..|orders| - 1]);
    }
  }

  /**
   * The dashboard's profit subtracts only the buy cost, so it is the stored
   * per-order profits plus the shipping charged on the verified orders.
   */
  lemma DashboardProfitIncludesShipping(orders: seq<Order>)
    requires StoredOrdersValid(orders)
    ensures var v := SalesOrders(orders);
      SellSum(v) - BuySum(v) == StoredProfitSum(v) + ShippingSum(v)
  {
    var v := SalesOrders(orders);
    forall i | 0 <= i < |v| ensures OrderInvariant(v[i]) {
      var j :| 0 <= j < |orders| && orders[j] == v[i];
      assert OrderInvariant(orders[j]);
    }
    SalesSumsSplit(v);
  }
}
