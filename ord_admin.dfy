/**
 * The administrator's side of payment in the order service
 * (src/controllers/admin.controller.js): the queue of paid orders waiting
 * for a check, and the manual verification that moves an order from `Paid`
 * to `Verified`.
 */
module OrdAdmin {
  import opened Common
  import opened OrdModel
  import Sorting
  import OrdPayment

  predicate IsPaid(o: Order) {
    o.status == Paid
  }

  /** The submission time as a sort key; an order without one sorts first, as a missing value does. */
  function SubmittedKey(o: Order): (k: int)
    ensures k >= -1
    ensures o.paymentDetails.submittedAt.Some? <==> k >= 0
  {
    if o.paymentDetails.submittedAt.Some? then o.paymentDetails.submittedAt.value else -1
  }

  /**
   * As written: the sort names a top-level `submittedAt` that the documents
   * do not have (the time is under `paymentDetails`), so every key is
   * missing, all orders tie, and they come back in the collection's order.
   */
  function VerificationQueueAsWritten(orders: seq<Order>): seq<Order> {
    Filter(orders, IsPaid)
  }

  /** The intended queue: the paid orders, oldest submission first. */
  function VerificationQueue(orders: seq<Order>): (r: seq<Order>)
    ensures forall i, j :: 0 <= i < j < |r| ==> SubmittedKey(r[i]) <= SubmittedKey(r[j])
  {
    Sorting.SortByKey(Filter(orders, IsPaid), SubmittedKey)
  }

  /** The queue holds exactly the paid orders, each as often as it is stored. */
  lemma VerificationQueueIsPaidOrders(orders: seq<Order>)
    ensures multiset(VerificationQueue(orders)) == multiset(Filter(orders, IsPaid))
    ensures |VerificationQueue(orders)| == Count(orders, IsPaid)
    ensures forall o :: o in VerificationQueue(orders) <==> o in orders && o.status == Paid
  {
    var f := Filter(orders, IsPaid);
    var r := VerificationQueue(orders);
    forall o ensures o in r <==> o in orders && o.status == Paid {
      assert o in r <==> o in multiset(r);
      assert o in f <==> o in multiset(f);
      if o in orders && o.status == Paid {
        var k :| 0 <= k < |orders| && orders[k] == o;
        assert orders[k] in f;
      }
    }
  }

  lemma PaidPairKept(a: Order, b: Order)
    requires IsPaid(a) && IsPaid(b)
    ensures Filter([a, b], IsPaid) == [a, b]
  {
    assert [a, b][..1] == [a] && [a][..0] == [];
    assert Filter([a], IsPaid) == [a];
  }

  /** Of two paid orders, the as-written queue keeps the stored order and the intended one puts the earlier submission first. */
  lemma QueueOfTwo(a: Order, b: Order)
    requires IsPaid(a) && IsPaid(b) && SubmittedKey(a) > SubmittedKey(b)
    ensures VerificationQueueAsWritten([a, b]) == [a, b]
    ensures VerificationQueue([a, b]) == [b, a]
  {
    PaidPairKept(a, b);
    var r := VerificationQueue([a, b]);
    assert |r| == 2 && r == [r[0], r[1]];
    assert multiset{r[0], r[1]} == multiset{a, b};
    assert r[0] in multiset{a, b} && r[1] in multiset{a, b};
    assert r[0] != a;
  }

  /** Two paid orders, the first submitted later: as written the later one is shown first. */
  lemma QueueAsWrittenOutOfOrder()
    ensures var a := Order("A", Some(0), [], 0.0, Paid, PaymentDetails(Some("bKash"), None, Some("T1"), Some(5)), None, None, 0, 0);
      var b := Order("B", Some(0), [], 0.0, Paid, PaymentDetails(Some("bKash"), None, Some("T2"), Some(3)), None, None, 0, 0);
      && VerificationQueueAsWritten([a, b]) == [a, b]
      && SubmittedKey(a) > SubmittedKey(b)
      && VerificationQueue([a, b]) == [b, a]
  {
    var a := Order("A", Some(0), [], 0.0, Paid, PaymentDetails(Some("bKash"), None, Some("T1"), Some(5)), None, None, 0, 0);
    var b := Order("B", Some(0), [], 0.0, Paid, PaymentDetails(Some("bKash"), None, Some("T2"), Some(3)), None, None, 0, 0);
    QueueOfTwo(a, b);
  }

  datatype Error = OrderNotFound | NotPaid(status: string) | Store(failure: StoreFailure)

  function ErrorStatus(e: Error): (code: nat)
    ensures code == 404 <==> e == OrderNotFound
    ensures code == 400 <==> e.NotPaid? || e == Store(ValidationFailed)
  {
    match e
    case OrderNotFound => 404
    case NotPaid(_) => 400
    case Store(f) => StoreFailureStatus(f)
  }

  /** The order `verifyOrderPayment` saves: `Verified`, the time, and the notes when some are given. */
  function VerifiedOrder(o: Order, notes: Option<string>, now: nat): (r: Order)
    ensures r.status == Verified && r.verifiedAt == Some(now)
    ensures r.adminNotes == (if notes.Some? && notes.value != [] then notes else o.adminNotes)
    ensures r.(status := o.status, verifiedAt := o.verifiedAt, adminNotes := o.adminNotes) == o
  {
    o.(status := Verified, verifiedAt := Some(now),
       adminNotes := if notes.Some? && notes.value != [] then notes else o.adminNotes)
  }

  /** The checks of `verifyOrderPayment`: the order must exist and be `Paid`. */
  function Verification(orders: seq<Order>, orderId: string, notes: Option<string>, now: nat)
    : (r: Result<(nat, Order), Error>)
    ensures r.Ok? <==> (FindByOrderId(orders, orderId).Some? && orders[FindByOrderId(orders, orderId).value].status == Paid)
    ensures r.Ok? ==> (r.value.0 == FindByOrderId(orders, orderId).value
      && r.value.1 == VerifiedOrder(orders[r.value.0], notes, now))
    ensures FindByOrderId(orders, orderId).None? <==> r == Err(OrderNotFound)
  {
    match FindByOrderId(orders, orderId)
    case None => Err(OrderNotFound)
    case Some(k) =>
      if orders[k].status != Paid then Err(NotPaid(orders[k].status)) else Ok((k, VerifiedOrder(orders[k], notes, now)))
  }

  method VerifyOrderPayment(store: OrderStore, orderId: string, notes: Option<string>, now: nat)
    returns (r: Result<nat, Error>)
    requires store.Valid()
    modifies store
    ensures store.Valid()
    ensures var v := Verification(old(store.orders), orderId, notes, now);
      && (v.Err? ==> r == Err(v.error) && store.orders == old(store.orders))
      && (v.Ok? ==> r == Ok(v.value.0) && store.orders == old(store.orders)[v.value.0 := v.value.1.(updatedAt := now)])
  {
    var found := FindByOrderId(store.orders, orderId);
    if found.None? {
      return Err(OrderNotFound);
    }
    var k := found.value;
    var o := store.orders[k];
    if o.status != Paid {
      return Err(NotPaid(o.status));
    }
    var updated := VerifiedOrder(o, notes, now);
    assert OrderSchemaValid(o);
    var saved := store.Replace(k, updated, now);
    assert saved.Ok?;
    r := Ok(k);
  }

  /** A verified order cannot be verified a second time. */
  lemma VerifiedOnce(orders: seq<Order>, orderId: string, notes: Option<string>, now: nat, notes': Option<string>, now': nat)
    requires StoredOrdersValid(orders)
    requires Verification(orders, orderId, notes, now).Ok?
    ensures var (k, o) := Verification(orders, orderId, notes, now).value;
      Verification(orders[k := o.(updatedAt := now)], orderId, notes', now') == Err(NotPaid(Verified))
  {
    var (k, o) := Verification(orders, orderId, notes, now).value;
    assert OrderSchemaValid(orders[k]);
    ReplaceOrderKeepsValid(orders, k, o.(updatedAt := now));
    FindByOrderIdUnique(orders[k := o.(updatedAt := now)], k);
  }

  /**
   * The life of a paid order: a pending order whose payment is accepted is
   * `Paid`, can then be verified, and only then, and ends `Verified` with
   * its transaction id kept.
   */
  lemma PaymentLifecycle(orders: seq<Order>, orderId: string, raw: string, customers: set<nat>,
                         receivers: map<string, string>, t1: nat, notes: Option<string>, t2: nat)
    requires StoredOrdersValid(orders)
    requires OrdPayment.Submission(orders, orderId, raw, customers, receivers, t1).Ok?
    ensures var k := FindByOrderId(orders, orderId).value;
      && Verification(orders, orderId, notes, t2) == Err(NotPaid(Pending))
      && var (k1, o1) := OrdPayment.Submission(orders, orderId, raw, customers, receivers, t1).value;
      && k1 == k
      && var paid := orders[k1 := o1.(updatedAt := t1)];
      && Verification(paid, orderId, notes, t2).Ok?
      && var o2 := Verification(paid, orderId, notes, t2).value.1;
      && o2.status == Verified && o2.paymentDetails.transactionId == Some(Trim(raw))
  {
    var (k1, o1) := OrdPayment.Submission(orders, orderId, raw, customers, receivers, t1).value;
    FindByOrderIdUnique(orders, k1);
    assert OrderSchemaValid(orders[k1]);
    ReplaceOrderKeepsValid(orders, k1, o1.(updatedAt := t1));
    FindByOrderIdUnique(orders[k1 := o1.(updatedAt := t1)], k1);
  }
}
