/**
 * Payment in the order service (src/controllers/payment.controller.js): the
 * instructions for a pending order's chosen method, and the submission of a
 * transaction id that moves an order from `Pending` to `Paid`. The receiver
 * numbers and the bank account come from the environment and are
 * parameters; the QR code and the e-mails are left out.
 */
module OrdPayment {
  import opened Common
  import opened OrdModel

  datatype BankAccount = BankAccount(bankName: Option<string>, branchName: Option<string>,
                                     accountName: Option<string>, accountNumber: Option<string>)

  /** `details`: type `mfs` with the receiving number, or type `bank` with the account. */
  datatype Details = Mfs(paymentNumber: Option<string>) | Bank(account: BankAccount)

  datatype PaymentInfo = PaymentInfo(amount: real, reference: string, payMethod: Option<string>, details: Details)

  datatype Error =
    | OrderNotFound
    | NotPending(status: string)
    | NotApplicable
    | MissingTransactionId
    | TransactionUsed
    | CustomerNotFound
    | Store(failure: StoreFailure)

  function ErrorStatus(e: Error): (code: nat)
    ensures code == 404 <==> e in {OrderNotFound, CustomerNotFound}
    ensures code == 409 <==> e in {TransactionUsed, Store(DuplicateKey)}
    ensures code == 400 <==> e in {NotApplicable, MissingTransactionId, Store(ValidationFailed)} || e.NotPending?
  {
    match e
    case OrderNotFound => 404
    case NotPending(_) => 400
    case NotApplicable => 400
    case MissingTransactionId => 400
    case TransactionUsed => 409
    case CustomerNotFound => 404
    case Store(f) => StoreFailureStatus(f)
  }

  const BankMethods: set<string> := {"Bank", "Card"}

  /** `process.env['RECEIVER_NUMBER_' + method.toUpperCase()]`, with the variables keyed by method. */
  function ReceiverNumber(receivers: map<string, string>, m: string): Option<string> {
    if m in receivers then Some(receivers[m]) else None
  }

  /** `getPaymentDetails`: only a pending order, and only an MFS or a bank method, gets instructions. */
  function PaymentDetailsFor(orders: seq<Order>, orderId: string, receivers: map<string, string>, bank: BankAccount)
    : (r: Result<PaymentInfo, Error>)
    ensures r.Ok? <==> (FindByOrderId(orders, orderId).Some?
      && orders[FindByOrderId(orders, orderId).value].status == Pending
      && (var m := orders[FindByOrderId(orders, orderId).value].paymentDetails.payMethod;
          m.Some? && m.value in MfsMethods + BankMethods))
    ensures r.Ok? ==> var o := orders[FindByOrderId(orders, orderId).value];
      && r.value.amount == o.totalAmount && r.value.reference == orderId && r.value.payMethod == o.paymentDetails.payMethod
      && (r.value.details.Mfs? <==> o.paymentDetails.payMethod.value in MfsMethods)
      && (r.value.details.Mfs? ==> r.value.details.paymentNumber == ReceiverNumber(receivers, o.paymentDetails.payMethod.value))
      && (r.value.details.Bank? ==> r.value.details.account == bank)
    ensures FindByOrderId(orders, orderId).None? ==> r == Err(OrderNotFound)
    ensures r.Err? ==> r.error in {OrderNotFound, NotApplicable} || r.error.NotPending?
  {
    match FindByOrderId(orders, orderId)
    case None => Err(OrderNotFound)
    case Some(k) =>
      var o := orders[k];
      if o.status != Pending then Err(NotPending(o.status))
      else
        var m := o.paymentDetails.payMethod;
        if m.Some? && m.value in MfsMethods then
          Ok(PaymentInfo(o.totalAmount, o.orderId, m, Mfs(ReceiverNumber(receivers, m.value))))
        else if m.Some? && m.value in BankMethods then
          Ok(PaymentInfo(o.totalAmount, o.orderId, m, Bank(bank)))
        else Err(NotApplicable)
  }

  /** The method enum has no `Bank` or `Card`, so a stored order never gets bank instructions. */
  lemma StoredOrdersGetNoBankDetails(orders: seq<Order>, orderId: string, receivers: map<string, string>, bank: BankAccount)
    requires StoredOrdersValid(orders)
    ensures var r := PaymentDetailsFor(orders, orderId, receivers, bank);
      r.Ok? ==> r.value.details.Mfs?
  {
    var r := PaymentDetailsFor(orders, orderId, receivers, bank);
    if r.Ok? {
      var k := FindByOrderId(orders, orderId).value;
      assert OrderSchemaValid(orders[k]);
    }
  }

  /** An order without a chosen method, as `createOrder` stores it, gets no instructions. */
  lemma NoMethodNoDetails(orders: seq<Order>, k: nat, receivers: map<string, string>, bank: BankAccount)
    requires OrderIdsUnique(orders) && k < |orders| && orders[k].status == Pending && orders[k].paymentDetails.payMethod.None?
    ensures PaymentDetailsFor(orders, orders[k].orderId, receivers, bank) == Err(NotApplicable)
  {
    FindByOrderIdUnique(orders, k);
  }

  predicate TransactionIdUsed(orders: seq<Order>, t: string) {
    exists k :: 0 <= k < |orders| && orders[k].paymentDetails.transactionId == Some(t)
  }

  /** No transaction id is on two orders. */
  predicate TransactionIdsUnique(orders: seq<Order>) {
    forall i, j :: 0 <= i < j < |orders| && orders[i].paymentDetails.transactionId.Some? ==>
      orders[i].paymentDetails.transactionId != orders[j].paymentDetails.transactionId
  }

  /** The fields `submitPayment` writes: `Paid`, the trimmed id, the time, and for MFS the receiving number. */
  function Submitted(o: Order, raw: string, receivers: map<string, string>, now: nat): (r: Order)
    ensures r.status == Paid && r.paymentDetails.transactionId == Some(Trim(raw)) && r.paymentDetails.submittedAt == Some(now)
    ensures r.paymentDetails.payMethod == o.paymentDetails.payMethod
    ensures r.(status := o.status, paymentDetails := o.paymentDetails) == o
  {
    var m := o.paymentDetails.payMethod;
    var receiver := if m.Some? && m.value in MfsMethods then ReceiverNumber(receivers, m.value) else o.paymentDetails.receiverNumber;
    o.(status := Paid,
       paymentDetails := o.paymentDetails.(transactionId := Some(Trim(raw)), submittedAt := Some(now), receiverNumber := receiver))
  }

  /**
   * The checks of `submitPayment` in their order, with `checked` the value
   * the duplicate check looks up; the result is the position and the order
   * to save. `customers` are the ids `User.findById` finds.
   */
  function SubmissionChecking(orders: seq<Order>, orderId: string, raw: string, checked: string,
                              customers: set<nat>, receivers: map<string, string>, now: nat): (r: Result<(nat, Order), Error>)
    ensures r.Ok? ==> (r.value.0 < |orders| && orders[r.value.0].orderId == orderId
      && orders[r.value.0].status == Pending && r.value.1 == Submitted(orders[r.value.0], raw, receivers, now))
    ensures r == Err(MissingTransactionId) <==> raw == []
    ensures raw != [] && FindByOrderId(orders, orderId).None? ==> r == Err(OrderNotFound)
    ensures raw != [] && FindByOrderId(orders, orderId).Some? ==> var o := orders[FindByOrderId(orders, orderId).value];
      && (o.status != Pending ==> r == Err(NotPending(o.status)))
      && (o.status == Pending && TransactionIdUsed(orders, checked) ==> r == Err(TransactionUsed))
      && (o.status == Pending && !TransactionIdUsed(orders, checked) ==>
            (r.Ok? <==> o.userId.Some? && o.userId.value in customers))
    ensures r.Err? ==> r.error != NotApplicable && !r.error.Store?
  {
    if raw == [] then Err(MissingTransactionId)
    else match FindByOrderId(orders, orderId)
      case None => Err(OrderNotFound)
      case Some(k) =>
        var o := orders[k];
        if o.status != Pending then Err(NotPending(o.status))
        else if TransactionIdUsed(orders, checked) then Err(TransactionUsed)
        else if o.userId.None? || o.userId.value !in customers then Err(CustomerNotFound)
        else Ok((k, Submitted(o, raw, receivers, now)))
  }

  /** As written: the duplicate check looks up the id as received, and the trimmed id is stored. */
  function SubmissionAsWritten(orders: seq<Order>, orderId: string, raw: string,
                               customers: set<nat>, receivers: map<string, string>, now: nat): Result<(nat, Order), Error> {
    SubmissionChecking(orders, orderId, raw, raw, customers, receivers, now)
  }

  /** The duplicate check on the value that is stored. */
  function Submission(orders: seq<Order>, orderId: string, raw: string,
                      customers: set<nat>, receivers: map<string, string>, now: nat): Result<(nat, Order), Error> {
    SubmissionChecking(orders, orderId, raw, Trim(raw), customers, receivers, now)
  }

  /** The corrected check keeps transaction ids unique across the collection. */
  lemma SubmissionKeepsTransactionIdsUnique(orders: seq<Order>, orderId: string, raw: string,
                                            customers: set<nat>, receivers: map<string, string>, now: nat)
    requires TransactionIdsUnique(orders)
    requires Submission(orders, orderId, raw, customers, receivers, now).Ok?
    ensures var (k, o) := Submission(orders, orderId, raw, customers, receivers, now).value;
      TransactionIdsUnique(orders[k := o.(updatedAt := now)])
  {
    var (k, o) := Submission(orders, orderId, raw, customers, receivers, now).value;
    var r := orders[k := o.(updatedAt := now)];
    forall i, j | 0 <= i < j < |r| && r[i].paymentDetails.transactionId.Some?
      ensures r[i].paymentDetails.transactionId != r[j].paymentDetails.transactionId
    {
      if i == k {
        assert orders[j].paymentDetails.transactionId != Some(Trim(raw));
      } else if j == k {
        assert orders[i].paymentDetails.transactionId != Some(Trim(raw));
      }
    }
  }

  /**
   * As written, submitting `"T "` for two pending orders succeeds twice and
   * leaves both holding `"T"`; the corrected check refuses the second.
   */
  lemma SubmissionAsWrittenDuplicates()
    ensures var pd := PaymentDetails(Some("bKash"), None, None, None);
      var orders := [Order("A", Some(0), [], 0.0, Pending, pd, None, None, 0, 0),
                     Order("B", Some(0), [], 0.0, Pending, pd, None, None, 0, 0)];
      var first := SubmissionAsWritten(orders, "A", "T ", {0}, map[], 1);
      && first == Ok((0, Submitted(orders[0], "T ", map[], 1)))
      && var after := orders[0 := first.value.1.(updatedAt := 1)];
      && var second := SubmissionAsWritten(after, "B", "T ", {0}, map[], 2);
      && second == Ok((1, Submitted(after[1], "T ", map[], 2)))
      && !TransactionIdsUnique(after[1 := second.value.1.(updatedAt := 2)])
      && Submission(after, "B", "T ", {0}, map[], 2) == Err(TransactionUsed)
  {
    var pd := PaymentDetails(Some("bKash"), None, None, None);
    var orders := [Order("A", Some(0), [], 0.0, Pending, pd, None, None, 0, 0),
                   Order("B", Some(0), [], 0.0, Pending, pd, None, None, 0, 0)];
    var raw := "T ";
    assert Trim(raw) == "T" by {
      assert SkipSpaces(raw, 0) == 0;
      assert SkipSpacesBack(raw, 1) == 1;
      assert SkipSpacesBack(raw, 2) == 1;
    }
    assert !TransactionIdUsed(orders, raw);
    var first := SubmissionAsWritten(orders, "A", raw, {0}, map[], 1);
    assert first == Ok((0, Submitted(orders[0], raw, map[], 1)));
    var after := orders[0 := first.value.1.(updatedAt := 1)];
    assert after[0].paymentDetails.transactionId == Some("T");
    assert after[0].orderId == "A" && after[1].orderId == "B";
    FindByOrderIdUnique(after, 1);
    assert !TransactionIdUsed(after, raw);
    var second := SubmissionAsWritten(after, "B", raw, {0}, map[], 2);
    assert second == Ok((1, Submitted(after[1], raw, map[], 2)));
    var last := after[1 := second.value.1.(updatedAt := 2)];
    assert last[0].paymentDetails.transactionId == last[1].paymentDetails.transactionId == Some("T");
    assert TransactionIdUsed(after, Trim(raw));
  }

  /** `submitPayment` with the corrected duplicate check: the checks, then the save of the fetched order. */
  method SubmitPayment(store: OrderStore, orderId: string, raw: string, customers: set<nat>,
                       receivers: map<string, string>, now: nat) returns (r: Result<nat, Error>)
    requires store.Valid()
    modifies store
    ensures store.Valid()
    ensures var s := Submission(old(store.orders), orderId, raw, customers, receivers, now);
      && (s.Err? ==> r == Err(s.error) && store.orders == old(store.orders))
      && (s.Ok? ==> r == Ok(s.value.0) && store.orders == old(store.orders)[s.value.0 := s.value.1.(updatedAt := now)])
  {
    if raw == [] {
      return Err(MissingTransactionId);
    }
    var found := FindByOrderId(store.orders, orderId);
    if found.None? {
      return Err(OrderNotFound);
    }
    var k := found.value;
    var o := store.orders[k];
    if o.status != Pending {
      return Err(NotPending(o.status));
    }
    if TransactionIdUsed(store.orders, Trim(raw)) {
      return Err(TransactionUsed);
    }
    if o.userId.None? || o.userId.value !in customers {
      return Err(CustomerNotFound);
    }
    var updated := Submitted(o, raw, receivers, now);
    assert OrderSchemaValid(updated);
    var saved := store.Replace(k, updated, now);
    assert saved.Ok?;
    r := Ok(k);
  }

  /** A rejected submission leaves the order as it was; an accepted one leaves it `Paid` and not payable again. */
  lemma SubmissionOnce(orders: seq<Order>, orderId: string, raw: string, customers: set<nat>,
                       receivers: map<string, string>, now: nat, raw': string, now': nat)
    requires Submission(orders, orderId, raw, customers, receivers, now).Ok?
    ensures var (k, o) := Submission(orders, orderId, raw, customers, receivers, now).value;
      raw' != [] && FindByOrderId(orders[k := o.(updatedAt := now)], orderId) == Some(k) ==>
        Submission(orders[k := o.(updatedAt := now)], orderId, raw', customers, receivers, now') == Err(NotPending(Paid))
  {
  }
}
