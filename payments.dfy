/** The payment coordinator: PaymentsService records a pending payment for an
    order the caller owns and, when the payment provider reports the intent as
    succeeded, completes the payment and confirms the order. The provider is an
    oracle: intent creation is a function parameter, and the status it reports
    for an intent is a parameter of the confirmation. */
module Payments {
  import opened Common
  import Orders

  /** The two statuses the service writes: `pending` and `completed`. */
  datatype PaymentStatus = Pending | Completed

  datatype Payment = Payment(
    id: Id,
    orderId: Id,
    amount: int,            // cents, the order's total
    status: PaymentStatus,
    intentId: string,       // the provider's payment intent id
    paymentMethod: string)

  /** What the provider returns when an intent is created. */
  datatype Intent = Intent(id: string, clientSecret: string)

  /** What createPayment hands back to the client. */
  datatype PaymentHandle = PaymentHandle(clientSecret: string, paymentIntent: string)

  /** The currency every intent is created in. */
  const Currency: string := "usd"

  /** The `paymentMethod` column's default. */
  const DefaultMethod: string := "stripe"

  /** The provider status that confirms a payment. */
  const Succeeded: string := "succeeded"

  function HasIntent(intentId: string): Payment -> bool
  {
    (p: Payment) => p.intentId == intentId
  }

  /** The position of the payment recorded for that intent, if any. */
  function FindByIntent(payments: seq<Payment>, intentId: string): (r: Option<nat>)
    ensures r.Some? ==> r.value < |payments| && payments[r.value].intentId == intentId
    ensures r.Some? ==> forall j :: 0 <= j < r.value ==> payments[j].intentId != intentId
    ensures r.None? <==> forall i :: 0 <= i < |payments| ==> payments[i].intentId != intentId
  {
    var r := FirstIndex(payments, HasIntent(intentId));
    assert r.None? ==> forall i :: 0 <= i < |payments| ==> !HasIntent(intentId)(payments[i]);
    r
  }

  /** The payment table after payment `i` is marked completed. */
  function Settled(payments: seq<Payment>, i: nat): (r: seq<Payment>)
    requires i < |payments|
    ensures |r| == |payments|
    ensures r[i].status == Completed
    ensures r[i] == payments[i].(status := r[i].status)
    ensures forall j :: 0 <= j < |r| && j != i ==> r[j] == payments[j]
  {
    payments[i := payments[i].(status := Completed)]
  }

  /** The payment table's invariant: ids are positions, and every payment
      names an existing order and carries that order's total. */
  ghost predicate LedgerOk(payments: seq<Payment>, orders: seq<Orders.Order>)
  {
    forall i :: 0 <= i < |payments| ==>
      && payments[i].id == i
      && payments[i].orderId < |orders|
      && payments[i].amount == orders[payments[i].orderId].totalAmount
  }

  /** Recording a payment for an existing order at that order's total keeps the
      ledger. */
  lemma {:induction false} RecordKeepsLedger(payments: seq<Payment>, orders: seq<Orders.Order>, p: Payment)
    requires LedgerOk(payments, orders)
    requires p.id == |payments| && p.orderId < |orders| && p.amount == orders[p.orderId].totalAmount
    ensures LedgerOk(payments + [p], orders)
  {
    var after := payments + [p];
    forall i | 0 <= i < |after|
      ensures after[i].id == i && after[i].orderId < |orders|
              && after[i].amount == orders[after[i].orderId].totalAmount
    {
      if i < |payments| {
        assert after[i] == payments[i];
      }
    }
  }

  /** Completing a payment and overwriting one order's status keeps the
      ledger: neither touches an id, an order reference or a total. */
  lemma {:induction false} ConfirmKeepsLedger(payments: seq<Payment>, orders: seq<Orders.Order>, i: nat, o: Id, status: Orders.OrderStatus)
    requires LedgerOk(payments, orders)
    requires i < |payments| && o < |orders|
    ensures LedgerOk(Settled(payments, i), orders[o := orders[o].(status := status)])
  {
    var ps := Settled(payments, i);
    var os := orders[o := orders[o].(status := status)];
    forall j | 0 <= j < |ps|
      ensures ps[j].id == j && ps[j].orderId < |os| && ps[j].amount == os[ps[j].orderId].totalAmount
    {
      assert ps[j].id == payments[j].id && ps[j].orderId == payments[j].orderId && ps[j].amount == payments[j].amount;
    }
  }

  /** Confirming an already completed payment again leaves the table as it is. */
  lemma {:induction false} SettledTwice(payments: seq<Payment>, i: nat)
    requires i < |payments|
    ensures Settled(Settled(payments, i), i) == Settled(payments, i)
  {
    var once := Settled(payments, i);
    assert once[i].(status := Completed) == once[i];
  }

  class PaymentsService {
    var payments: seq<Payment>
    const orders: Orders.OrdersService

    ghost predicate Valid()
      reads this, orders, orders.cart, orders.catalog
    {
      orders.Valid() && LedgerOk(payments, orders.orders)
    }

    constructor (orders: Orders.OrdersService)
      requires orders.Valid()
      ensures Valid() && payments == [] && this.orders == orders
    {
      payments := [];
      this.orders := orders;
    }

    /** Record a pending payment for an order the caller owns: ask the provider
        for an intent over the order's total in cents, save the payment with the
        intent's id, and return the intent's client secret. NotFound, with no
        payment recorded, when the order is absent or someone else's. */
    method CreatePayment(orderId: Id, userId: UserId, createIntent: (int, string) -> Intent)
      returns (r: Result<PaymentHandle>)
      requires Valid()
      modifies this
      ensures Valid()
      ensures r.Err? <==> orders.FindOne(orderId, Some(userId)).Err?
      ensures r.Err? ==> r.error == NotFound("Order") && payments == old(payments)
      ensures r.Ok? ==>
                var order := orders.orders[orderId];
                var intent := createIntent(order.totalAmount, Currency);
                && payments == old(payments) + [Payment(old(|payments|), orderId, order.totalAmount, Pending, intent.id, DefaultMethod)]
                && r.value == PaymentHandle(intent.clientSecret, intent.id)
    {
      var found := orders.FindOne(orderId, Some(userId));
      if found.Err? {
        return Err(found.error);
      }
      var order := found.value;
      var intent := createIntent(order.totalAmount, Currency);
      var payment := Payment(|payments|, orderId, order.totalAmount, Pending, intent.id, DefaultMethod);
      RecordKeepsLedger(payments, orders.orders, payment);
      payments := payments + [payment];
      r := Ok(PaymentHandle(intent.clientSecret, payment.intentId));
    }

    /** Settle the payment recorded for an intent from the status the provider
        reports: on `succeeded` the payment is completed and its order confirmed;
        otherwise PaymentFailed. PaymentNotFound when no payment has the intent.
        Either failure changes nothing. */
    method ConfirmPayment(intentId: string, providerStatus: string) returns (r: Result<bool>)
      requires Valid()
      modifies this, orders
      ensures Valid()
      ensures FindByIntent(old(payments), intentId).None? ==>
                r == Err(PaymentNotFound) && unchanged(this, orders)
      ensures FindByIntent(old(payments), intentId).Some? && providerStatus != Succeeded ==>
                r == Err(PaymentFailed) && unchanged(this, orders)
      ensures FindByIntent(old(payments), intentId).Some? && providerStatus == Succeeded ==>
                var i := FindByIntent(old(payments), intentId).value;
                var o := old(payments)[i].orderId;
                && r == Ok(true)
                && payments == Settled(old(payments), i)
                && orders.orders == old(orders.orders)[o := old(orders.orders)[o].(status := Orders.Confirmed)]
                && orders.items == old(orders.items)
    {
      var found := FindByIntent(payments, intentId);
      if found.None? {
        return Err(PaymentNotFound);
      }
      var i := found.value;
      if providerStatus != Succeeded {
        return Err(PaymentFailed);
      }
      var orderId := payments[i].orderId;
      ConfirmKeepsLedger(payments, orders.orders, i, orderId, Orders.Confirmed);
      payments := Settled(payments, i);
      var _ := orders.UpdateStatus(orderId, Orders.Confirmed);
      r := Ok(true);
    }
  }
}
