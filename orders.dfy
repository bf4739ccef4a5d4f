/**
  The order controller: checking a cart out into an order, the sales
  figure, and the two status transitions. The order collection is an
  ordered table whose ids are positions; the clock is a parameter.
*/
module Orders {
  import opened Catalog
  import opened Pricing
  import CartEngine

  /** The payment record `markOrderAsPaid` copies from the request body. */
  datatype PaymentResult = PaymentResult(id: string, status: string, updateTime: string, emailAddress: string)

  /** The body of a paid notification; `payer` may be missing. */
  datatype PaymentBody = PaymentBody(id: string, status: string, updateTime: string, payer: Option<string>)

  /**
    An order document. `taxPrice` is `None`: checkout does not copy the
    cart's tax, and the order schema, which would supply any default, is not
    part of this model.
  */
  datatype Order = Order(
    user: UserId,
    orderItems: seq<CartLine>,
    shippingAddress: string,
    paymentMethod: string,
    itemsPrice: nat,
    shippingPrice: nat,
    taxPrice: Option<nat>,
    totalPrice: nat,
    isPaid: bool,
    paidAt: Option<int>,
    paymentResult: Option<PaymentResult>,
    isDelivered: bool,
    deliveredAt: Option<int>)

  datatype OrderError =
    | NoOrderItems     // "No order items"
    | OrderNotFound    // "Order is not found"
    | MissingPayer     // reading `req.body.payer.email_address` throws

  /** `createOrder` (controllers/orderController.js:7-32): an order from the user's cart, which must have lines. */
  function BuildOrder(user: UserId, cart: CartEngine.CartValue, shippingAddress: string, paymentMethod: string): (r: Result<Order, OrderError>)
    ensures r.Failure? <==> !cart.present || cart.lines == []
    ensures r.Failure? ==> r.error == NoOrderItems
    ensures r.Success? ==>
              && r.value.user == user
              && r.value.orderItems == cart.lines
              && r.value.shippingAddress == shippingAddress
              && r.value.paymentMethod == paymentMethod
              && r.value.itemsPrice == cart.totals.itemsPrice
              && r.value.shippingPrice == cart.totals.shippingPrice
              && r.value.totalPrice == cart.totals.totalPrice
              && r.value.taxPrice.None?
              && !r.value.isPaid && !r.value.isDelivered
              && r.value.paidAt.None? && r.value.deliveredAt.None? && r.value.paymentResult.None?
  {
    if !cart.present || cart.lines == [] then Failure(NoOrderItems)
    else
      Success(Order(user, cart.lines, shippingAddress, paymentMethod,
                    cart.totals.itemsPrice, cart.totals.shippingPrice, None, cart.totals.totalPrice,
                    false, None, None, false, None))
  }

  /**
    An order checked out from a cart whose money fields are the pricing
    formula of its lines charges the tax in its total even though it does not
    record it.
  */
  lemma OrderTotalIncludesTax(user: UserId, cart: CartEngine.CartValue, address: string, payment: string)
    requires cart.totals == TotalsOf(cart.lines)
    requires BuildOrder(user, cart, address, payment).Success?
    ensures var o := BuildOrder(user, cart, address, payment).value;
            && o.totalPrice == o.itemsPrice + o.shippingPrice + TaxOf(o.itemsPrice)
            && o.itemsPrice == ItemsPrice(o.orderItems)
  {
  }

  /** A cart that was just listed checks out at the current catalogue prices and stock. */
  lemma CheckoutAfterListing(cat: Catalogue, user: UserId, v: CartEngine.CartValue, address: string, payment: string)
    requires CartEngine.ListStep(cat, v).outcome.Ok?
    requires BuildOrder(user, CartEngine.ListStep(cat, v).cart, address, payment).Success?
    ensures var o := BuildOrder(user, CartEngine.ListStep(cat, v).cart, address, payment).value;
            && o.totalPrice == o.itemsPrice + o.shippingPrice + TaxOf(o.itemsPrice)
            && forall l :: l in o.orderItems ==>
                 l.id in cat && l.product == cat[l.id] && 0 < l.qty <= cat[l.id].quantity
  {
    CartEngine.ListStepSound(cat, v);
  }

  /** `orders.reduce((sum, order) => sum + order.totalPrice, 0)`, a left fold. */
  function SalesFrom(acc: nat, orders: seq<Order>): nat
    decreases |orders|
  {
    if orders == [] then acc else SalesFrom(acc + orders[0].totalPrice, orders[1..])
  }

  /** `calculateTotalSales` (controllers/orderController.js:59-63). */
  function TotalSales(orders: seq<Order>): nat {
    SalesFrom(0, orders)
  }

  /** The plain sum of the order totals, from the back. */
  function SumOfTotals(orders: seq<Order>): nat
    decreases |orders|
  {
    if orders == [] then 0 else SumOfTotals(orders[..|orders| - 1]) + orders[|orders| - 1].totalPrice
  }

  lemma {:induction false} SalesFromShift(acc: nat, orders: seq<Order>)
    ensures SalesFrom(acc, orders) == acc + TotalSales(orders)
    decreases |orders|
  {
    if orders != [] {
      SalesFromShift(acc + orders[0].totalPrice, orders[1..]);
      SalesFromShift(orders[0].totalPrice, orders[1..]);
    }
  }

  /** The sales of a table with one more order are the earlier sales plus that order's total. */
  lemma {:induction false} TotalSalesSnoc(orders: seq<Order>, o: Order)
    ensures TotalSales(orders + [o]) == TotalSales(orders) + o.totalPrice
    decreases |orders|
  {
    if orders == [] {
      assert orders + [o] == [o];
      assert [o][1..] == [];
      assert TotalSales([o]) == SalesFrom(o.totalPrice, []);
    } else {
      assert (orders + [o])[1..] == orders[1..] + [o];
      TotalSalesSnoc(orders[1..], o);
      SalesFromShift(orders[0].totalPrice, orders[1..] + [o]);
      SalesFromShift(orders[0].totalPrice, orders[1..]);
    }
  }

  /** The fold computes the plain sum of the order totals; no orders give 0. */
  lemma {:induction false} TotalSalesIsSum(orders: seq<Order>)
    ensures TotalSales(orders) == SumOfTotals(orders)
    ensures orders == [] ==> TotalSales(orders) == 0
    decreases |orders|
  {
    if orders != [] {
      var n := |orders| - 1;
      assert orders == orders[..n] + [orders[n]];
      TotalSalesIsSum(orders[..n]);
      TotalSalesSnoc(orders[..n], orders[n]);
    }
  }

  /** Sales only look at totals: tables that agree on every order's total have the same sales. */
  lemma {:induction false} TotalSalesOnlyTotals(a: seq<Order>, b: seq<Order>)
    requires |a| == |b|
    requires forall i :: 0 <= i < |a| ==> a[i].totalPrice == b[i].totalPrice
    ensures TotalSales(a) == TotalSales(b)
    decreases |a|
  {
    if a != [] {
      var n := |a| - 1;
      assert a == a[..n] + [a[n]];
      assert b == b[..n] + [b[n]];
      TotalSalesOnlyTotals(a[..n], b[..n]);
      TotalSalesSnoc(a[..n], a[n]);
      TotalSalesSnoc(b[..n], b[n]);
    }
  }

  /** `markOrderAsPaid` (controllers/orderController.js:99-117), on one order. */
  function PayStep(o: Order, now: int, body: PaymentBody): (r: Result<Order, OrderError>)
    ensures r.Failure? <==> body.payer.None?
    ensures r.Failure? ==> r.error == MissingPayer
    ensures r.Success? ==>
              && r.value.isPaid
              && r.value.paidAt == Some(now)
              && r.value.paymentResult == Some(PaymentResult(body.id, body.status, body.updateTime, body.payer.value))
              && r.value.(isPaid := o.isPaid, paidAt := o.paidAt, paymentResult := o.paymentResult) == o
  {
    match body.payer
    case None => Failure(MissingPayer)
    case Some(email) =>
      Success(o.(isPaid := true, paidAt := Some(now),
                 paymentResult := Some(PaymentResult(body.id, body.status, body.updateTime, email))))
  }

  /** `markOrderAsDelivered` (controllers/orderController.js:119-133), on one order. */
  function DeliverStep(o: Order, now: int): (r: Order)
    ensures r.isDelivered && r.deliveredAt == Some(now)
    ensures r.(isDelivered := o.isDelivered, deliveredAt := o.deliveredAt) == o
  {
    o.(isDelivered := true, deliveredAt := Some(now))
  }

  /** The status changes touch no money field, so they leave the sales figure alone. */
  lemma StatusChangesKeepSales(orders: seq<Order>, i: nat, now: int, body: PaymentBody)
    requires i < |orders|
    ensures TotalSales(orders[i := DeliverStep(orders[i], now)]) == TotalSales(orders)
    ensures PayStep(orders[i], now, body).Success? ==>
              TotalSales(orders[i := PayStep(orders[i], now, body).value]) == TotalSales(orders)
  {
    TotalSalesOnlyTotals(orders[i := DeliverStep(orders[i], now)], orders);
    if PayStep(orders[i], now, body).Success? {
      TotalSalesOnlyTotals(orders[i := PayStep(orders[i], now, body).value], orders);
    }
  }

  /** Paying twice keeps the flag set and records the later payment. */
  lemma PayIsIdempotentOnFlag(o: Order, t1: int, t2: int, body: PaymentBody)
    requires body.payer.Some?
    ensures var once := PayStep(o, t1, body).value;
            PayStep(once, t2, body).value == PayStep(o, t2, body).value
  {
  }

  /** The order collection. */
  class OrderTable {
    var orders: seq<Order>

    constructor ()
      ensures orders == []
    {
      orders := [];
    }

    /** `createOrder`: the new order is stored at the end and its position is its id. */
    method CreateOrder(user: UserId, cart: CartEngine.CartValue, shippingAddress: string, paymentMethod: string)
      returns (r: Result<OrderId, OrderError>)
      modifies this
      ensures var b := BuildOrder(user, cart, shippingAddress, paymentMethod);
              && (b.Failure? ==> r == Failure(b.error) && orders == old(orders))
              && (b.Success? ==> r == Success(|old(orders)|) && orders == old(orders) + [b.value])
    {
      var b := BuildOrder(user, cart, shippingAddress, paymentMethod);
      if b.Failure? {
        return Failure(b.error);
      }
      r := Success(|orders|);
      orders := orders + [b.value];
    }

    method MarkOrderAsPaid(id: OrderId, now: int, body: PaymentBody) returns (err: Option<OrderError>)
      modifies this
      ensures id >= |old(orders)| ==> err == Some(OrderNotFound) && orders == old(orders)
      ensures id < |old(orders)| ==>
                var p := PayStep(old(orders)[id], now, body);
                && (p.Failure? ==> err == Some(p.error) && orders == old(orders))
                && (p.Success? ==> err.None? && orders == old(orders)[id := p.value])
    {
      if id >= |orders| {
        return Some(OrderNotFound);
      }
      var o := orders[id];
      if body.payer.None? {
        return Some(MissingPayer);
      }
      o := o.(isPaid := true);
      o := o.(paidAt := Some(now));
      o := o.(paymentResult := Some(PaymentResult(body.id, body.status, body.updateTime, body.payer.value)));
      orders := orders[id := o];
      err := None;
    }

    method MarkOrderAsDelivered(id: OrderId, now: int) returns (err: Option<OrderError>)
      modifies this
      ensures id >= |old(orders)| ==> err == Some(OrderNotFound) && orders == old(orders)
      ensures id < |old(orders)| ==> err.None? && orders == old(orders)[id := DeliverStep(old(orders)[id], now)]
    {
      if id >= |orders| {
        return Some(OrderNotFound);
      }
      var o := orders[id];
      o := o.(isDelivered := true);
      o := o.(deliveredAt := Some(now));
      orders := orders[id := o];
      err := None;
    }

    /** `calculateTotalSales`, folding over the table. */
    method CalculateTotalSales() returns (total: nat)
      ensures total == TotalSales(orders)
    {
      total := 0;
      var i := 0;
      while i < |orders|
        invariant 0 <= i <= |orders|
        invariant total == TotalSales(orders[..i])
      {
        TotalSalesSnoc(orders[..i], orders[i]);
        assert orders[..i + 1] == orders[..i] + [orders[i]];
        total := total + orders[i].totalPrice;
        i := i + 1;
      }
      assert orders[..i] == orders;
    }
  }
}
