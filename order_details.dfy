/** The customer's order page: the grand-total breakdown shown under the
    item table, and the colour and name lookups for status, payment status
    and payment method. */
module OrderDetails {
  import opened Common

  /** One line of a stored order; only its line total matters here. */
  datatype OrderItem = OrderItem(totalPrice: Option<real>)

  /** A stored order as the order endpoints return it. A numeric field that
      is missing (or null) is `None`. */
  datatype Order = Order(
    orderItems: Option<seq<OrderItem>>,
    totalAmount: real,
    shippingFee: Option<real>,
    discountAmount: Option<real>,
    loyaltyPointsUsed: Option<real>,
    status: Option<string>,
    paymentMethod: Option<string>,
    paymentStatus: Option<string>)

  /** `parseFloat(x || 0)`: a missing amount counts as 0. */
  function Amount(x: Option<real>): (r: real)
    ensures x.None? ==> r == 0.0
    ensures x.Some? ==> r == x.value
  {
    x.GetOr(0.0)
  }

  /** The `reduce` over the items, adding each line total (0 when missing),
      from the first line to the last. */
  function ItemsSubtotal(items: seq<OrderItem>): (r: real)
    ensures (forall i | 0 <= i < |items| :: items[i].totalPrice.None?) ==> r == 0.0
    ensures |items| == 1 ==> r == Amount(items[0].totalPrice)
    decreases |items|
  {
    if |items| == 0 then 0.0
    else ItemsSubtotal(items[..|items| - 1]) + Amount(items[|items| - 1].totalPrice)
  }

  /** The subtotal of a list split in two is the sum of the two parts. */
  lemma {:induction false} ItemsSubtotalOfConcat(a: seq<OrderItem>, b: seq<OrderItem>)
    ensures ItemsSubtotal(a + b) == ItemsSubtotal(a) + ItemsSubtotal(b)
    decreases |b|
  {
    if |b| == 0 {
      assert a + b == a;
    } else {
      var c := a + b;
      assert c[..|c| - 1] == a + b[..|b| - 1];
      assert c[|c| - 1] == b[|b| - 1];
      ItemsSubtotalOfConcat(a, b[..|b| - 1]);
    }
  }

  /** With no negative line totals the subtotal is at least each line's total. */
  lemma {:induction false} ItemsSubtotalBoundsLine(items: seq<OrderItem>, i: nat)
    requires i < |items|
    requires forall j :: 0 <= j < |items| ==> Amount(items[j].totalPrice) >= 0.0
    ensures ItemsSubtotal(items) >= Amount(items[i].totalPrice)
    decreases |items|
  {
    var init := items[..|items| - 1];
    assert forall j :: 0 <= j < |init| ==> init[j] == items[j];
    ItemsSubtotalNonNegative(init);
    if i < |items| - 1 {
      ItemsSubtotalBoundsLine(init, i);
    }
  }

  lemma {:induction false} ItemsSubtotalNonNegative(items: seq<OrderItem>)
    requires forall j :: 0 <= j < |items| ==> Amount(items[j].totalPrice) >= 0.0
    ensures ItemsSubtotal(items) >= 0.0
    decreases |items|
  {
    if |items| > 0 {
      var init := items[..|items| - 1];
      assert forall j :: 0 <= j < |init| ==> init[j] == items[j];
      ItemsSubtotalNonNegative(init);
    }
  }

  /** The order-level subtotal: absent when the order carries no item list
      (the page then shows no number). */
  function Subtotal(order: Order): (r: Option<real>)
    ensures r.None? <==> order.orderItems.None?
    ensures r.Some? && |order.orderItems.value| == 0 ==> r.value == 0.0
  {
    if order.orderItems.Some? then Some(ItemsSubtotal(order.orderItems.value)) else None
  }

  /** This page always shows a discount of 0. */
  const DiscountAmount: real := 0.0

  /** Points are worth one hundredth of a currency unit. */
  function LoyaltyPointsDiscount(order: Order): (r: real)
    ensures order.loyaltyPointsUsed.None? ==> r == 0.0
    ensures r * 100.0 == Amount(order.loyaltyPointsUsed)
  {
    Amount(order.loyaltyPointsUsed) / 100.0
  }

  /** The grand total: subtotal + shipping fee (0 when missing) − discount − points discount. */
  function GrandTotal(order: Order): (r: Option<real>)
    ensures r.None? <==> order.orderItems.None?
  {
    match Subtotal(order)
    case None => None
    case Some(s) => Some(s + Amount(order.shippingFee) - DiscountAmount - LoyaltyPointsDiscount(order))
  }

  /** The order was priced the way checkout prices it: its total is its
      items' subtotal plus the shipping fee, less the code discount and
      the redeemed points at 100 points per unit. */
  predicate PricedAtCheckout(order: Order) {
    && order.orderItems.Some?
    && order.totalAmount == ItemsSubtotal(order.orderItems.value) + Amount(order.shippingFee)
                            - Amount(order.discountAmount) - Amount(order.loyaltyPointsUsed) / 100.0
  }

  /** For an order priced at checkout without a code discount, the grand
      total the page shows is the stored total; with a code discount it
      overstates the stored total by exactly that discount, since this page
      always shows a discount of 0. */
  lemma GrandTotalAgainstStoredTotal(order: Order)
    requires PricedAtCheckout(order)
    ensures GrandTotal(order).Some?
    ensures GrandTotal(order).value == order.totalAmount + Amount(order.discountAmount)
    ensures Amount(order.discountAmount) == 0.0 ==> GrandTotal(order).value == order.totalAmount
  {
  }

  /** Adding one line raises the grand total by exactly that line's total. */
  lemma GrandTotalAddLine(order: Order, item: OrderItem)
    requires order.orderItems.Some?
    ensures var bigger := order.(orderItems := Some(order.orderItems.value + [item]));
      GrandTotal(bigger).value == GrandTotal(order).value + Amount(item.totalPrice)
  {
    var items := order.orderItems.value + [item];
    assert items[..|items| - 1] == order.orderItems.value;
  }

  /** The colour names of the page's badges. */
  const StatusColors: map<string, string> :=
    map["pending" := "warning", "confirmed" := "info", "shipped" := "primary",
        "delivered" := "success", "cancelled" := "danger"]

  const PaymentStatusColors: map<string, string> :=
    map["paid" := "success", "pending" := "warning", "failed" := "danger"]

  const FallbackColor := "secondary"

  /** `getStatusBadgeColor`: the five known statuses, matched exactly, and
      "secondary" for anything else, including a missing status. */
  function StatusBadgeColor(status: Option<string>): (r: string)
    ensures status.Some? && status.value in StatusColors ==> r == StatusColors[status.value]
    ensures !(status.Some? && status.value in StatusColors) ==> r == FallbackColor
  {
    if status == Some("pending") then "warning"
    else if status == Some("confirmed") then "info"
    else if status == Some("shipped") then "primary"
    else if status == Some("delivered") then "success"
    else if status == Some("cancelled") then "danger"
    else FallbackColor
  }

  /** Distinct known statuses get distinct colours, and none of them the
      fallback. */
  lemma StatusColorsDistinct(a: string, b: string)
    requires a in StatusColors && b in StatusColors && a != b
    ensures StatusBadgeColor(Some(a)) != StatusBadgeColor(Some(b))
    ensures StatusBadgeColor(Some(a)) != FallbackColor
  {
  }

  /** `getPaymentStatusColor` */
  function PaymentStatusColor(status: Option<string>): (r: string)
    ensures status.Some? && status.value in PaymentStatusColors ==> r == PaymentStatusColors[status.value]
    ensures !(status.Some? && status.value in PaymentStatusColors) ==> r == FallbackColor
  {
    if status == Some("paid") then "success"
    else if status == Some("pending") then "warning"
    else if status == Some("failed") then "danger"
    else FallbackColor
  }

  const PaymentMethodNames: map<string, string> :=
    map["cod" := "Cash on Delivery", "card" := "Credit/Debit Card"]

  /** `getPaymentMethodName` (the admin order page has the same function):
      the two known codes get their display names, anything else is shown
      as it is. */
  function PaymentMethodName(paymentMethod: Option<string>): (r: Option<string>)
    ensures paymentMethod.Some? && paymentMethod.value in PaymentMethodNames ==> r == Some(PaymentMethodNames[paymentMethod.value])
    ensures !(paymentMethod.Some? && paymentMethod.value in PaymentMethodNames) ==> r == paymentMethod
  {
    if paymentMethod == Some("cod") then Some("Cash on Delivery")
    else if paymentMethod == Some("card") then Some("Credit/Debit Card")
    else paymentMethod
  }

  /** A display name is its own display name. */
  lemma PaymentMethodNameIdempotent(paymentMethod: Option<string>)
    ensures PaymentMethodName(PaymentMethodName(paymentMethod)) == PaymentMethodName(paymentMethod)
  {
  }
}
