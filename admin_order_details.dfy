/** The admin's order page: the status editor (modal and submit guard), the
    badges for order and payment status, and the subtotal row of the
    totals footer. */
module AdminOrderDetails {
  import opened Common
  import OrderDetails

  /** The hexadecimal colour behind each of the customer page's colour names. */
  const Hex: map<string, string> :=
    map["warning" := "#ffc107", "info" := "#17a2b8", "primary" := "#0d6efd",
        "success" := "#28a745", "danger" := "#dc3545", "secondary" := "#6c757d"]

  const Grey := "#6c757d"

  const StatusHex: map<string, string> :=
    map["pending" := "#ffc107", "confirmed" := "#17a2b8", "shipped" := "#0d6efd",
        "delivered" := "#28a745", "cancelled" := "#dc3545"]

  const PaymentStatusHex: map<string, string> :=
    map["pending" := "#ffc107", "paid" := "#28a745", "failed" := "#dc3545"]

  /** A badge: its text and its background colour. */
  datatype Badge = Badge(text: string, background: string)

  /** Looks up the lower-cased key, grey when it is not in the table. */
  function HexFor(table: map<string, string>, key: string): string {
    if ToLower(key) in table then table[ToLower(key)] else Grey
  }

  /** `getStatusBadge`: a missing or empty status reads UNKNOWN on grey;
      otherwise the status is shown upper-cased, coloured by its lower-cased
      form, grey when unknown. */
  function StatusBadge(status: Option<string>): (b: Badge)
    ensures !Truthy(status) ==> b == Badge("UNKNOWN", Grey)
    ensures Truthy(status) ==> b.text == ToUpper(status.value)
    ensures Truthy(status) && ToLower(status.value) in StatusHex ==> b.background == StatusHex[ToLower(status.value)]
    ensures Truthy(status) && ToLower(status.value) !in StatusHex ==> b.background == Grey
  {
    if !Truthy(status) then Badge("UNKNOWN", Grey)
    else Badge(ToUpper(status.value), HexFor(StatusHex, status.value))
  }

  /** `getPaymentStatusBadge`, the same scheme over pending, paid and failed. */
  function PaymentStatusBadge(status: Option<string>): (b: Badge)
    ensures !Truthy(status) ==> b == Badge("UNKNOWN", Grey)
    ensures Truthy(status) ==> b.text == ToUpper(status.value)
    ensures Truthy(status) && ToLower(status.value) in PaymentStatusHex
            ==> b.background == PaymentStatusHex[ToLower(status.value)]
    ensures Truthy(status) && ToLower(status.value) !in PaymentStatusHex ==> b.background == Grey
  {
    if !Truthy(status) then Badge("UNKNOWN", Grey)
    else Badge(ToUpper(status.value), HexFor(PaymentStatusHex, status.value))
  }

  /** Two spellings that differ only in letter case get the same colour. */
  lemma BadgesIgnoreCase(s: string, t: string)
    requires s != "" && t != "" && ToLower(s) == ToLower(t)
    ensures StatusBadge(Some(s)).background == StatusBadge(Some(t)).background
    ensures PaymentStatusBadge(Some(s)).background == PaymentStatusBadge(Some(t)).background
  {
  }

  /** For any non-empty status, the admin colour is the customer page's
      colour for the lower-cased status. */
  lemma StatusBadgeMatchesCustomerPage(s: string)
    requires s != ""
    ensures StatusBadge(Some(s)).background == Hex[OrderDetails.StatusBadgeColor(Some(ToLower(s)))]
    ensures PaymentStatusBadge(Some(s)).background == Hex[OrderDetails.PaymentStatusColor(Some(ToLower(s)))]
  {
    var k := ToLower(s);
    assert k in StatusHex <==> k in OrderDetails.StatusColors;
    assert k in PaymentStatusHex <==> k in OrderDetails.PaymentStatusColors;
  }

  /** The subtotal row as the page computes it: stored total − shipping fee
      + discount + points used, with the points taken as currency units. */
  function DisplayedSubtotalAsWritten(order: OrderDetails.Order): (r: real)
    ensures order.shippingFee.None? && order.discountAmount.None? && order.loyaltyPointsUsed.None?
            ==> r == order.totalAmount
  {
    order.totalAmount - OrderDetails.Amount(order.shippingFee) + OrderDetails.Amount(order.discountAmount)
      + OrderDetails.Amount(order.loyaltyPointsUsed)
  }

  /** The subtotal row with the points converted at 100 points per unit, as
      checkout deducts them. */
  function DisplayedSubtotal(order: OrderDetails.Order): (r: real)
    ensures r == DisplayedSubtotalAsWritten(order) - OrderDetails.Amount(order.loyaltyPointsUsed) * 99.0 / 100.0
  {
    order.totalAmount - OrderDetails.Amount(order.shippingFee) + OrderDetails.Amount(order.discountAmount)
      + OrderDetails.LoyaltyPointsDiscount(order)
  }

  /** For an order priced at checkout, the corrected row recovers the sum of
      the line totals, so it agrees with the customer page's subtotal. */
  lemma DisplayedSubtotalRecoversItems(order: OrderDetails.Order)
    requires OrderDetails.PricedAtCheckout(order)
    ensures DisplayedSubtotal(order) == OrderDetails.ItemsSubtotal(order.orderItems.value)
    ensures OrderDetails.Subtotal(order) == Some(DisplayedSubtotal(order))
  {
  }

  /** As written, the row overstates the line totals by 99/100 of the points
      used, so it is right only for orders that redeemed no points. */
  lemma DisplayedSubtotalAsWrittenOverstates(order: OrderDetails.Order)
    requires OrderDetails.PricedAtCheckout(order)
    ensures DisplayedSubtotalAsWritten(order)
         == OrderDetails.ItemsSubtotal(order.orderItems.value) + OrderDetails.Amount(order.loyaltyPointsUsed) * 99.0 / 100.0
    ensures DisplayedSubtotalAsWritten(order) == OrderDetails.ItemsSubtotal(order.orderItems.value)
            <==> OrderDetails.Amount(order.loyaltyPointsUsed) == 0.0
  {
  }

  /** One line of 50.00, shipping 10.00 and 100 points redeemed: checkout
      stores a total of 59.00, and the row shows 149.00 instead of 50.00. */
  lemma DisplayedSubtotalAsWrittenExample()
    ensures var order := OrderDetails.Order(Some([OrderDetails.OrderItem(Some(50.0))]), 59.0, Some(10.0), None,
                                            Some(100.0), Some("pending"), Some("cod"), Some("pending"));
      && OrderDetails.PricedAtCheckout(order)
      && DisplayedSubtotalAsWritten(order) == 149.0
      && DisplayedSubtotal(order) == 50.0
  {
    var items := [OrderDetails.OrderItem(Some(50.0))];
    assert items[..0] == [];
    assert OrderDetails.ItemsSubtotal(items) == 50.0;
    assert OrderDetails.Amount(Some(10.0)) == 10.0 && OrderDetails.Amount(Some(100.0)) == 100.0;
    assert OrderDetails.Amount(None) == 0.0;
  }

  /** The status update request. */
  datatype StatusUpdate = StatusUpdate(status: string, note: string)

  /** What the update endpoint did with a request. */
  datatype UpdateOutcome = Updated | Refused(message: Option<string>) | Threw

  datatype StatusFormField = StatusField | NoteField

  /** The status the editor opens with: the order's own, or "pending". */
  function OpenedStatus(orderStatus: Option<string>): (r: string)
    ensures Truthy(orderStatus) ==> r == orderStatus.value
    ensures !Truthy(orderStatus) ==> r == "pending"
    ensures r != ""
  {
    if Truthy(orderStatus) then orderStatus.value else "pending"
  }

  /** The submit guard: an update is sent only when the chosen status differs
      from the order's (a missing order status differs from every choice). */
  predicate SendsUpdate(formStatus: string, orderStatus: Option<string>)
    ensures orderStatus.None? ==> SendsUpdate(formStatus, orderStatus)
    ensures orderStatus == Some(formStatus) ==> !SendsUpdate(formStatus, orderStatus)
  {
    Some(formStatus) != orderStatus
  }

  /** Submitting straight after opening sends nothing exactly when the order
      has a non-empty status. */
  lemma OpenThenSubmitSendsIffNoStatus(orderStatus: Option<string>)
    ensures SendsUpdate(OpenedStatus(orderStatus), orderStatus) <==> !Truthy(orderStatus)
  {
  }

  /** The status editor: the modal flag and the form it holds. */
  class StatusEditor {
    var modal: bool
    var status: string
    var note: string

    constructor ()
      ensures !modal && status == "" && note == ""
    {
      modal := false;
      status := "";
      note := "";
    }

    /** `openStatusModal` */
    method OpenStatusModal(orderStatus: Option<string>)
      modifies this
      ensures status == OpenedStatus(orderStatus) && note == "" && modal
    {
      status := if Truthy(orderStatus) then orderStatus.value else "pending";
      note := "";
      modal := true;
    }

    /** `handleStatusChange`: one field of the form takes the new value. */
    method HandleStatusChange(field: StatusFormField, value: string)
      modifies this
      ensures field == StatusField ==> status == value && note == old(note)
      ensures field == NoteField ==> note == value && status == old(status)
      ensures modal == old(modal)
    {
      match field
      case StatusField => status := value;
      case NoteField => note := value;
    }

    /** `handleSubmitStatus`. `outcome` is what the update endpoint does
        with the request, when one is sent; on success the page reloads the
        order. */
    method HandleSubmitStatus(orderStatus: Option<string>, outcome: UpdateOutcome)
      returns (request: Option<StatusUpdate>, reload: bool, message: string)
      modifies this
      ensures request.Some? <==> SendsUpdate(old(status), orderStatus)
      ensures request.Some? ==> request.value == StatusUpdate(old(status), old(note))
      ensures request.None? ==> !modal && !reload && message == "Status remains unchanged"
      ensures request.Some? && outcome.Updated? ==> !modal && reload && message == "Order status updated successfully"
      ensures request.Some? && outcome.Refused? ==>
        modal == old(modal) && !reload && message == (if Truthy(outcome.message) then outcome.message.value else "Failed to update order status")
      ensures request.Some? && outcome.Threw? ==>
        modal == old(modal) && !reload && message == "Failed to update order status"
      ensures status == old(status) && note == old(note)
    {
      if Some(status) == orderStatus {
        modal := false;
        return None, false, "Status remains unchanged";
      }
      request := Some(StatusUpdate(status, note));
      match outcome
      case Updated =>
        modal := false;
        reload := true;
        message := "Order status updated successfully";
      case Refused(m) =>
        reload := false;
        message := if Truthy(m) then m.value else "Failed to update order status";
      case Threw =>
        reload := false;
        message := "Failed to update order status";
    }
  }
}
