/** The customer's order history: the several response shapes the order
    list may come in, the status each listed order is shown with, and the
    colour of its badge. */
module OrderHistory {
  import opened Common
  import OrderDetails

  /** The nested details some responses carry. */
  datatype NestedDetails = NestedDetails(status: Option<string>)

  /** An order of the list, with every field the page may take its status
      from; `None` is a missing field. */
  datatype HistoryOrder = HistoryOrder(
    id: int,
    status: Option<string>,
    orderStatus: Option<string>,
    state: Option<string>,
    currentStatus: Option<string>,
    orderDetails: Option<NestedDetails>,
    totalAmount: Option<real>,
    createdAt: Option<string>,
    itemCount: Option<nat>)

  /** The first truthy candidate, or `default` when there is none. */
  function FirstTruthy(candidates: seq<Option<string>>, default: string): (r: string)
    ensures (forall i | 0 <= i < |candidates| :: !Truthy(candidates[i])) ==> r == default
    ensures forall i | 0 <= i < |candidates| ::
      Truthy(candidates[i]) && (forall j | 0 <= j < i :: !Truthy(candidates[j])) ==> r == candidates[i].value
    decreases |candidates|
  {
    if |candidates| == 0 then default
    else if Truthy(candidates[0]) then candidates[0].value
    else
      var rest := candidates[1..];
      assert forall i | 1 <= i < |candidates| :: candidates[i] == rest[i - 1];
      FirstTruthy(rest, default)
  }

  /** The places a status may be found, in the order they are tried. */
  function StatusCandidates(order: HistoryOrder): (c: seq<Option<string>>)
    ensures |c| == 5 && c[0] == order.status && c[1] == order.orderStatus && c[2] == order.state
    ensures c[3] == order.currentStatus
    ensures c[4] == (if order.orderDetails.Some? then order.orderDetails.value.status else None)
  {
    [order.status, order.orderStatus, order.state, order.currentStatus,
     if order.orderDetails.Some? then order.orderDetails.value.status else None]
  }

  /** The status the list shows for an order: the first non-empty one of
      its candidate fields, otherwise "pending". */
  function NormalizedStatus(order: HistoryOrder): (r: string)
    ensures r != ""
    ensures Truthy(order.status) ==> r == order.status.value
    ensures !Truthy(order.status) && Truthy(order.orderStatus) ==> r == order.orderStatus.value
    ensures !Truthy(order.status) && !Truthy(order.orderStatus) && Truthy(order.state) ==> r == order.state.value
    ensures (!Truthy(order.status) && !Truthy(order.orderStatus) && !Truthy(order.state)
             && Truthy(order.currentStatus))
            ==> r == order.currentStatus.value
    ensures (!Truthy(order.status) && !Truthy(order.orderStatus) && !Truthy(order.state)
             && !Truthy(order.currentStatus) && order.orderDetails.Some? && Truthy(order.orderDetails.value.status))
            ==> r == order.orderDetails.value.status.value
    ensures (!Truthy(order.status) && !Truthy(order.orderStatus) && !Truthy(order.state)
             && !Truthy(order.currentStatus) && !(order.orderDetails.Some? && Truthy(order.orderDetails.value.status)))
            ==> r == "pending"
  {
    var c := StatusCandidates(order);
    assert forall i | 0 <= i < |c| :: Truthy(c[i]) ==> c[i].value != "";
    FirstTruthy(c, "pending")
  }

  /** The order with its status filled in; every other field is kept. */
  function Normalize(order: HistoryOrder): (r: HistoryOrder)
    ensures r.status == Some(NormalizedStatus(order)) && Truthy(r.status)
    ensures r.(status := order.status) == order
  {
    order.(status := Some(NormalizedStatus(order)))
  }

  /** Normalising a normalised order changes nothing. */
  lemma NormalizeIdempotent(order: HistoryOrder)
    ensures Normalize(Normalize(order)) == Normalize(order)
  {
  }

  /** An order that already has a status keeps it. */
  lemma NormalizeKeepsStatus(order: HistoryOrder)
    requires Truthy(order.status)
    ensures Normalize(order) == order
  {
  }

  /** The `map` over the list. */
  function NormalizeAll(orders: seq<HistoryOrder>): (r: seq<HistoryOrder>)
    ensures |r| == |orders|
    ensures forall i | 0 <= i < |r| :: r[i] == Normalize(orders[i]) && Truthy(r[i].status)
  {
    seq(|orders|, i requires 0 <= i < |orders| => Normalize(orders[i]))
  }

  /** The pagination block of a response; `totalPages` may be missing. */
  datatype Pagination = Pagination(totalPages: Option<int>)

  /** A `data` object of a response. `orders` is `None` when it is missing
      or not an array. */
  datatype DataPart = DataPart(orders: Option<seq<HistoryOrder>>, pagination: Option<Pagination>)

  /** What the order endpoint may answer: nothing, a bare array, or an
      object. In an object, `success` is whether `success === true`, and a
      list field is `None` when missing or not an array. */
  datatype Response =
    | NoResponse
    | BareArray(items: seq<HistoryOrder>)
    | Object(success: bool, orders: Option<seq<HistoryOrder>>, data: Option<DataPart>,
             results: Option<seq<HistoryOrder>>, pagination: Option<Pagination>)

  /** `pagination.totalPages || 1`, when there is a pagination block. */
  function PagesFrom(pagination: Option<Pagination>): (r: Option<int>)
    ensures r.None? <==> pagination.None?
    ensures r.Some? ==> r.value != 0
    ensures r.Some? && pagination.value.totalPages.Some? && pagination.value.totalPages.value != 0
            ==> r.value == pagination.value.totalPages.value
  {
    match pagination
    case None => None
    case Some(p) => Some(if p.totalPages.Some? && p.totalPages.value != 0 then p.totalPages.value else 1)
  }

  /** One of the four shapes the page understands. */
  predicate Recognised(response: Response) {
    || response.BareArray?
    || (response.Object? && response.success && response.orders.Some?)
    || (response.Object? && response.success && response.data.Some? && response.data.value.orders.Some?)
    || (response.Object? && response.results.Some?)
  }

  /** The orders a response yields, the page count it sets (if any) and
      the error it raises (if any). */
  datatype Extracted = Extracted(orders: seq<HistoryOrder>, totalPages: Option<int>, error: Option<string>)

  const NoResponseError := "No response received"
  const InvalidFormatError := "Invalid response format"

  /** The shapes are tried in order and the first that matches supplies
      the orders. */
  function Extract(response: Response): (r: Extracted)
    ensures r.error.Some? <==> !Recognised(response)
    ensures r.error.Some? ==> r.orders == [] && r.totalPages.None?
    ensures response.NoResponse? ==> r.error == Some(NoResponseError)
    ensures response.Object? && !Recognised(response) ==> r.error == Some(InvalidFormatError)
    ensures response.BareArray? ==> r.orders == response.items && r.totalPages == Some(1)
    ensures response.Object? && response.success && response.orders.Some?
            ==> r.orders == response.orders.value && r.totalPages == PagesFrom(response.pagination)
    ensures response.Object? && response.success && response.orders.None?
            && response.data.Some? && response.data.value.orders.Some?
            ==> r.orders == response.data.value.orders.value && r.totalPages == PagesFrom(response.data.value.pagination)
    ensures response.Object? && !(response.success && response.orders.Some?)
            && !(response.success && response.data.Some? && response.data.value.orders.Some?)
            && response.results.Some?
            ==> r.orders == response.results.value && r.totalPages == PagesFrom(response.pagination)
  {
    match response
    case NoResponse => Extracted([], None, Some(NoResponseError))
    case BareArray(items) => Extracted(items, Some(1), None)
    case Object(success, orders, data, results, pagination) =>
      if success && orders.Some? then Extracted(orders.value, PagesFrom(pagination), None)
      else if success && data.Some? && data.value.orders.Some? then
        Extracted(data.value.orders.value, PagesFrom(data.value.pagination), None)
      else if results.Some? then Extracted(results.value, PagesFrom(pagination), None)
      else Extracted([], None, Some(InvalidFormatError))
  }

  /** A successful response with a top-level order array wins over every
      other list it carries. */
  lemma TopLevelOrdersWin(orders: seq<HistoryOrder>, data: Option<DataPart>,
                          results: Option<seq<HistoryOrder>>, pagination: Option<Pagination>)
    ensures Extract(Object(true, Some(orders), data, results, pagination)).orders == orders
  {
  }

  /** What the request did: answered, or threw with a message. */
  datatype FetchResult = Returned(response: Response) | Threw(message: Option<string>)

  /** The message shown when the request threw. */
  function ThrownError(message: Option<string>): (r: string)
    ensures Truthy(message) ==> r == "Error loading orders: " + message.value
    ensures !Truthy(message) ==> r == "Error loading orders: Unknown error"
  {
    "Error loading orders: " + (if Truthy(message) then message.value else "Unknown error")
  }

  /** `getStatusBadgeColor`'s table, keyed by the lower-cased status; both
      spellings of cancelled are accepted. */
  const HistoryColors: map<string, string> :=
    map["pending" := "warning", "confirmed" := "info", "shipped" := "primary",
        "delivered" := "success", "cancelled" := "danger", "canceled" := "danger"]

  /** `getStatusBadgeColor`: by the lower-cased status, "secondary" for a
      missing, empty or unknown one. */
  function StatusBadgeColor(status: Option<string>): (r: string)
    ensures !Truthy(status) ==> r == "secondary"
    ensures Truthy(status) && ToLower(status.value) in HistoryColors ==> r == HistoryColors[ToLower(status.value)]
    ensures Truthy(status) && ToLower(status.value) !in HistoryColors ==> r == "secondary"
  {
    if !Truthy(status) then "secondary"
    else
      match ToLower(status.value)
      case "pending" => "warning"
      case "confirmed" => "info"
      case "shipped" => "primary"
      case "delivered" => "success"
      case "cancelled" => "danger"
      case "canceled" => "danger"
      case _ => "secondary"
  }

  /** The colour does not depend on letter case. */
  lemma StatusBadgeColorIgnoresCase(s: string, t: string)
    requires ToLower(s) == ToLower(t)
    ensures StatusBadgeColor(Some(s)) == StatusBadgeColor(Some(t))
  {
    assert |s| == |ToLower(s)| == |t|;
  }

  /** Apart from the alternative spelling "canceled", the history page
      colours a status as the order page colours its lower-cased form. */
  lemma StatusBadgeColorAgreesWithOrderPage(s: string)
    requires s != "" && ToLower(s) != "canceled"
    ensures StatusBadgeColor(Some(s)) == OrderDetails.StatusBadgeColor(Some(ToLower(s)))
  {
    var k := ToLower(s);
    assert k in HistoryColors <==> k in OrderDetails.StatusColors;
  }

  /** The page's state. */
  class OrderHistoryView {
    var orders: seq<HistoryOrder>
    var loading: bool
    var error: Option<string>
    var currentPage: int
    var totalPages: int

    constructor ()
      ensures orders == [] && loading && error.None? && currentPage == 1 && totalPages == 1
    {
      orders := [];
      loading := true;
      error := None;
      currentPage := 1;
      totalPages := 1;
    }

    /** `fetchOrders`: the orders of the first shape the response matches,
        each with its status filled in; the page count only changes when
        the response carries one. */
    method FetchOrders(result: FetchResult)
      modifies this
      ensures !loading && currentPage == old(currentPage)
      ensures result.Threw? ==>
        orders == [] && error == Some(ThrownError(result.message)) && totalPages == old(totalPages)
      ensures result.Returned? ==>
        var x := Extract(result.response);
        && orders == NormalizeAll(x.orders)
        && error == x.error
        && totalPages == x.totalPages.GetOr(old(totalPages))
      ensures forall i | 0 <= i < |orders| :: Truthy(orders[i].status)
    {
      loading := true;
      error := None;
      match result {
        case Threw(message) =>
          error := Some(ThrownError(message));
          orders := [];
        case Returned(response) =>
          var processed: seq<HistoryOrder> := [];
          match response {
            case NoResponse =>
              error := Some(NoResponseError);
              processed := [];
            case BareArray(items) =>
              processed := items;
              totalPages := 1;
            case Object(success, list, data, results, pagination) =>
              if success && list.Some? {
                processed := list.value;
                if pagination.Some? { totalPages := PagesFrom(pagination).value; }
              } else if success && data.Some? && data.value.orders.Some? {
                processed := data.value.orders.value;
                if data.value.pagination.Some? { totalPages := PagesFrom(data.value.pagination).value; }
              } else if results.Some? {
                processed := results.value;
                if pagination.Some? { totalPages := PagesFrom(pagination).value; }
              } else {
                error := Some(InvalidFormatError);
                processed := [];
              }
          }
          orders := NormalizeAll(processed);
      }
      loading := false;
    }
  }
}
