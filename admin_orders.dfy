/** The admin order list: its filters, the request parameters built from
    them, the custom date range and the page controls. */
module AdminOrders {
  import opened Common

  /** An order row of the admin list. */
  datatype AdminOrderRow = AdminOrderRow(id: int, status: Option<string>, totalAmount: Option<real>)

  /** The query the list is requested with; `None` is a parameter sent as
      `undefined`, that is, left out. */
  datatype RequestParams = RequestParams(
    page: int,
    limit: int,
    timeFilter: Option<string>,
    status: Option<string>,
    startDate: Option<string>,
    endDate: Option<string>)

  const PageLimit := 20

  /** `value || undefined` for a text field. */
  function Defined(value: string): (r: Option<string>)
    ensures r.None? <==> value == ""
    ensures r.Some? ==> r.value == value
  {
    if value == "" then None else Some(value)
  }

  /** The two ends of the custom range. */
  datatype DateField = StartDate | EndDate

  /** What the list request did. */
  datatype OrdersResponse =
    | Succeeded(orders: Option<seq<AdminOrderRow>>, totalPages: Option<int>)
    | Failed(message: Option<string>)
    | Threw

  const LoadFailed := "Failed to load orders"
  const BothDatesNeeded := "Please select both start and end dates"

  /** The page's state. */
  class AdminOrdersView {
    var orders: seq<AdminOrderRow>
    var currentPage: int
    var totalPages: int
    var timeFilter: string
    var statusFilter: string
    var startDate: string
    var endDate: string

    /** The page shown is never before the first. */
    predicate Valid()
      reads this
    {
      currentPage >= 1
    }

    constructor ()
      ensures Valid()
      ensures orders == [] && currentPage == 1 && totalPages == 1
      ensures timeFilter == "" && statusFilter == "" && startDate == "" && endDate == ""
    {
      orders := [];
      currentPage, totalPages := 1, 1;
      timeFilter, statusFilter := "", "";
      startDate, endDate := "", "";
    }

    /** The request parameters of `fetchOrders`: always the page and a limit
        of 20, the filters only when set, and the custom range only when
        the time filter is "custom" and both ends are chosen. */
    method BuildParams() returns (params: RequestParams)
      ensures params.page == currentPage && params.limit == PageLimit
      ensures params.timeFilter == Defined(timeFilter) && params.status == Defined(statusFilter)
      ensures params.startDate.Some? <==> timeFilter == "custom" && startDate != "" && endDate != ""
      ensures params.endDate.Some? <==> params.startDate.Some?
      ensures params.startDate.Some? ==> params.startDate.value == startDate && params.endDate.value == endDate
    {
      params := RequestParams(currentPage, PageLimit, Defined(timeFilter), Defined(statusFilter), None, None);
      if timeFilter == "custom" && startDate != "" && endDate != "" {
        params := params.(startDate := Some(startDate), endDate := Some(endDate));
      }
    }

    /** `handleTimeFilterChange`: a new time filter starts again at page 1. */
    method HandleTimeFilterChange(value: string)
      modifies this
      ensures timeFilter == value && currentPage == 1 && Valid()
      ensures statusFilter == old(statusFilter) && startDate == old(startDate) && endDate == old(endDate)
      ensures orders == old(orders) && totalPages == old(totalPages)
    {
      timeFilter := value;
      currentPage := 1;
    }

    /** `handleStatusFilterChange`: a new status filter starts again at
        page 1. */
    method HandleStatusFilterChange(value: string)
      modifies this
      ensures statusFilter == value && currentPage == 1 && Valid()
      ensures timeFilter == old(timeFilter) && startDate == old(startDate) && endDate == old(endDate)
      ensures orders == old(orders) && totalPages == old(totalPages)
    {
      statusFilter := value;
      currentPage := 1;
    }

    /** `handleCustomDateChange`: one end of the range takes the value. */
    method HandleCustomDateChange(field: DateField, value: string)
      modifies this
      ensures field == StartDate ==> startDate == value && endDate == old(endDate)
      ensures field == EndDate ==> endDate == value && startDate == old(startDate)
      ensures timeFilter == old(timeFilter) && statusFilter == old(statusFilter)
      ensures currentPage == old(currentPage) && orders == old(orders) && totalPages == old(totalPages)
    {
      match field
      case StartDate => startDate := value;
      case EndDate => endDate := value;
    }

    /** `handleApplyCustomDate`: the list is requested again only when both
        ends are chosen; otherwise the user is warned. */
    method HandleApplyCustomDate() returns (request: Option<RequestParams>, warning: Option<string>)
      ensures request.Some? <==> startDate != "" && endDate != ""
      ensures request.None? ==> warning == Some(BothDatesNeeded)
      ensures request.Some? ==> warning.None? && request.value.page == currentPage
      ensures request.Some? && timeFilter == "custom"
              ==> request.value.startDate == Some(startDate) && request.value.endDate == Some(endDate)
    {
      if startDate != "" && endDate != "" {
        var params := BuildParams();
        return Some(params), None;
      }
      return None, Some(BothDatesNeeded);
    }

    /** `handlePageChange`: a page outside 1..totalPages is ignored. */
    method HandlePageChange(page: int)
      requires Valid()
      modifies this
      ensures 1 <= page <= old(totalPages) ==> currentPage == page
      ensures !(1 <= page <= old(totalPages)) ==> currentPage == old(currentPage)
      ensures Valid()
      ensures orders == old(orders) && totalPages == old(totalPages)
      ensures timeFilter == old(timeFilter) && statusFilter == old(statusFilter)
      ensures startDate == old(startDate) && endDate == old(endDate)
    {
      if page < 1 || page > totalPages {
        return;
      }
      currentPage := page;
    }

    /** The answer to `fetchOrders`' request: a success with a list replaces
        the list and the page count (`|| 1`); a success without a list throws
        when its first element is logged, before the `|| []` fallback, and so
        ends like any thrown request; a failure only shows an error message. */
    method ReceiveOrders(response: OrdersResponse) returns (error: Option<string>)
      modifies this
      ensures response.Succeeded? && response.orders.Some? ==>
        && error.None?
        && orders == response.orders.value
        && totalPages == (if response.totalPages.Some? && response.totalPages.value != 0 then response.totalPages.value else 1)
      ensures response.Failed? ==>
        && error == Some(if Truthy(response.message) then response.message.value else LoadFailed)
        && orders == old(orders) && totalPages == old(totalPages)
      ensures (response.Threw? || (response.Succeeded? && response.orders.None?)) ==>
        error == Some(LoadFailed) && orders == old(orders) && totalPages == old(totalPages)
      ensures currentPage == old(currentPage)
      ensures timeFilter == old(timeFilter) && statusFilter == old(statusFilter)
      ensures startDate == old(startDate) && endDate == old(endDate)
    {
      match response
      case Succeeded(list, pages) =>
        if list.None? {
          error := Some(LoadFailed);
          return;
        }
        orders := list.value;
        totalPages := if pages.Some? && pages.value != 0 then pages.value else 1;
        error := None;
      case Failed(message) =>
        error := Some(if Truthy(message) then message.value else LoadFailed);
      case Threw =>
        error := Some(LoadFailed);
    }
  }
}
