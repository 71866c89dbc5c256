/** The orders table (components/OrdersDashboard.tsx): paged loading filtered by status, or a
    search by order code, plus the flag comparators of its sortable columns. */
module OrdersPage {
  import opened Common
  import opened Entities
  import Paging

  /** The request `fetchOrders` issues: the filtered list, or the search by code. */
  datatype OrdersQuery =
    | ListQuery(userId: int, skip: int, limit: int, groupId: Option<int>, customerId: Option<int>, status: string)
    | CodeQuery(userId: int, code: string, skip: int, limit: int)

  class OrdersDashboard {
    const userId: int
    const groupId: Option<int>
    const customerId: Option<int>
    var orders: seq<Order>
    var loading: bool
    var currentPage: int
    var searchQuery: string
    var debouncedSearchQuery: string
    var statusFilter: string

    ghost predicate Valid()
      reads this
    {
      currentPage >= 1
    }

    constructor (userId: int, groupId: Option<int>, customerId: Option<int>)
      ensures Valid()
      ensures this.userId == userId && this.groupId == groupId && this.customerId == customerId
      ensures orders == [] && loading && currentPage == 1
      ensures searchQuery == "" && debouncedSearchQuery == "" && statusFilter == ""
    {
      this.userId, this.groupId, this.customerId := userId, groupId, customerId;
      orders, loading, currentPage := [], true, 1;
      searchQuery, debouncedSearchQuery, statusFilter := "", "", "";
    }

    /** The request for the current page: an empty (debounced) search asks for the filtered list,
        any other search asks for that code alone, ignoring group, customer and status. */
    function Request(): (q: OrdersQuery)
      reads this
      requires Valid()
      ensures q.ListQuery? <==> |debouncedSearchQuery| == 0
      ensures q.userId == userId && q.skip == Paging.Offset(currentPage) >= 0 && q.limit == Paging.PageSize
      ensures q.ListQuery? ==> q.groupId == groupId && q.customerId == customerId && q.status == statusFilter
      ensures q.CodeQuery? ==> q.code == debouncedSearchQuery
    {
      if |debouncedSearchQuery| == 0 then
        ListQuery(userId, Paging.Offset(currentPage), Paging.PageSize, groupId, customerId, statusFilter)
      else
        CodeQuery(userId, debouncedSearchQuery, Paging.Offset(currentPage), Paging.PageSize)
    }

    /** The fetch effect, run when the user, page, search or status changes: nothing at all for a
        falsy user id; otherwise one request, whose rows replace the list on page 1 and are
        appended on later pages, and whose failure leaves the list alone. The spinner goes off
        after any request. */
    method FetchOrders(response: Outcome<seq<Order>>) returns (issued: Option<OrdersQuery>)
      requires Valid()
      modifies this`orders, this`loading
      ensures userId == 0 ==> issued == None && orders == old(orders) && loading == old(loading)
      ensures userId != 0 ==> issued == Some(Request()) && !loading
      ensures userId != 0 && response.Resolved? ==> orders == Paging.Merge(currentPage, old(orders), response.value)
      ensures userId != 0 && response.Rejected? ==> orders == old(orders)
    {
      issued := None;
      if userId != 0 {
        issued := Some(Request());
        if response.Resolved? {
          orders := Paging.Merge(currentPage, orders, response.value);
        }
        loading := false;
      }
    }

    /** "Load more": the next page. */
    method LoadNextPage()
      requires Valid()
      modifies this`currentPage
      ensures Valid() && currentPage == old(currentPage) + 1
    {
      currentPage := currentPage + 1;
    }

    /** Typing in the search box; the page is not reset. */
    method SetSearchQuery(text: string)
      modifies this`searchQuery
      ensures searchQuery == text
    {
      searchQuery := text;
    }

    /** The 300 ms debounce elapsed, or Enter was pressed: the typed search takes effect. */
    method ApplySearch()
      modifies this`debouncedSearchQuery
      ensures debouncedSearchQuery == searchQuery
    {
      debouncedSearchQuery := searchQuery;
    }

    /** Choosing a status; the page is not reset. */
    method SetStatusFilter(status: string)
      modifies this`statusFilter
      ensures statusFilter == status
    {
      statusFilter := status;
    }
  }

  /** Because filters never reset the page, a status change made on page 2 appends the new
      status's rows after the rows already shown. */
  method StatusChangeOnLaterPageAppends(first: seq<Order>, second: seq<Order>, third: seq<Order>)
  {
    var d := new OrdersDashboard(7, None, None);
    var q := d.FetchOrders(Resolved(first));
    assert d.orders == first && q == Some(ListQuery(7, 0, 10, None, None, ""));
    d.LoadNextPage();
    q := d.FetchOrders(Resolved(second));
    assert d.orders == first + second && q == Some(ListQuery(7, 10, 10, None, None, ""));
    d.SetStatusFilter("Выдан");
    q := d.FetchOrders(Resolved(third));
    assert d.orders == first + second + third && q == Some(ListQuery(7, 10, 10, None, None, "Выдан"));
  }

  /** The `has_review` column: equal truthiness of `review_id` compares equal, and orders without
      a review come before orders with one. */
  function HasReviewCompare(a: Order, b: Order): (c: int)
    ensures c == 0 <==> TruthyNumber(a.reviewId) == TruthyNumber(b.reviewId)
    ensures c < 0 <==> !TruthyNumber(a.reviewId) && TruthyNumber(b.reviewId)
    ensures c > 0 <==> TruthyNumber(a.reviewId) && !TruthyNumber(b.reviewId)
  {
    if TruthyNumber(a.reviewId) == TruthyNumber(b.reviewId) then 0
    else if TruthyNumber(a.reviewId) then 1 else -1
  }

  /** The `is_sended` column as written: `a.is_sended === b.is_sended ? 0 : a.is_sended ? 1 : -1`,
      which compares the raw optional flags. */
  function IsSendedCompare(a: Order, b: Order): (c: int)
    ensures a.isSended == b.isSended ==> c == 0
    ensures a.isSended.Some? && b.isSended.Some? ==>
              (c == 0 <==> a.isSended == b.isSended) && (c < 0 <==> !a.isSended.value && b.isSended.value)
  {
    if a.isSended == b.isSended then 0 else if TruthyFlag(a.isSended) then 1 else -1
  }

  /** An order with `is_sended` absent and one with `is_sended: false` each compare as smaller
      than the other, so the comparator is not antisymmetric. */
  lemma IsSendedCompareNotAntisymmetric(a: Order, b: Order)
    requires a.isSended == None && b.isSended == Some(false)
    ensures IsSendedCompare(a, b) == -1 && IsSendedCompare(b, a) == -1
  {
  }

  /** The comparator as evidently meant (like `has_review`): absent counts as false. */
  function IsSendedCompareByTruthiness(a: Order, b: Order): (c: int)
    ensures c == 0 <==> TruthyFlag(a.isSended) == TruthyFlag(b.isSended)
    ensures c < 0 <==> !TruthyFlag(a.isSended) && TruthyFlag(b.isSended)
    ensures c > 0 <==> TruthyFlag(a.isSended) && !TruthyFlag(b.isSended)
  {
    if TruthyFlag(a.isSended) == TruthyFlag(b.isSended) then 0
    else if TruthyFlag(a.isSended) then 1 else -1
  }

  /** The corrected comparator is antisymmetric, unlike the one as written. */
  lemma IsSendedCompareByTruthinessAntisymmetric(a: Order, b: Order)
    ensures IsSendedCompareByTruthiness(a, b) == -IsSendedCompareByTruthiness(b, a)
  {
  }
}
