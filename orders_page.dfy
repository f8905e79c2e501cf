/** The orders page (src/modules/orders/OrdersPage.tsx): search and status
    filter over the order list, the first fifteen matches as rows, the
    actions a row offers and the details drawer. */
module OrdersPage {
  import opened Wrappers
  import opened Types
  import opened Seqs
  import opened Text

  /** Order id, customer name and partner name are compared lower-cased. */
  predicate MatchesSearch(o: Order, query: string)
  {
    Includes(ToLower(o.id), ToLower(query))
    || Includes(ToLower(o.userName), ToLower(query))
    || Includes(ToLower(o.partnerName), ToLower(query))
  }

  predicate MatchesStatus(o: Order, statusFilter: string)
  {
    statusFilter == "all" || OrderStatusName(o.status) == statusFilter
  }

  /** The filter callback. */
  function OrderMatches(query: string, statusFilter: string): Order -> bool
  {
    o => MatchesSearch(o, query) && MatchesStatus(o, statusFilter)
  }

  /** filteredOrders */
  function FilterOrders(orders: seq<Order>, query: string, statusFilter: string): (r: seq<Order>)
    ensures forall o :: o in r <==> o in orders && MatchesSearch(o, query) && MatchesStatus(o, statusFilter)
    ensures |r| <= |orders|
  {
    Filter(orders, OrderMatches(query, statusFilter))
  }

  /** The matches keep the order of the order list. */
  lemma FilterOrdersIsSubsequence(orders: seq<Order>, query: string, statusFilter: string)
    ensures IsSubsequence(FilterOrders(orders, query, statusFilter), orders)
  {
    FilterIsSubsequence(orders, OrderMatches(query, statusFilter));
  }

  /** An empty search under "All Status" lists every order. */
  lemma EmptySearchListsEveryOrder(orders: seq<Order>)
    ensures FilterOrders(orders, "", "all") == orders
  {
    forall i | 0 <= i < |orders|
      ensures OrderMatches("", "all")(orders[i])
    {
      IncludesEmpty(ToLower(orders[i].id));
    }
    FilterKeepsAll(orders, OrderMatches("", "all"));
  }

  /** A status filter keeps exactly the orders with that status. */
  lemma OrderStatusFilterIsExact(orders: seq<Order>, query: string, status: OrderStatus, o: Order)
    ensures o in FilterOrders(orders, query, OrderStatusName(status)) <==>
      o in orders && MatchesSearch(o, query) && o.status == status
  {
    StatusNamesDistinct();
  }

  /** The values the status drop-down offers; there is no "refunded". */
  const StatusFilterOptions: seq<string> :=
    ["all", "pending", "confirmed", "preparing", "ready", "picked_up", "delivered", "cancelled"]

  /** A refunded order is listed under "All Status" only: every other
      option of the drop-down hides it. */
  lemma RefundedOnlyUnderAll(o: Order, query: string, k: nat)
    requires o.status == OrderStatus.Refunded && 1 <= k < |StatusFilterOptions|
    ensures !MatchesStatus(o, StatusFilterOptions[k])
    ensures MatchesStatus(o, StatusFilterOptions[0])
  {
    var names := [OrderStatus.Pending, Confirmed, Preparing, Ready, PickedUp, Delivered, Cancelled];
    assert StatusFilterOptions[k] == OrderStatusName(names[k - 1]);
    StatusNamesDistinct();
  }

  /** The rendered rows: the first fifteen matches. */
  function RenderedOrders(orders: seq<Order>, query: string, statusFilter: string): (r: seq<Order>)
    ensures |r| <= 15 && |r| <= |FilterOrders(orders, query, statusFilter)|
    ensures r == FilterOrders(orders, query, statusFilter)[..|r|]
    ensures |FilterOrders(orders, query, statusFilter)| <= 15 ==> r == FilterOrders(orders, query, statusFilter)
    ensures |FilterOrders(orders, query, statusFilter)| >= 15 ==> |r| == 15
  {
    Take(FilterOrders(orders, query, statusFilter), 15)
  }

  /** "Update Status" and "Cancel Order" are offered unless the order is
      delivered or cancelled; a refunded order still offers them. */
  function OffersStatusActions(status: OrderStatus): (offered: bool)
    ensures offered <==> status in {OrderStatus.Pending, Confirmed, Preparing, Ready, PickedUp, OrderStatus.Refunded}
  {
    status != Delivered && status != Cancelled
  }

  class OrdersPage {
    const orders: seq<Order>
    var searchQuery: string
    var statusFilter: string
    var selectedOrder: Option<Order>

    function FilteredOrders(): seq<Order>
      reads this
    {
      FilterOrders(orders, searchQuery, statusFilter)
    }

    /** The details drawer is open while an order is selected. */
    predicate DrawerOpen()
      reads this
    {
      selectedOrder.Some?
    }

    constructor (mockOrders: seq<Order>)
      ensures orders == mockOrders
      ensures searchQuery == "" && statusFilter == "all" && selectedOrder.None?
      ensures FilteredOrders() == mockOrders
    {
      orders := mockOrders;
      searchQuery, statusFilter, selectedOrder := "", "all", None;
      new;
      EmptySearchListsEveryOrder(mockOrders);
    }

    method SetSearchQuery(query: string)
      modifies this
      ensures searchQuery == query
      ensures statusFilter == old(statusFilter) && selectedOrder == old(selectedOrder)
    {
      searchQuery := query;
    }

    method SetStatusFilter(filter: string)
      modifies this
      ensures statusFilter == filter
      ensures searchQuery == old(searchQuery) && selectedOrder == old(selectedOrder)
    {
      statusFilter := filter;
    }

    /** "View Details" opens the drawer on the order. */
    method ViewDetails(o: Order)
      modifies this
      ensures selectedOrder == Some(o) && DrawerOpen()
      ensures searchQuery == old(searchQuery) && statusFilter == old(statusFilter)
    {
      selectedOrder := Some(o);
    }

    /** Closing the drawer clears the selection. */
    method CloseDetails()
      modifies this
      ensures selectedOrder.None? && !DrawerOpen()
      ensures searchQuery == old(searchQuery) && statusFilter == old(statusFilter)
    {
      selectedOrder := None;
    }
  }
}
