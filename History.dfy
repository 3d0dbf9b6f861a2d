/** pages/dashboard/history.js: the order history page. A status drop-down
    and two date inputs form the filters; Apply reloads the history with
    them and Reset clears them and reloads. The history comes from
    getOrderHistory over the order store. */
module History {
  import opened Common
  import StatusBadge
  import ApiClient

  /** The choices of the status drop-down. */
  const StatusOptions: seq<string> := ["ALL", "PENDING", "CONFIRMED", "PREPARING", "OUT_FOR_DELIVERY", "COMPLETED", "CANCELLED"]

  /** The filters as typed: a status choice and two date texts ("" when
      empty). */
  datatype Filters = Filters(status: string, from: string, to: string)

  const InitialFilters := Filters("ALL", "", "")

  /** The label of a status choice: lower case, underscores to spaces, each
      word's first character in upper case. */
  function OptionLabel(s: string): string {
    if s == "ALL" then "All statuses" else StatusBadge.Capitalize(StatusBadge.ReplaceUnderscores(Lower(s)))
  }

  /** Every status choice reads as the badge of the orders it selects
      (lower-casing before or after replacing underscores is the same), so
      its label is as long as the status and holds no underscore. */
  lemma OptionLabelIsBadgeLabel(s: string)
    requires s != "ALL"
    ensures OptionLabel(s) == StatusBadge.Label(s)
    ensures |OptionLabel(s)| == |s| && forall i :: 0 <= i < |s| ==> OptionLabel(s)[i] != '_'
  {
    var a := StatusBadge.ReplaceUnderscores(Lower(s));
    var b := Lower(StatusBadge.ReplaceUnderscores(s));
    assert a == b;
    StatusBadge.LabelShape(s);
  }

  /** The filters handed to getOrderHistory; `dateOf` stands for
      `new Date(text)` on the value of a date input. */
  function FilterOf(f: Filters, dateOf: string -> int): (h: ApiClient.HistoryFilter)
    ensures h.status == Some(f.status)
    ensures h.from.Some? <==> f.from != ""
    ensures h.to.Some? <==> f.to != ""
  {
    ApiClient.HistoryFilter(Some(f.status),
                            if f.from != "" then Some(dateOf(f.from)) else None,
                            if f.to != "" then Some(dateOf(f.to)) else None)
  }

  /** With the filters reset, the history lists every order of the store,
      newest first. */
  lemma ResetShowsAll(orders: seq<ApiClient.Order>, dateOf: string -> int)
    ensures forall o :: o in ApiClient.OrderHistory(orders, FilterOf(InitialFilters, dateOf)) <==> o in orders
  {
    ApiClient.OrderHistorySpec(orders, FilterOf(InitialFilters, dateOf));
  }

  /** With no dates, each status choice other than "ALL" lists exactly the
      orders in that status. */
  lemma StatusChoiceSelects(orders: seq<ApiClient.Order>, status: string, dateOf: string -> int)
    requires status in StatusOptions && status != "ALL"
    ensures forall o ::
      o in ApiClient.OrderHistory(orders, FilterOf(Filters(status, "", ""), dateOf)) <==> o in orders && o.status == status
  {
    ApiClient.OrderHistorySpec(orders, FilterOf(Filters(status, "", ""), dateOf));
  }

  /** The state of the history page. */
  class HistoryPage {
    var filters: Filters
    var orders: seq<ApiClient.Order>

    /** The page as first shown: the initial filters and the history loaded
        with them. */
    constructor (store: ApiClient.OrderStore, dateOf: string -> int)
      ensures filters == InitialFilters
      ensures orders == ApiClient.OrderHistory(store.orders, FilterOf(InitialFilters, dateOf))
    {
      filters := InitialFilters;
      orders := ApiClient.OrderHistory(store.orders, FilterOf(InitialFilters, dateOf));
    }

    /** loadHistory(newFilters). */
    method LoadHistory(store: ApiClient.OrderStore, newFilters: Filters, dateOf: string -> int)
      modifies this
      ensures orders == ApiClient.OrderHistory(store.orders, FilterOf(newFilters, dateOf))
      ensures filters == old(filters)
    {
      orders := ApiClient.OrderHistory(store.orders, FilterOf(newFilters, dateOf));
    }

    /** handleApplyFilters: reload with the filters as they stand. */
    method ApplyFilters(store: ApiClient.OrderStore, dateOf: string -> int)
      modifies this
      ensures orders == ApiClient.OrderHistory(store.orders, FilterOf(filters, dateOf))
      ensures filters == old(filters)
    {
      LoadHistory(store, filters, dateOf);
    }

    /** handleResetFilters: back to the initial filters, and reload. */
    method ResetFilters(store: ApiClient.OrderStore, dateOf: string -> int)
      modifies this
      ensures filters == InitialFilters
      ensures orders == ApiClient.OrderHistory(store.orders, FilterOf(InitialFilters, dateOf))
    {
      filters := InitialFilters;
      LoadHistory(store, InitialFilters, dateOf);
    }

    /** The onChange handlers of the three inputs; the list waits for Apply. */
    method SetStatus(status: string)
      modifies this
      ensures filters == old(filters).(status := status) && orders == old(orders)
    {
      filters := filters.(status := status);
    }

    method SetFrom(from: string)
      modifies this
      ensures filters == old(filters).(from := from) && orders == old(orders)
    {
      filters := filters.(from := from);
    }

    method SetTo(to: string)
      modifies this
      ensures filters == old(filters).(to := to) && orders == old(orders)
    {
      filters := filters.(to := to);
    }
  }
}
