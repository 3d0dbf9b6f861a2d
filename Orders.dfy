/** pages/dashboard/orders.js: the orders page. The store's orders are
    enriched with a source, a type and a payment method chosen by position,
    then narrowed by a search box and four drop-down filters and sorted by
    creation time. Cancelling an order merges the updated order back into
    the list. */
module Orders {
  import opened Common
  import opened Lists
  import Sorting
  import ApiClient

  const PaymentMethods: seq<string> := ["All Payment Methods", "Card", "Cash", "Foodpanda"]
  const OrderSources: seq<string> := ["All Sources", "POS", "App", "Foodpanda"]
  const OrderTypes: seq<string> := ["All Order Types", "Dine-in", "Delivery", "Takeaway"]
  const OrderStatuses: seq<string> := ["All Orders", "PENDING", "CONFIRMED", "COMPLETED", "CANCELLED"]

  /** An order of the store with the fields the page adds to it. */
  datatype Row = Row(order: ApiClient.Order, source: string, orderType: string, paymentMethod: string, paymentStatus: string)

  /** The enrichment of the order at position idx. */
  function EnrichAt(o: ApiClient.Order, idx: nat): Row {
    Row(o,
        if idx % 3 == 0 then "Foodpanda" else if idx % 2 == 0 then "App" else "POS",
        if idx % 3 == 0 then "delivery" else if idx % 2 == 0 then "takeaway" else "dine-in",
        if idx % 2 == 0 then "Card" else "Cash",
        "PAID")
  }

  /** `base.map((o, idx) => ({ ...o, ... }))`. */
  function Enrich(base: seq<ApiClient.Order>): (rows: seq<Row>)
    ensures |rows| == |base|
    ensures forall i :: 0 <= i < |base| ==> rows[i] == EnrichAt(base[i], i)
  {
    seq(|base|, i requires 0 <= i < |base| => EnrichAt(base[i], i))
  }

  /** Enrichment keeps each order and tags it by position: every third one
      from the first is a Foodpanda delivery, the others alternate between
      app takeaway (even positions) and POS dine-in (odd ones); even
      positions pay by card, odd ones in cash, and every order is paid. */
  lemma EnrichSpec(base: seq<ApiClient.Order>)
    ensures forall i :: 0 <= i < |base| ==>
      var r := Enrich(base)[i];
      r.order == base[i] && r.paymentStatus == "PAID"
      && (r.source == "Foodpanda" <==> i % 3 == 0)
      && (r.orderType == "delivery" <==> r.source == "Foodpanda")
      && (r.orderType == "takeaway" <==> r.source == "App")
      && (r.orderType == "dine-in" <==> r.source == "POS")
      && (r.source == "App" <==> i % 3 != 0 && i % 2 == 0)
      && (r.paymentMethod == "Card" <==> i % 2 == 0)
      && (r.paymentMethod == "Card" || r.paymentMethod == "Cash")
  {
  }

  /** The page's filter controls. */
  datatype Filters = Filters(search: string, status: string, payment: string, source: string,
                             orderType: string, sortOrder: string)

  const InitialFilters := Filters("", "All Orders", "All Payment Methods", "All Sources", "All Order Types", "Newest First")

  /** The search term: trimmed and in lower case. */
  function Term(search: string): string {
    Lower(Trim(search))
  }

  predicate MatchesSearch(f: Filters, r: Row) {
    var term := Term(f.search);
    term == "" || Includes(Lower(r.order.id), term) || Includes(Lower(r.order.customerName), term)
  }
  predicate MatchesStatus(f: Filters, r: Row) { f.status == "All Orders" || r.order.status == f.status }
  predicate MatchesPayment(f: Filters, r: Row) { f.payment == "All Payment Methods" || r.paymentMethod == f.payment }
  predicate MatchesSource(f: Filters, r: Row) { f.source == "All Sources" || r.source == f.source }
  predicate MatchesType(f: Filters, r: Row) { f.orderType == "All Order Types" || r.orderType == f.orderType }

  /** A row passes every filter. */
  predicate Passes(f: Filters, r: Row) {
    MatchesSearch(f, r) && MatchesStatus(f, r) && MatchesPayment(f, r) && MatchesSource(f, r) && MatchesType(f, r)
  }

  /** The five filters of `filtered`, in the order the page applies them. */
  function FilterRows(rows: seq<Row>, f: Filters): seq<Row> {
    var bySearch := Filter(rows, (r: Row) => MatchesSearch(f, r));
    var byStatus := Filter(bySearch, (r: Row) => MatchesStatus(f, r));
    var byPayment := Filter(byStatus, (r: Row) => MatchesPayment(f, r));
    var bySource := Filter(byPayment, (r: Row) => MatchesSource(f, r));
    Filter(bySource, (r: Row) => MatchesType(f, r))
  }

  /** `filtered`: the filtered rows sorted by creation time, newest first
      for "Newest First" and oldest first for anything else. */
  function Visible(rows: seq<Row>, f: Filters): seq<Row> {
    Sorting.Sort(FilterRows(rows, f), (r: Row) => r.order.createdAt, f.sortOrder == "Newest First")
  }

  /** One filtering step in terms of its members. */
  lemma Step(s: seq<Row>, keep: Row -> bool)
    ensures multiset(Filter(s, keep)) <= multiset(s)
    ensures forall r :: r in Filter(s, keep) <==> r in s && keep(r)
  {
    FilterMembers(s, keep);
  }

  lemma FilterRowsSpec(rows: seq<Row>, f: Filters)
    ensures multiset(FilterRows(rows, f)) <= multiset(rows)
    ensures forall r :: r in FilterRows(rows, f) <==> r in rows && Passes(f, r)
  {
    var bySearch := Filter(rows, (r: Row) => MatchesSearch(f, r));
    Step(rows, (r: Row) => MatchesSearch(f, r));
    var byStatus := Filter(bySearch, (r: Row) => MatchesStatus(f, r));
    Step(bySearch, (r: Row) => MatchesStatus(f, r));
    var byPayment := Filter(byStatus, (r: Row) => MatchesPayment(f, r));
    Step(byStatus, (r: Row) => MatchesPayment(f, r));
    var bySource := Filter(byPayment, (r: Row) => MatchesSource(f, r));
    Step(byPayment, (r: Row) => MatchesSource(f, r));
    Step(bySource, (r: Row) => MatchesType(f, r));
  }

  /** The visible rows are exactly the rows that pass every filter, each at
      most as often as in the list, in the chosen order. */
  lemma VisibleSpec(rows: seq<Row>, f: Filters)
    ensures multiset(Visible(rows, f)) <= multiset(rows)
    ensures forall r :: r in Visible(rows, f) <==> r in rows && Passes(f, r)
    ensures Sorting.Sorted(Visible(rows, f), (r: Row) => r.order.createdAt, f.sortOrder == "Newest First")
  {
    FilterRowsSpec(rows, f);
    forall r ensures r in Visible(rows, f) <==> r in FilterRows(rows, f) {
      Sorting.SortSameElements(FilterRows(rows, f), (r: Row) => r.order.createdAt, f.sortOrder == "Newest First", r);
    }
  }

  /** With every filter on its "All …" choice and an empty (or blank)
      search, every row is shown: the list is only reordered. */
  lemma NoFilterShowsAll(rows: seq<Row>, f: Filters)
    requires Blank(f.search)
    requires f.status == "All Orders" && f.payment == "All Payment Methods"
    requires f.source == "All Sources" && f.orderType == "All Order Types"
    ensures multiset(Visible(rows, f)) == multiset(rows)
  {
    assert Term(f.search) == "";
    forall i | 0 <= i < |rows| ensures MatchesSearch(f, rows[i]) { }
    FilterKeepsAll(rows, (r: Row) => MatchesSearch(f, r));
    FilterKeepsAll(rows, (r: Row) => MatchesStatus(f, r));
    FilterKeepsAll(rows, (r: Row) => MatchesPayment(f, r));
    FilterKeepsAll(rows, (r: Row) => MatchesSource(f, r));
    FilterKeepsAll(rows, (r: Row) => MatchesType(f, r));
  }

  /** The values enrichment can give a row's type and payment method. */
  lemma EnrichedValues(o: ApiClient.Order, idx: nat)
    ensures EnrichAt(o, idx).orderType in ["delivery", "takeaway", "dine-in"]
    ensures EnrichAt(o, idx).paymentMethod in ["Card", "Cash"]
  {
  }

  /** The type options are capitalised ("Dine-in", "Delivery",
      "Takeaway") while enrichment writes lower-case types, and no order
      pays through Foodpanda: choosing any type other than "All Order Types",
      or the "Foodpanda" payment method, empties the list. */
  lemma UnreachableChoicesShowNothing(base: seq<ApiClient.Order>, f: Filters)
    requires (f.orderType in OrderTypes && f.orderType != "All Order Types") || f.payment == "Foodpanda"
    ensures Visible(Enrich(base), f) == []
  {
    var rows := Enrich(base);
    NoRowMatches(base, f);
    assert FilterRows(rows, f) == [] by {
      if f.payment == "Foodpanda" {
        PaymentEmpties(rows, f);
      } else {
        TypeEmpties(rows, f);
      }
    }
  }

  /** No enriched row has a capitalised type or pays through Foodpanda. */
  lemma NoRowMatches(base: seq<ApiClient.Order>, f: Filters)
    requires (f.orderType in OrderTypes && f.orderType != "All Order Types") || f.payment == "Foodpanda"
    ensures f.payment == "Foodpanda" ==> forall r :: r in Enrich(base) ==> !MatchesPayment(f, r)
    ensures f.payment != "Foodpanda" ==> forall r :: r in Enrich(base) ==> !MatchesType(f, r)
  {
    var rows := Enrich(base);
    forall r | r in rows ensures f.payment == "Foodpanda" ==> !MatchesPayment(f, r)
      ensures f.payment != "Foodpanda" ==> !MatchesType(f, r)
    {
      var i :| 0 <= i < |rows| && rows[i] == r;
      EnrichedValues(base[i], i);
    }
  }

  lemma PaymentEmpties(rows: seq<Row>, f: Filters)
    requires forall r :: r in rows ==> !MatchesPayment(f, r)
    ensures FilterRows(rows, f) == []
  {
    var bySearch := Filter(rows, (r: Row) => MatchesSearch(f, r));
    Step(rows, (r: Row) => MatchesSearch(f, r));
    var byStatus := Filter(bySearch, (r: Row) => MatchesStatus(f, r));
    Step(bySearch, (r: Row) => MatchesStatus(f, r));
    forall i | 0 <= i < |byStatus| ensures !MatchesPayment(f, byStatus[i]) {
      assert byStatus[i] in byStatus;
    }
    FilterKeepsNone(byStatus, (r: Row) => MatchesPayment(f, r));
  }

  lemma TypeEmpties(rows: seq<Row>, f: Filters)
    requires forall r :: r in rows ==> !MatchesType(f, r)
    ensures FilterRows(rows, f) == []
  {
    var bySearch := Filter(rows, (r: Row) => MatchesSearch(f, r));
    Step(rows, (r: Row) => MatchesSearch(f, r));
    var byStatus := Filter(bySearch, (r: Row) => MatchesStatus(f, r));
    Step(bySearch, (r: Row) => MatchesStatus(f, r));
    var byPayment := Filter(byStatus, (r: Row) => MatchesPayment(f, r));
    Step(byStatus, (r: Row) => MatchesPayment(f, r));
    var bySource := Filter(byPayment, (r: Row) => MatchesSource(f, r));
    Step(byPayment, (r: Row) => MatchesSource(f, r));
    forall i | 0 <= i < |bySource| ensures !MatchesType(f, bySource[i]) {
      assert bySource[i] in bySource;
    }
    FilterKeepsNone(bySource, (r: Row) => MatchesType(f, r));
  }

  /** `prev.map(o => o.id === orderId ? { ...o, ...updated } : o)`: the
      updated order's fields replace the row's; an undefined result spreads
      nothing. */
  function MergeUpdate(rows: seq<Row>, orderId: string, updated: Option<ApiClient.Order>): seq<Row> {
    MapWhere(rows, (r: Row) => r.order.id == orderId,
             (r: Row) => if updated.Some? then r.(order := updated.value) else r)
  }

  /** Merging touches only the rows of that order, and of them only the
      store's fields: source, type and payment stay as enriched. */
  lemma MergeUpdateSpec(rows: seq<Row>, orderId: string, updated: Option<ApiClient.Order>)
    ensures |MergeUpdate(rows, orderId, updated)| == |rows|
    ensures forall i :: 0 <= i < |rows| ==>
      var r := MergeUpdate(rows, orderId, updated)[i];
      r.source == rows[i].source && r.orderType == rows[i].orderType
      && r.paymentMethod == rows[i].paymentMethod && r.paymentStatus == rows[i].paymentStatus
      && (rows[i].order.id != orderId || updated.None? ==> r == rows[i])
      && (rows[i].order.id == orderId && updated.Some? ==> r.order == updated.value)
  {
    MapWhereAt(rows, (r: Row) => r.order.id == orderId,
               (r: Row) => if updated.Some? then r.(order := updated.value) else r);
  }

  /** The state of the orders page. */
  class OrdersPage {
    var rows: seq<Row>
    var updatingId: Option<string>
    var filters: Filters

    constructor ()
      ensures rows == [] && updatingId == None && filters == InitialFilters
    {
      rows := [];
      updatingId := None;
      filters := InitialFilters;
    }

    /** The load effect: the store's orders, enriched. */
    method Load(store: ApiClient.OrderStore)
      modifies this
      ensures rows == Enrich(store.orders)
      ensures updatingId == old(updatingId) && filters == old(filters)
    {
      var base := store.GetOrders();
      rows := Enrich(base);
    }

    /** The rows the table shows. */
    method Filtered() returns (r: seq<Row>)
      ensures r == Visible(rows, filters)
    {
      r := Visible(rows, filters);
    }

    /** handleUpdateStatus(orderId, newStatus): update the store, merge the
        result into the rows, and clear the busy marker. */
    method HandleUpdateStatus(store: ApiClient.OrderStore, orderId: string, newStatus: string)
      modifies this, store
      ensures store.orders == ApiClient.WithStatus(old(store.orders), orderId, newStatus)
      ensures rows == MergeUpdate(old(rows), orderId, ApiClient.FindOrder(store.orders, orderId))
      ensures updatingId == None && filters == old(filters)
    {
      updatingId := Some(orderId);
      var updated := store.UpdateOrderStatus(orderId, newStatus);
      rows := MergeUpdate(rows, orderId, updated);
      updatingId := None;
    }
  }

  /** Cancelling from the table: when the store holds the order, every row
      of that order shows the new status afterwards, and no other row
      changes. */
  lemma CancelShowsNewStatus(rows: seq<Row>, storeOrders: seq<ApiClient.Order>, orderId: string, newStatus: string)
    requires exists k :: 0 <= k < |storeOrders| && storeOrders[k].id == orderId
    ensures var merged := MergeUpdate(rows, orderId, ApiClient.FindOrder(ApiClient.WithStatus(storeOrders, orderId, newStatus), orderId));
      |merged| == |rows|
      && forall i :: 0 <= i < |rows| ==>
           (rows[i].order.id == orderId ==> merged[i].order.status == newStatus && merged[i].order.id == orderId)
           && (rows[i].order.id != orderId ==> merged[i] == rows[i])
  {
    var updatedList := ApiClient.WithStatus(storeOrders, orderId, newStatus);
    ApiClient.WithStatusAt(storeOrders, orderId, newStatus);
    var k :| 0 <= k < |storeOrders| && storeOrders[k].id == orderId;
    assert updatedList[k].id == orderId;
    FindFirst(updatedList, (o: ApiClient.Order) => o.id == orderId);
    var found := ApiClient.FindOrder(updatedList, orderId);
    assert found.Some?;
    var j :| 0 <= j < |updatedList| && updatedList[j] == found.value && updatedList[j].id == orderId;
    MergeUpdateSpec(rows, orderId, found);
  }
}
