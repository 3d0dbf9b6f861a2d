/** lib/apiClient.js: the mock order store and its helpers, the token store
    (a localStorage record and the `token` cookie), tenant detection from
    the page URL, and `apiFetch`, the gated request with one refresh and one
    retry. The browser's storage, cookie and location are fields of a
    `Browser` object; the backend is an oracle that says how each request
    it is asked ends. */
module ApiClient {
  import opened Common
  import opened Lists
  import Sorting

  // ---------------------------------------------------------------------
  // Mock orders

  datatype LineItem = LineItem(name: string, qty: int)

  /** An order of the mock store. `total` is in cents and `createdAt` a
      timestamp: the model keeps neither floating point nor date text. */
  datatype Order = Order(id: string, customerName: string, total: int, status: string,
                         createdAt: int, items: seq<LineItem>)

  const StatusFlow: seq<string> := ["PENDING", "CONFIRMED", "PREPARING", "OUT_FOR_DELIVERY", "COMPLETED", "CANCELLED"]

  /** `STATUS_FLOW.indexOf(s)`: the position of s, or -1. */
  function IndexOf(flow: seq<string>, s: string): (k: int)
    ensures -1 <= k < |flow|
    ensures k == -1 <==> s !in flow
    ensures k >= 0 ==> flow[k] == s && forall j :: 0 <= j < k ==> flow[j] != s
  {
    if flow == [] then -1
    else if flow[0] == s then 0
    else
      var k := IndexOf(flow[1..], s);
      if k == -1 then -1 else k + 1
  }

  /** getNextStatuses(currentStatus): the statuses an order may move on to. */
  function NextStatuses(current: string): (r: seq<string>)
    ensures current !in StatusFlow ==> r == []
    ensures current == "COMPLETED" || current == "CANCELLED" ==> r == []
    ensures current in StatusFlow && current != "COMPLETED" && current != "CANCELLED" ==>
      r == StatusFlow[IndexOf(StatusFlow, current) + 1..]
  {
    var idx := IndexOf(StatusFlow, current);
    if idx == -1 then []
    else if current == "COMPLETED" || current == "CANCELLED" then []
    else StatusFlow[idx + 1..]
  }

  /** Orders only move forward: the current status and every earlier one
      are never offered. */
  lemma NextStatusesForward(current: string)
    ensures current !in NextStatuses(current)
    ensures forall j :: 0 <= j < |NextStatuses(current)| ==>
      IndexOf(StatusFlow, NextStatuses(current)[j]) > IndexOf(StatusFlow, current)
  {
    var r := NextStatuses(current);
    if r != [] {
      var idx := IndexOf(StatusFlow, current);
      forall j | 0 <= j < |r| ensures IndexOf(StatusFlow, r[j]) > idx {
        FlowIndex(idx + 1 + j);
      }
    }
  }

  /** The statuses of the flow are distinct: they differ in length or in
      their second or third character. */
  lemma FlowDistinct()
    ensures forall i, j :: 0 <= i < j < |StatusFlow| ==> StatusFlow[i] != StatusFlow[j]
  {
    var sig := seq(|StatusFlow|, k requires 0 <= k < |StatusFlow| =>
                     (|StatusFlow[k]|, StatusFlow[k][1], StatusFlow[k][2]));
    assert sig == [(7, 'E', 'N'), (9, 'O', 'N'), (9, 'R', 'E'), (16, 'U', 'T'), (9, 'O', 'M'), (9, 'A', 'N')];
    forall i, j | 0 <= i < j < |StatusFlow| ensures StatusFlow[i] != StatusFlow[j] {
      assert sig[i] != sig[j];
    }
  }

  /** Each status of the flow is found at its own position. */
  lemma FlowIndex(k: int)
    requires 0 <= k < |StatusFlow|
    ensures IndexOf(StatusFlow, StatusFlow[k]) == k
  {
    FlowDistinct();
  }

  const InitialOrders: seq<Order> := [
    Order("O-1001", "John Doe", 5240, "PENDING", 1770372300,
          [LineItem("Bruschetta", 2), LineItem("Margherita Pizza", 1)]),
    Order("O-1002", "Jane Smith", 3490, "CONFIRMED", 1770371100, [LineItem("Tiramisu", 2)]),
    Order("O-1003", "David Lee", 8910, "COMPLETED", 1770319800,
          [LineItem("Margherita Pizza", 2), LineItem("Bruschetta", 1)])
  ]

  /** The order list after `updateOrderStatus(orderId, newStatus)`. */
  function WithStatus(orders: seq<Order>, orderId: string, newStatus: string): seq<Order> {
    MapWhere(orders, (o: Order) => o.id == orderId, (o: Order) => o.(status := newStatus))
  }

  /** Updating a status changes the status of the orders with that id and
      nothing else: length, order and every other field stay. */
  lemma WithStatusAt(orders: seq<Order>, orderId: string, newStatus: string)
    ensures |WithStatus(orders, orderId, newStatus)| == |orders|
    ensures forall i :: 0 <= i < |orders| ==>
      WithStatus(orders, orderId, newStatus)[i] ==
        if orders[i].id == orderId then orders[i].(status := newStatus) else orders[i]
  {
    MapWhereAt(orders, (o: Order) => o.id == orderId, (o: Order) => o.(status := newStatus));
  }

  /** `orders.find(o => o.id === orderId)`. */
  function FindOrder(orders: seq<Order>, orderId: string): Option<Order> {
    Find(orders, (o: Order) => o.id == orderId)
  }

  /** The module-level `orders` list of the mock store. */
  class OrderStore {
    var orders: seq<Order>

    constructor ()
      ensures orders == InitialOrders
    {
      orders := InitialOrders;
    }

    /** getOrders(): a copy of the list. */
    method GetOrders() returns (r: seq<Order>)
      ensures r == orders
    {
      r := orders;
    }

    /** updateOrderStatus(orderId, newStatus): rewrites the list, then
        returns the updated order, or None when no order has the id. Any
        status is accepted; the flow of NextStatuses is not consulted. */
    method UpdateOrderStatus(orderId: string, newStatus: string) returns (r: Option<Order>)
      modifies this
      ensures orders == WithStatus(old(orders), orderId, newStatus)
      ensures r == FindOrder(orders, orderId)
      ensures r.None? <==> forall i :: 0 <= i < |old(orders)| ==> old(orders)[i].id != orderId
      ensures r.Some? ==> r.value.id == orderId && r.value.status == newStatus
    {
      orders := WithStatus(orders, orderId, newStatus);
      r := FindOrder(orders, orderId);
      WithStatusAt(old(orders), orderId, newStatus);
      FindFirst(orders, (o: Order) => o.id == orderId);
    }
  }

  /** Updating a found order's status gives it exactly the new status, even
      one the flow does not offer: the completed mock order can be put back
      to PENDING. */
  lemma UpdateIgnoresFlow()
    ensures "PENDING" !in NextStatuses("COMPLETED")
    ensures FindOrder(WithStatus(InitialOrders, "O-1003", "PENDING"), "O-1003")
      == Some(InitialOrders[2].(status := "PENDING"))
  {
    var updated := WithStatus(InitialOrders, "O-1003", "PENDING");
    WithStatusAt(InitialOrders, "O-1003", "PENDING");
    assert updated[0].id == "O-1001" && updated[1].id == "O-1002";
    assert updated == [updated[0], updated[1], updated[2]];
    assert Find(updated[2..], (o: Order) => o.id == "O-1003") == Some(updated[2]);
    assert Find(updated[1..], (o: Order) => o.id == "O-1003") == Some(updated[2]);
  }

  /** The filters of getOrderHistory({ status, from, to }); from and to are
      timestamps, None for an empty field. */
  datatype HistoryFilter = HistoryFilter(status: Option<string>, from: Option<int>, to: Option<int>)

  /** An order passes the history filters: its status matches unless the
      filter is absent or "ALL", and it lies within the inclusive bounds. */
  predicate PassesHistory(f: HistoryFilter, o: Order) {
    (!Truthy(f.status) || f.status.value == "ALL" || o.status == f.status.value)
    && (f.from.None? || o.createdAt >= f.from.value)
    && (f.to.None? || o.createdAt <= f.to.value)
  }

  /** The three tests of getOrderHistory, each applied when its field is set. */
  predicate StatusIs(f: HistoryFilter, o: Order) { f.status.Some? && o.status == f.status.value }
  predicate NotBefore(f: HistoryFilter, o: Order) { f.from.Some? && o.createdAt >= f.from.value }
  predicate NotAfter(f: HistoryFilter, o: Order) { f.to.Some? && o.createdAt <= f.to.value }

  /** The filtering steps of getOrderHistory: by status, then from, then to. */
  function HistoryFiltered(orders: seq<Order>, f: HistoryFilter): seq<Order> {
    var byStatus := if Truthy(f.status) && f.status.value != "ALL"
      then Filter(orders, (o: Order) => StatusIs(f, o)) else orders;
    var byFrom := if f.from.Some? then Filter(byStatus, (o: Order) => NotBefore(f, o)) else byStatus;
    if f.to.Some? then Filter(byFrom, (o: Order) => NotAfter(f, o)) else byFrom
  }

  /** One optional filtering step keeps what passes its test. */
  lemma FilterStep(s: seq<Order>, apply: bool, keep: Order -> bool)
    ensures var r := if apply then Filter(s, keep) else s;
      multiset(r) <= multiset(s) && forall o :: o in r <==> o in s && (!apply || keep(o))
  {
    if apply {
      FilterMembers(s, keep);
    }
  }

  /** The filtered orders are exactly those that pass the filters. */
  lemma HistoryFilteredSpec(orders: seq<Order>, f: HistoryFilter)
    ensures multiset(HistoryFiltered(orders, f)) <= multiset(orders)
    ensures forall o :: o in HistoryFiltered(orders, f) <==> o in orders && PassesHistory(f, o)
  {
    var applyStatus := Truthy(f.status) && f.status.value != "ALL";
    var byStatus := if applyStatus then Filter(orders, (o: Order) => StatusIs(f, o)) else orders;
    FilterStep(orders, applyStatus, (o: Order) => StatusIs(f, o));
    var byFrom := if f.from.Some? then Filter(byStatus, (o: Order) => NotBefore(f, o)) else byStatus;
    FilterStep(byStatus, f.from.Some?, (o: Order) => NotBefore(f, o));
    var byTo := if f.to.Some? then Filter(byFrom, (o: Order) => NotAfter(f, o)) else byFrom;
    FilterStep(byFrom, f.to.Some?, (o: Order) => NotAfter(f, o));
    assert byTo == HistoryFiltered(orders, f);
    forall o ensures o in byTo <==> o in orders && PassesHistory(f, o) {
      assert o in byTo <==> o in byFrom && (!f.to.Some? || NotAfter(f, o));
      assert o in byFrom <==> o in byStatus && (!f.from.Some? || NotBefore(f, o));
      assert o in byStatus <==> o in orders && (!applyStatus || StatusIs(f, o));
    }
  }

  /** getOrderHistory(filter) on the store's list: filter, then sort newest
      first. */
  function OrderHistory(orders: seq<Order>, f: HistoryFilter): seq<Order> {
    Sorting.Sort(HistoryFiltered(orders, f), (o: Order) => o.createdAt, true)
  }

  /** The history holds exactly the orders that pass the filters, each at
      most as often as in the store, newest first. */
  lemma OrderHistorySpec(orders: seq<Order>, f: HistoryFilter)
    ensures Sorting.Sorted(OrderHistory(orders, f), (o: Order) => o.createdAt, true)
    ensures multiset(OrderHistory(orders, f)) <= multiset(orders)
    ensures forall o :: o in OrderHistory(orders, f) <==> o in orders && PassesHistory(f, o)
  {
    var filtered := HistoryFiltered(orders, f);
    HistoryFilteredSpec(orders, f);
    forall o ensures o in OrderHistory(orders, f) <==> o in filtered {
      Sorting.SortSameElements(filtered, (o: Order) => o.createdAt, true, o);
    }
  }

  // ---------------------------------------------------------------------
  // Token store

  /** A JSON object body, reduced to its string-valued fields. */
  type Json = map<string, string>

  function Field(j: Json, key: string): Option<string> {
    if key in j then Some(j[key]) else None
  }

  /** The record kept under localStorage "restaurantos_auth": the access
      token, the refresh token and whatever other fields it holds. */
  datatype StoredAuth = StoredAuth(token: Option<string>, refreshToken: Option<string>, rest: map<string, string>)

  /** One assignment to `document.cookie`. */
  datatype CookieWrite = CookieWrite(name: string, value: string, path: string, maxAge: int, sameSite: string)

  const TokenCookieName := "token"
  const TokenMaxAge := 7 * 24 * 60 * 60
  const LoginPage := "/login"

  /** The browser as the client sees it: whether there is a window (false
      when the module runs on the server), the stored auth record, the
      `token` cookie, every cookie write so far, and the page's path. */
  datatype ClientState = ClientState(hasWindow: bool, storage: Option<StoredAuth>, tokenCookie: Option<string>,
                                     cookieWrites: seq<CookieWrite>, location: string)

  /** getStoredAuth(). */
  function StoredAuthOf(st: ClientState): Option<StoredAuth> {
    if st.hasWindow then st.storage else None
  }

  /** getToken(): `auth?.token || null`. */
  function TokenOf(st: ClientState): (r: Option<string>)
    ensures r.Some? ==> r.value != "" && StoredAuthOf(st).Some? && StoredAuthOf(st).value.token == r
  {
    match StoredAuthOf(st)
    case Some(a) => OrNull(a.token)
    case None => None
  }

  /** A cookie write applied to the `token` cookie: max-age 0 deletes it. */
  function WriteCookie(st: ClientState, w: CookieWrite): ClientState {
    st.(cookieWrites := st.cookieWrites + [w],
        tokenCookie := if w.maxAge > 0 then Some(w.value) else None)
  }

  /** setStoredAuth(next). */
  function WithStoredAuth(st: ClientState, a: StoredAuth): ClientState {
    if st.hasWindow then st.(storage := Some(a)) else st
  }

  const ClearCookie := CookieWrite(TokenCookieName, "", "/", 0, "Lax")

  /** clearStoredAuth(): removes the record and expires the cookie. */
  function Cleared(st: ClientState): ClientState {
    if st.hasWindow then WriteCookie(st.(storage := None), ClearCookie) else st
  }

  /** setTokenCookie(token): the cookie lives seven days on the whole site. */
  function WithTokenCookie(st: ClientState, token: string): ClientState {
    if st.hasWindow then WriteCookie(st, CookieWrite(TokenCookieName, token, "/", TokenMaxAge, "Lax")) else st
  }

  /** After setStoredAuth(a) in a browser, getToken() gives a's token, or
      null when that is empty or missing; outside a browser nothing is
      stored and the token stays null. */
  lemma SetThenGetToken(st: ClientState, a: StoredAuth)
    ensures TokenOf(WithStoredAuth(st, a)) == if st.hasWindow then OrNull(a.token) else None
  {
  }

  /** After clearStoredAuth() there is no token and no cookie, and the
      last cookie write expired it on the whole site. Clearing twice is
      clearing once as far as storage and cookie go. */
  lemma ClearThenNoToken(st: ClientState)
    requires st.hasWindow
    ensures TokenOf(Cleared(st)) == None && Cleared(st).tokenCookie == None
    ensures Cleared(st).cookieWrites == st.cookieWrites + [CookieWrite("token", "", "/", 0, "Lax")]
    ensures Cleared(Cleared(st)).storage == Cleared(st).storage
    ensures Cleared(Cleared(st)).tokenCookie == Cleared(st).tokenCookie
  {
  }

  /** setTokenCookie writes a seven-day cookie: 604800 seconds. */
  lemma TokenCookieLifetime(st: ClientState, token: string)
    requires st.hasWindow
    ensures WithTokenCookie(st, token).tokenCookie == Some(token)
    ensures WithTokenCookie(st, token).cookieWrites[|st.cookieWrites|].maxAge == 604800
  {
  }

  // ---------------------------------------------------------------------
  // Tenant detection

  /** The slug in `path.match(/^\/r\/([^/]+)\/(?:[^/]+\/)?dashboard/)`, or
      None. The match is a prefix match: anything may follow "dashboard". */
  function TenantSlugOf(p: string): (r: Option<string>)
    ensures r.Some? ==> IsSegment(r.value) && StartsWith(p, "/r/" + r.value + "/")
  {
    if !StartsWith(p, "/r/") then None
    else
      var r := SlugIn(p[3..]);
      if r.Some? then
        assert p[..3 + |r.value| + 1] == "/r/" + r.value + "/" by {
          assert p[3..][..|r.value| + 1] == r.value + "/";
        }
        r
      else None
  }

  /** The rest of the expression after "/r/": "dashboard", or one more
      segment and "/dashboard", starts `after`. */
  predicate DashboardAfter(after: string) {
    var j := SegmentEnd(after);
    StartsWith(after, "dashboard") || (0 < j < |after| && StartsWith(after[j + 1..], "dashboard"))
  }

  /** The capture group on the text after "/r/": the first segment, when a
      '/' and a dashboard part follow it. */
  function SlugIn(rest: string): (r: Option<string>)
    ensures r.Some? ==> IsSegment(r.value) && |r.value| < |rest| && rest[..|r.value| + 1] == r.value + "/"
  {
    var k := SegmentEnd(rest);
    if k == 0 || k == |rest| || !DashboardAfter(rest[k + 1..]) then None
    else Some(rest[..k])
  }

  /** getTenantSlugFromLocation(): null outside a browser. */
  function TenantSlugFromLocation(st: ClientState): Option<string> {
    if st.hasWindow then TenantSlugOf(st.location) else None
  }

  /** The first segment after "/r/" is the tenant, both on a tenant
      dashboard path and on one with a role segment before "dashboard". */
  lemma TenantSlugOfDashboard(slug: string, role: string, tail: string)
    requires IsSegment(slug)
    ensures TenantSlugOf("/r/" + slug + "/dashboard" + tail) == Some(slug)
    ensures IsSegment(role) ==> TenantSlugOf("/r/" + slug + "/" + role + "/dashboard" + tail) == Some(slug)
  {
    TenantSlugOfTenantPath(slug, tail);
    if IsSegment(role) {
      TenantSlugOfRolePath(slug, role, tail);
    }
  }

  /** On "/r/" + slug + "/" + after, the slug is found exactly when `after`
      starts with "dashboard" or with one more segment and "/dashboard". */
  lemma TenantSlugAfter(slug: string, after: string)
    requires IsSegment(slug)
    ensures TenantSlugOf("/r/" + slug + "/" + after) == if DashboardAfter(after) then Some(slug) else None
  {
    var p := "/r/" + slug + "/" + after;
    assert p[..3] == "/r/";
    var rest := p[3..];
    assert rest == slug + "/" + after;
    SegmentEndOf(rest, slug);
    assert rest[..|slug|] == slug;
    assert rest[|slug| + 1..] == after;
  }

  lemma TenantSlugOfTenantPath(slug: string, tail: string)
    requires IsSegment(slug)
    ensures TenantSlugOf("/r/" + slug + "/dashboard" + tail) == Some(slug)
  {
    assert "/r/" + slug + "/dashboard" + tail == "/r/" + slug + "/" + ("dashboard" + tail);
    TenantSlugAfter(slug, "dashboard" + tail);
    assert StartsWith("dashboard" + tail, "dashboard");
  }

  lemma TenantSlugOfRolePath(slug: string, role: string, tail: string)
    requires IsSegment(slug) && IsSegment(role)
    ensures TenantSlugOf("/r/" + slug + "/" + role + "/dashboard" + tail) == Some(slug)
  {
    var after := role + "/" + ("dashboard" + tail);
    assert "/r/" + slug + "/" + role + "/dashboard" + tail == "/r/" + slug + "/" + after;
    TenantSlugAfter(slug, after);
    SegmentEndOf(after, role);
    assert after[|role| + 1..] == "dashboard" + tail;
    assert StartsWith("dashboard" + tail, "dashboard");
  }

  // ---------------------------------------------------------------------
  // apiFetch

  /** A response: its status and its body, None when the body is not JSON. */
  datatype HttpResponse = HttpResponse(status: int, body: Option<Json>)

  /** How one `fetch` ends: rejected (a network error) or with a response. */
  datatype Reply = Threw | Replied(res: HttpResponse)

  /** The oracle for one apiFetch call: how the first request, the refresh
      request and the retried request end, if they are made. */
  datatype Backend = Backend(first: Reply, refresh: Reply, retry: Reply)

  /** A request apiFetch sends. */
  datatype Sent = ApiRequest(path: string, headers: map<string, string>) | RefreshRequest(refreshToken: string)

  /** How apiFetch settles: a value (None for 204's null), or one of the
      errors it throws. */
  datatype FetchResult =
    | Ok(body: Option<Json>)
    | NetworkError
    | InvalidJson
    | AuthError(code: int, message: string)
    | SubscriptionInactive(message: string)
    | RequestFailed(message: string)

  datatype FetchRun = FetchRun(result: FetchResult, sent: seq<Sent>, after: ClientState)

  predicate IsOk(status: int) { 200 <= status <= 299 }
  predicate IsAuthStatus(status: int) { status == 401 || status == 403 }

  /** The headers of doRequest(currentToken). */
  function RequestHeaders(optionHeaders: map<string, string>, token: Option<string>, slug: Option<string>): (h: map<string, string>)
    ensures "Authorization" !in optionHeaders ==> ("Authorization" in h <==> Truthy(token))
    ensures Truthy(token) ==> "Authorization" in h && h["Authorization"] == "Bearer " + token.value
    ensures "x-tenant-slug" !in optionHeaders ==> ("x-tenant-slug" in h <==> Truthy(slug))
    ensures Truthy(slug) ==> "x-tenant-slug" in h && h["x-tenant-slug"] == slug.value
    ensures forall key :: key in optionHeaders && key != "Authorization" && key != "x-tenant-slug" ==>
      key in h && h[key] == optionHeaders[key]
  {
    var base := map["Content-Type" := "application/json"] + optionHeaders;
    var withAuth := if Truthy(token) then base["Authorization" := "Bearer " + token.value] else base;
    if Truthy(slug) then withAuth["x-tenant-slug" := slug.value] else withAuth
  }

  /** `err.message || "Request failed"`, where `err` is the JSON body or {}. */
  function ErrorMessage(body: Option<Json>): (m: string)
    ensures m != ""
  {
    if body.Some? && Truthy(Field(body.value, "message")) then body.value["message"] else "Request failed"
  }

  /** The message names an inactive or expired subscription, in any case. */
  predicate MentionsSubscription(message: string) {
    Includes(Lower(message), "subscription inactive") || Includes(Lower(message), "subscription expired")
  }

  /** The end of apiFetch: classify the final response. */
  function Settle(st: ClientState, sent: seq<Sent>, res: HttpResponse): (run: FetchRun)
    ensures run.sent == sent
  {
    if !IsOk(res.status) then
      var message := ErrorMessage(res.body);
      if IsAuthStatus(res.status) then
        var cleared := Cleared(st);
        FetchRun(AuthError(res.status, message), sent,
                 if st.hasWindow then cleared.(location := LoginPage) else cleared)
      else if MentionsSubscription(message) then FetchRun(SubscriptionInactive(message), sent, st)
      else FetchRun(RequestFailed(message), sent, st)
    else if res.status == 204 then FetchRun(Ok(None), sent, st)
    else if res.body.None? then FetchRun(InvalidJson, sent, st)
    else FetchRun(Ok(res.body), sent, st)
  }

  /** apiFetch(path, { headers }) as a function of the browser state and of
      how the backend answers. */
  function Fetch(st: ClientState, path: string, optionHeaders: map<string, string>, net: Backend): FetchRun {
    var auth := StoredAuthOf(st);
    var token := TokenOf(st);
    var refreshToken := if auth.Some? then OrNull(auth.value.refreshToken) else None;
    var slug := TenantSlugFromLocation(st);
    var first := ApiRequest(path, RequestHeaders(optionHeaders, token, slug));
    match net.first
    case Threw => FetchRun(NetworkError, [first], st)
    case Replied(res) =>
      if IsAuthStatus(res.status) && refreshToken.Some? then
        Refreshed(st, auth, refreshToken.value, path, optionHeaders, slug, first, res, net)
      else
        Settle(st, [first], res)
  }

  /** The rest of apiFetch after a 401 or 403 when a refresh token is
      stored: the refresh request, and on success the stored pair and the
      cookie renewed and the request retried once with the new token. */
  function Refreshed(st: ClientState, auth: Option<StoredAuth>, refreshToken: string, path: string,
                     optionHeaders: map<string, string>, slug: Option<string>, first: Sent,
                     res: HttpResponse, net: Backend): FetchRun {
    var sent := [first, RefreshRequest(refreshToken)];
    match net.refresh
    case Threw => Settle(Cleared(st), sent, res)
    case Replied(refreshRes) =>
      if !IsOk(refreshRes.status) || refreshRes.body.None? then Settle(Cleared(st), sent, res)
      else
        var data := refreshRes.body.value;
        var newToken := Field(data, "token");
        var updated := StoredAuth(newToken, Field(data, "refreshToken"), if auth.Some? then auth.value.rest else map[]);
        var stored := WithStoredAuth(st, updated);
        var refreshed := if Truthy(newToken) then WithTokenCookie(stored, newToken.value) else stored;
        var retried := sent + [ApiRequest(path, RequestHeaders(optionHeaders, newToken, slug))];
        match net.retry
        case Threw => Settle(Cleared(refreshed), retried, res)
        case Replied(res2) => Settle(refreshed, retried, res2)
  }

  function CountApi(sent: seq<Sent>): nat {
    if sent == [] then 0 else (if sent[0].ApiRequest? then 1 else 0) + CountApi(sent[1..])
  }

  /** One call sends the request first, refreshes at most once and sends
      at most two requests to the backend. */
  lemma FetchBounds(st: ClientState, path: string, h: map<string, string>, net: Backend)
    ensures var run := Fetch(st, path, h, net);
      1 <= |run.sent| <= 3 && run.sent[0] == ApiRequest(path, RequestHeaders(h, TokenOf(st), TenantSlugFromLocation(st)))
      && CountApi(run.sent) <= 2
      && forall i :: 0 <= i < |run.sent| && run.sent[i].RefreshRequest? ==> i == 1
  {
    var run := Fetch(st, path, h, net);
    if |run.sent| == 3 {
      assert run.sent[1..][1..][1..] == [];
      assert CountApi(run.sent[1..][1..]) == 1;
    } else if |run.sent| == 2 {
      assert run.sent[1..][1..] == [];
      assert CountApi(run.sent[1..]) == 0;
    } else {
      assert run.sent[1..] == [];
    }
  }

  /** The first request carries the stored token and the tenant exactly
      when there are ones to carry. */
  lemma FirstRequestHeaders(st: ClientState, path: string, h: map<string, string>, net: Backend)
    requires "Authorization" !in h && "x-tenant-slug" !in h
    ensures var first := Fetch(st, path, h, net).sent[0].headers;
      ("Authorization" in first <==> TokenOf(st).Some?)
      && (TokenOf(st).Some? ==> first["Authorization"] == "Bearer " + TokenOf(st).value)
      && ("x-tenant-slug" in first <==> Truthy(TenantSlugFromLocation(st)))
  {
  }

  /** A refresh is attempted exactly when the first response is 401 or
      403 and a refresh token is stored. */
  lemma RefreshOnlyOnAuthFailure(st: ClientState, path: string, h: map<string, string>, net: Backend)
    ensures var run := Fetch(st, path, h, net);
      |run.sent| >= 2 <==>
        net.first.Replied? && IsAuthStatus(net.first.res.status)
        && StoredAuthOf(st).Some? && Truthy(StoredAuthOf(st).value.refreshToken)
    ensures var run := Fetch(st, path, h, net);
      |run.sent| >= 2 ==> run.sent[1] == RefreshRequest(StoredAuthOf(st).value.refreshToken.value)
  {
  }

  /** A successful refresh stores the new pair over the old record, sets
      the cookie, and retries once with the new token. */
  lemma RefreshSuccess(st: ClientState, path: string, h: map<string, string>, net: Backend)
    requires st.hasWindow && "Authorization" !in h
    requires net.first.Replied? && IsAuthStatus(net.first.res.status)
    requires st.storage.Some? && Truthy(st.storage.value.refreshToken)
    requires net.refresh.Replied? && IsOk(net.refresh.res.status) && net.refresh.res.body.Some?
    requires Truthy(Field(net.refresh.res.body.value, "token"))
    requires net.retry.Replied? && IsOk(net.retry.res.status)
    ensures var run := Fetch(st, path, h, net);
      var data := net.refresh.res.body.value;
      |run.sent| == 3
      && run.sent[2].headers["Authorization"] == "Bearer " + data["token"]
      && run.after.storage == Some(st.storage.value.(token := Field(data, "token"),
                                                     refreshToken := Field(data, "refreshToken")))
      && run.after.tokenCookie == Some(data["token"])
      && run.after.cookieWrites == st.cookieWrites + [CookieWrite("token", data["token"], "/", 604800, "Lax")]
  {
  }

  /** A refresh that fails (a non-2xx answer, a body that is not JSON, or
      a network error) clears the session and is not followed by a retry:
      the call ends as an authentication error, and in a browser it goes to
      the login page. */
  lemma RefreshFailureClears(st: ClientState, path: string, h: map<string, string>, net: Backend)
    requires st.hasWindow
    requires net.first.Replied? && IsAuthStatus(net.first.res.status)
    requires st.storage.Some? && Truthy(st.storage.value.refreshToken)
    requires net.refresh.Threw? || !IsOk(net.refresh.res.status) || net.refresh.res.body.None?
    ensures var run := Fetch(st, path, h, net);
      |run.sent| == 2 && CountApi(run.sent) == 1
      && run.result == AuthError(net.first.res.status, ErrorMessage(net.first.res.body))
      && run.after.storage.None? && run.after.tokenCookie.None?
      && run.after.location == LoginPage
  {
    var run := Fetch(st, path, h, net);
    assert run.sent[1..][1..] == [];
    assert CountApi(run.sent[1..]) == 0;
  }

  /** Whatever happens before, a final 401 or 403 clears the session, goes
      to the login page and throws an authentication error with that code;
      this is decided before the message is examined. */
  lemma FinalAuthFailure(st: ClientState, sent: seq<Sent>, res: HttpResponse)
    requires IsAuthStatus(res.status) && st.hasWindow
    ensures var run := Settle(st, sent, res);
      run.result == AuthError(res.status, ErrorMessage(res.body))
      && run.after.storage.None? && run.after.tokenCookie.None? && run.after.location == LoginPage
  {
  }

  /** Other failures: a message naming the subscription throws the
      dedicated error, any other message a generic one, with
      "Request failed" when the body has none; the session is kept. A 204
      gives null. */
  lemma FinalOtherOutcome(st: ClientState, sent: seq<Sent>, res: HttpResponse)
    requires !IsAuthStatus(res.status)
    ensures var run := Settle(st, sent, res);
      run.after == st
      && (!IsOk(res.status) && MentionsSubscription(ErrorMessage(res.body)) ==>
            run.result == SubscriptionInactive(ErrorMessage(res.body)))
      && (!IsOk(res.status) && !MentionsSubscription(ErrorMessage(res.body)) ==>
            run.result == RequestFailed(ErrorMessage(res.body)))
      && (res.status == 204 ==> run.result == Ok(None))
      && (run.result.Ok? ==> IsOk(res.status))
  {
  }

  /** Both messages the backend uses for a lapsed subscription are
      recognised, whatever their case. */
  lemma SubscriptionMessages()
    ensures MentionsSubscription("Subscription inactive")
    ensures MentionsSubscription("Subscription expired")
  {
    InactiveRecognised();
    ExpiredRecognised();
  }

  /** The lower-case form of the message, character by character. */
  lemma InactiveRecognised()
    ensures Includes(Lower("Subscription inactive"), "subscription inactive")
  {
    var l := Lower("Subscription inactive");
    assert l[0] == 's'; assert l[1] == 'u'; assert l[2] == 'b'; assert l[3] == 's'; assert l[4] == 'c'; assert l[5] == 'r';
    assert l[6] == 'i'; assert l[7] == 'p'; assert l[8] == 't'; assert l[9] == 'i'; assert l[10] == 'o'; assert l[11] == 'n';
    assert l[12] == ' '; assert l[13] == 'i'; assert l[14] == 'n'; assert l[15] == 'a'; assert l[16] == 'c'; assert l[17] == 't';
    assert l[18] == 'i'; assert l[19] == 'v'; assert l[20] == 'e';
    assert l[..21] == "subscription inactive";
    assert StartsWith(l, "subscription inactive");
  }

  lemma ExpiredRecognised()
    ensures Includes(Lower("Subscription expired"), "subscription expired")
  {
    var l := Lower("Subscription expired");
    assert l[0] == 's'; assert l[1] == 'u'; assert l[2] == 'b'; assert l[3] == 's'; assert l[4] == 'c'; assert l[5] == 'r';
    assert l[6] == 'i'; assert l[7] == 'p'; assert l[8] == 't'; assert l[9] == 'i'; assert l[10] == 'o'; assert l[11] == 'n';
    assert l[12] == ' '; assert l[13] == 'e'; assert l[14] == 'x'; assert l[15] == 'p'; assert l[16] == 'i'; assert l[17] == 'r';
    assert l[18] == 'e'; assert l[19] == 'd';
    assert l[..20] == "subscription expired";
    assert StartsWith(l, "subscription expired");
  }

  /** "Subscription inactive" on a 403, with no refresh token stored, is
      reported as an authentication error: the status test comes first. */
  lemma SubscriptionMessageOn403IsAuthError(st: ClientState, path: string, h: map<string, string>, net: Backend)
    requires st.storage.None? || !Truthy(st.storage.value.refreshToken)
    requires net.first == Replied(HttpResponse(403, Some(map["message" := "Subscription inactive"])))
    ensures Fetch(st, path, h, net).result == AuthError(403, "Subscription inactive")
  {
  }

  /** A lapsed-subscription message on any other failure is the
      subscription error. */
  lemma SubscriptionMessageOtherwise(st: ClientState, path: string, h: map<string, string>, net: Backend, status: int)
    requires !IsOk(status) && !IsAuthStatus(status)
    requires net.first == Replied(HttpResponse(status, Some(map["message" := "Subscription expired"])))
    ensures Fetch(st, path, h, net).result == SubscriptionInactive("Subscription expired")
  {
    SubscriptionMessages();
  }

  // ---------------------------------------------------------------------
  // login and registerRestaurant

  /** How login/registerRestaurant settle. */
  datatype AuthResult = Authenticated(data: Json) | AuthFailed(message: string) | AuthNetworkError | AuthInvalidJson

  /** The browser state and result after POSTing credentials and reading
      the reply; `fallback` is "Login failed" or "Registration failed". */
  function Authenticate(st: ClientState, reply: Reply, fallback: string): (ClientState, AuthResult) {
    match reply
    case Threw => (st, AuthNetworkError)
    case Replied(res) =>
      if !IsOk(res.status) then
        (st, AuthFailed(if res.body.Some? && Truthy(Field(res.body.value, "message")) then res.body.value["message"] else fallback))
      else if res.body.None? then (st, AuthInvalidJson)
      else
        var token := Field(res.body.value, "token");
        (if Truthy(token) && st.hasWindow then WithTokenCookie(st, token.value) else st, Authenticated(res.body.value))
  }

  /** login writes only the cookie: the stored auth record, which getToken
      and apiFetch read, is left as it was. After logging in from an empty
      store the cookie holds the token but getToken() is still null. */
  lemma LoginLeavesStoredAuth(st: ClientState, reply: Reply, fallback: string)
    ensures Authenticate(st, reply, fallback).0.storage == st.storage
    ensures TokenOf(Authenticate(st, reply, fallback).0) == TokenOf(st)
    ensures st.hasWindow && st.storage.None? && reply == Replied(HttpResponse(200, Some(map["token" := "abc"]))) ==>
      Authenticate(st, reply, fallback).0.tokenCookie == Some("abc") && TokenOf(Authenticate(st, reply, fallback).0).None?
  {
  }

  // ---------------------------------------------------------------------
  // The browser object

  /** The browser's mutable state as lib/apiClient.js touches it. */
  class Browser {
    const hasWindow: bool
    var storage: Option<StoredAuth>
    var tokenCookie: Option<string>
    var cookieWrites: seq<CookieWrite>
    var location: string

    function State(): ClientState
      reads this
    {
      ClientState(hasWindow, storage, tokenCookie, cookieWrites, location)
    }

    constructor (hasWindow: bool, location: string)
      ensures State() == ClientState(hasWindow, None, None, [], location)
    {
      this.hasWindow := hasWindow;
      storage := None;
      tokenCookie := None;
      cookieWrites := [];
      this.location := location;
    }

    /** getStoredAuth(). */
    method GetStoredAuth() returns (r: Option<StoredAuth>)
      ensures r == StoredAuthOf(State())
    {
      if !hasWindow { return None; }
      r := storage;
    }

    /** getToken(). */
    method GetToken() returns (r: Option<string>)
      ensures r == TokenOf(State())
    {
      var auth := GetStoredAuth();
      r := if auth.Some? then OrNull(auth.value.token) else None;
    }

    /** setStoredAuth(next). */
    method SetStoredAuth(next: StoredAuth)
      modifies this
      ensures State() == WithStoredAuth(old(State()), next)
    {
      if !hasWindow { return; }
      storage := Some(next);
    }

    method SetCookie(w: CookieWrite)
      modifies this
      ensures State() == WriteCookie(old(State()), w)
    {
      cookieWrites := cookieWrites + [w];
      tokenCookie := if w.maxAge > 0 then Some(w.value) else None;
    }

    /** clearStoredAuth(). */
    method ClearStoredAuth()
      modifies this
      ensures State() == Cleared(old(State()))
    {
      if !hasWindow { return; }
      storage := None;
      SetCookie(ClearCookie);
    }

    /** setTokenCookie(token). */
    method SetTokenCookie(token: string)
      modifies this
      ensures State() == WithTokenCookie(old(State()), token)
    {
      if !hasWindow { return; }
      SetCookie(CookieWrite(TokenCookieName, token, "/", 7 * 24 * 60 * 60, "Lax"));
    }

    /** getTenantSlugFromLocation(). */
    method GetTenantSlugFromLocation() returns (r: Option<string>)
      ensures r == TenantSlugFromLocation(State())
    {
      if !hasWindow { return None; }
      r := TenantSlugOf(location);
    }

    /** login(email, password) and registerRestaurant(data), given how the
        POST ends. */
    method PostCredentials(reply: Reply, fallback: string) returns (r: AuthResult)
      modifies this
      ensures (State(), r) == Authenticate(old(State()), reply, fallback)
    {
      if reply.Threw? { return AuthNetworkError; }
      var res := reply.res;
      if !IsOk(res.status) {
        var message := if res.body.Some? then Field(res.body.value, "message") else None;
        return AuthFailed(if Truthy(message) then message.value else fallback);
      }
      if res.body.None? { return AuthInvalidJson; }
      var data := res.body.value;
      var token := Field(data, "token");
      if Truthy(token) && hasWindow {
        SetTokenCookie(token.value);
      }
      r := Authenticated(data);
    }

    /** The end of apiFetch: classify the final response. */
    method Finish(sent: seq<Sent>, res: HttpResponse) returns (result: FetchResult)
      modifies this
      ensures FetchRun(result, sent, State()) == Settle(old(State()), sent, res)
    {
      if !IsOk(res.status) {
        var message := ErrorMessage(res.body);
        if IsAuthStatus(res.status) {
          ClearStoredAuth();
          if hasWindow {
            location := LoginPage;
          }
          return AuthError(res.status, message);
        }
        if MentionsSubscription(message) {
          return SubscriptionInactive(message);
        }
        return RequestFailed(message);
      }
      if res.status == 204 { return Ok(None); }
      if res.body.None? { return InvalidJson; }
      result := Ok(res.body);
    }

    /** apiFetch(path, { headers }): one request, at most one refresh and
        one retry, then classification of the final response. */
    method ApiFetch(path: string, optionHeaders: map<string, string>, net: Backend)
      returns (result: FetchResult, sent: seq<Sent>)
      modifies this
      ensures FetchRun(result, sent, State()) == Fetch(old(State()), path, optionHeaders, net)
    {
      var auth := GetStoredAuth();
      var token := if auth.Some? then OrNull(auth.value.token) else None;
      var refreshToken := if auth.Some? then OrNull(auth.value.refreshToken) else None;
      var tenantSlug := GetTenantSlugFromLocation();

      sent := [ApiRequest(path, RequestHeaders(optionHeaders, token, tenantSlug))];
      if net.first.Threw? {
        return NetworkError, sent;
      }
      var res := net.first.res;

      if IsAuthStatus(res.status) && refreshToken.Some? {
        result, sent := Refresh(auth, refreshToken.value, path, optionHeaders, tenantSlug, sent[0], res, net);
        return;
      }
      result := Finish(sent, res);
    }

    /** The refresh and the retry of apiFetch. */
    method Refresh(auth: Option<StoredAuth>, refreshToken: string, path: string, optionHeaders: map<string, string>,
                   tenantSlug: Option<string>, first: Sent, res: HttpResponse, net: Backend)
      returns (result: FetchResult, sent: seq<Sent>)
      modifies this
      ensures FetchRun(result, sent, State()) ==
        Refreshed(old(State()), auth, refreshToken, path, optionHeaders, tenantSlug, first, res, net)
    {
      sent := [first, RefreshRequest(refreshToken)];
      var final := res;
      if net.refresh.Threw? {
        ClearStoredAuth();
      } else if IsOk(net.refresh.res.status) && net.refresh.res.body.Some? {
        var refreshData := net.refresh.res.body.value;
        var newToken := Field(refreshData, "token");
        SetStoredAuth(StoredAuth(newToken, Field(refreshData, "refreshToken"),
                                 if auth.Some? then auth.value.rest else map[]));
        if Truthy(newToken) && hasWindow {
          SetTokenCookie(newToken.value);
        }
        sent := sent + [ApiRequest(path, RequestHeaders(optionHeaders, newToken, tenantSlug))];
        if net.retry.Threw? {
          ClearStoredAuth();
        } else {
          final := net.retry.res;
        }
      } else {
        ClearStoredAuth();
      }
      result := Finish(sent, final);
    }
  }
}
