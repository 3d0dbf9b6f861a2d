# Restaurant console: a verified model of its core logic

This project models the decision and state logic of a restaurant
management console. The console is a Next.js web application with a REST
backend. The model covers the following parts:

- **Route guard** (`middleware.js`). It decides, before a dashboard page is
  served, whether to let the request through or send it to `/login`. The
  decision depends on the path, the `token` cookie, the role in the verified
  token, and the tenant named in the token. `Middleware.dfy` models it.
- **Rewrite table** (`next.config.js`). It sends tenant URLs
  `/r/<slug>/dashboard...` to the shared dashboard pages, with the slug as a
  query parameter. `NextConfig.dfy` models it.
- **API client** (`lib/apiClient.js`). `ApiClient.dfy` models:
  - the mock order store: the status flow, updates and the filtered,
    sorted history;
  - the token store: the localStorage record and the `token` cookie;
  - tenant detection from the page URL;
  - `apiFetch`: one request, at most one refresh and one retry, then
    classification of the outcome;
  - `login` and `registerRestaurant`.
- **Dashboard pages** (`pages/dashboard/*.js`). Each page is a class whose
  fields are the page's React state. Its handlers reassign that state from
  pure list transforms, and lemmas state what those transforms do. The
  pages are point of sale (`Pos.dfy`), orders (`Orders.dfy`), menu
  (`Menu.dfy`), users (`Users.dfy`), inventory (`Inventory.dfy`), website
  content (`WebsiteContent.dfy`) and order history (`History.dfy`).
- **Status badge** (`components/ui/StatusBadge.js`). A status is turned into
  a colour class and a readable label. `StatusBadge.dfy` models it.

Shared helpers live in three more files:

- `Common.dfy`: JavaScript truthiness, white space, ASCII case mapping,
  `trim`, `includes`, `startsWith`, path segments.
- `Lists.dfy`: `filter`, a conditional `map`, `find`.
- `Sorting.dfy`: a stable sort on an integer key.

Some things the console gets from outside are parameters of the model:

- The backend's answers are parameters, in one of three forms:
  - an `Option`, where None means the request failed and the handler stops;
  - a `Reply`, which is a response or a network error;
  - a `Backend` record, which says how each request of one `apiFetch` call
    ends.
- `verifyJwt` is a function parameter.
- `confirm` and `prompt` answers, `new Date(text)`, and the part of
  `Number(text)` the model does not compute are also parameters.

Amounts are integers: prices and totals are in cents. Dates are integer
timestamps.

Two behaviours of the code that a reader may not expect:

- `login` writes only the `token` cookie (lib/apiClient.js:107-109).
  `getToken` reads only the localStorage record. A token obtained by
  logging in is therefore not sent by `apiFetch`
  (`ApiClient.LoginLeavesStoredAuth`).
- `apiFetch` tests the status 401/403 before the message. A 403 whose
  message says "Subscription inactive" is therefore an authentication error,
  not the subscription error
  (`ApiClient.SubscriptionMessageOn403IsAuthError`).

## Model

| member | source | states |
|---|---|---|
| Middleware.TenantDashboardMatchIff | middleware.js:9 | the tenant expression matches with slug s exactly when the path is "/r/" + s + "/dashboard" and s is one non-empty segment without '/', followed by nothing or by '/' and characters other than line terminators |
| Middleware.Guard | middleware.js:4-45 | non-dashboard paths pass; every redirect goes to /login and keeps the other query parameters; a missing token redirects with `from`; a rejected token or a role outside {super_admin, restaurant_admin, staff} redirects without `from`; a request passes only with an accepted allowed role and, on a tenant path, no tenant claim or a matching one |
| Middleware.CrossTenantRedirects | middleware.js:33-42 | a token whose tenant claim names another tenant is redirected to /login with `from` set to the path |
| Middleware.AllowedRoleProceeds | middleware.js:33-44 | an allowed role passes whenever the token carries no tenant claim, whatever the slug, or the path is not a tenant path |
| Middleware.PlatformIgnoresTenantClaim | middleware.js:33-44 | on a /dashboard path an allowed role always passes, whatever tenant the token names |
| Middleware.MatchedPathsAreProtected | middleware.js:47-49 | every path `config.matcher` selects is one the guard treats as protected |
| Middleware.RoleSegmentNotDashboard | middleware.js:9 | after the slug, a role segment other than "dashboard" never reads as "/dashboard" followed by the end or '/' |
| Middleware.RoleSegmentPathsPassThrough | middleware.js:9-13 | "/r/<slug>/<role>/dashboard..." matches neither the tenant expression nor the matcher, and the guard lets it through without a token |
| NextConfig.ApplyRule | next.config.js:7-20 | a rule that applies rewrites to a destination ending in "?tenantSlug=" + slug |
| NextConfig.FirstMatch | next.config.js:5-21 | there is a result exactly when some rule applies; the result is the rewrite of a rule that applies when no earlier rule does, and it carries the slug |
| NextConfig.WebsiteRewrite | next.config.js:7-10 | /r/<slug>/dashboard/website goes to /dashboard/tenant-website?tenantSlug=<slug> |
| NextConfig.RootRewrite | next.config.js:12-15 | /r/<slug>/dashboard goes to /dashboard/overview?tenantSlug=<slug> |
| NextConfig.OtherRewrite | next.config.js:17-20 | /r/<slug>/dashboard/<path> for any other path goes to /dashboard/<path>?tenantSlug=<slug> |
| NextConfig.WebsiteRuleShadowsGeneral | next.config.js:5-21 | the general rule would also match the website page; the rule listed first wins |
| NextConfig.RewriteKeepsSlug | next.config.js:5-21 | every rewrite ends with the slug taken from the path |
| NextConfig.RewrittenPathsAreGuarded | next.config.js:17-20 | every rewritten path is one the middleware matcher runs the guard on |
| StatusBadge.Normalize | components/ui/StatusBadge.js:11 | a falsy status becomes "UNKNOWN"; any other status is kept |
| StatusBadge.BadgeClass | components/ui/StatusBadge.js:12 | a status in the table gets its class, every other one "badge-info"; the class is always one of the table's |
| StatusBadge.ReplaceUnderscores | components/ui/StatusBadge.js:15 | each underscore becomes a space, every other character stays, and the length is kept |
| StatusBadge.CapitalizeFromAt | components/ui/StatusBadge.js:15 | the word-capitalising replace upper-cases exactly the characters that start the text or follow white space |
| StatusBadge.CapitalizeAt | components/ui/StatusBadge.js:15 | capitalising upper-cases exactly the first character of each word and keeps the length |
| StatusBadge.LabelShape | components/ui/StatusBadge.js:15 | the label is as long as the status, has no underscore, and each character is upper case at a word start and lower case elsewhere |
| StatusBadge.Render | components/ui/StatusBadge.js:10-18 | the badge's class comes from the table and its text is as long as the normalised status and holds no underscore |
| StatusBadge.MissingStatusIsUnknown | components/ui/StatusBadge.js:11-15 | a missing status renders as "Unknown" with "badge-info" |
| ApiClient.IndexOf | lib/apiClient.js:44 | the index of the first occurrence, or -1 exactly when the status is not in the flow |
| ApiClient.NextStatuses | lib/apiClient.js:41-48 | unknown, COMPLETED and CANCELLED give []; any other status gives the statuses after it in the flow |
| ApiClient.NextStatusesForward | lib/apiClient.js:41-48 | orders only move forward: the current status and every earlier one are never offered |
| ApiClient.WithStatusAt | lib/apiClient.js:51 | the update keeps length and order and changes only the status of the orders with the id |
| ApiClient.OrderStore.GetOrders | lib/apiClient.js:37-39 | returns the store's list |
| ApiClient.OrderStore.UpdateOrderStatus | lib/apiClient.js:50-53 | rewrites the list; returns the updated order, or None exactly when no order has the id; the order returned has the id and the new status |
| ApiClient.UpdateIgnoresFlow | lib/apiClient.js:50-53 | a status the flow does not offer is still applied: COMPLETED can go back to PENDING |
| ApiClient.HistoryFilteredSpec | lib/apiClient.js:392-407 | the filtered orders are exactly those that pass the status and inclusive date filters, each at most as often as in the store |
| ApiClient.OrderHistorySpec | lib/apiClient.js:392-412 | the history is sorted newest first and holds exactly the orders that pass the filters, each at most as often as in the store |
| Sorting.Sort | lib/apiClient.js:409-411 | the result is sorted on the key in the chosen direction and is a permutation of the input |
| Sorting.InsertStable | lib/apiClient.js:409-411 | inserting an element keeps the elements of every key in their order, the new one joining those of its key in front |
| Sorting.SortStable | pages/dashboard/orders.js:79-83 | the sort is stable: the elements sharing a key come out in the order they went in |
| ApiClient.TokenOf | lib/apiClient.js:82-85 | a token is returned only when it is non-empty and is the stored record's token |
| ApiClient.SetThenGetToken | lib/apiClient.js:70-85 | after storing a record in a browser, the token read back is the record's token, or null when that is empty; outside a browser it stays null |
| ApiClient.ClearThenNoToken | lib/apiClient.js:75-80 | clearing removes the record and the cookie by writing "token=; path=/; max-age=0; SameSite=Lax"; clearing twice is clearing once |
| ApiClient.TokenCookieLifetime | lib/apiClient.js:87-92 | the token cookie is set with max-age 604800 |
| ApiClient.TenantSlugOf | lib/apiClient.js:139-143 | a slug is found only as the first segment after "/r/", and it is a non-empty segment without '/' |
| ApiClient.TenantSlugOfDashboard | lib/apiClient.js:141 | /r/<slug>/dashboard... and /r/<slug>/<role>/dashboard... both give the slug |
| ApiClient.RequestHeaders | lib/apiClient.js:151-158 | Authorization is "Bearer " + token exactly when there is a token, x-tenant-slug exactly when there is a slug, and the caller's other headers are kept |
| ApiClient.ErrorMessage | lib/apiClient.js:200-201 | the error message is never empty: the body's message, or "Request failed" |
| ApiClient.Settle | lib/apiClient.js:199-221 | classifying the final response keeps the list of requests sent |
| ApiClient.FetchBounds | lib/apiClient.js:166-197 | a call sends its first request with the stored token, refreshes at most once (as the second request), and sends at most two requests to the API |
| ApiClient.FirstRequestHeaders | lib/apiClient.js:146-166 | the first request carries the token and the tenant exactly when they exist |
| ApiClient.RefreshOnlyOnAuthFailure | lib/apiClient.js:168-175 | a refresh is sent exactly when the first answer is 401 or 403 and a refresh token is stored, and it carries that refresh token |
| ApiClient.RefreshSuccess | lib/apiClient.js:177-189 | a successful refresh stores the new pair over the old record, sets a seven-day cookie and retries once with the new token |
| ApiClient.RefreshFailureClears | lib/apiClient.js:190-196 | a failed refresh clears the session and does not retry; the call ends as an authentication error at /login |
| ApiClient.FinalAuthFailure | lib/apiClient.js:203-213 | a final 401/403 clears the session, navigates to /login and fails as an authentication error carrying the status |
| ApiClient.FinalOtherOutcome | lib/apiClient.js:214-221 | other failures keep the session and fail with the subscription error when the message names a lapsed subscription, with the generic error otherwise; 204 gives null; success needs a 2xx |
| ApiClient.SubscriptionMessages | lib/apiClient.js:202-215 | the messages "Subscription inactive" and "Subscription expired" are recognised through their lower-case form |
| ApiClient.SubscriptionMessageOn403IsAuthError | lib/apiClient.js:203-215 | a 403 saying "Subscription inactive" is an authentication error, because the status test comes first |
| ApiClient.SubscriptionMessageOtherwise | lib/apiClient.js:214-216 | a lapsed-subscription message on any other failing status is the subscription error |
| ApiClient.LoginLeavesStoredAuth | lib/apiClient.js:94-111 | login leaves the stored record, and so getToken, unchanged: after a login from an empty store the cookie holds the token but getToken is null |
| ApiClient.Browser.GetStoredAuth | lib/apiClient.js:59-68 | the stored record, or null outside a browser |
| ApiClient.Browser.GetToken | lib/apiClient.js:82-85 | the token as TokenOf gives it |
| ApiClient.Browser.SetStoredAuth | lib/apiClient.js:70-73 | the record is stored in a browser; outside one nothing changes |
| ApiClient.Browser.ClearStoredAuth | lib/apiClient.js:75-80 | the new state is the cleared one |
| ApiClient.Browser.SetTokenCookie | lib/apiClient.js:87-92 | the new state has the cookie write appended |
| ApiClient.Browser.GetTenantSlugFromLocation | lib/apiClient.js:139-143 | the slug of the page's path, or null outside a browser |
| ApiClient.Browser.PostCredentials | lib/apiClient.js:94-130 | state and result are those of Authenticate: a failure reports the body's message or the fallback, and a token in the reply sets only the cookie |
| ApiClient.Browser.Finish | lib/apiClient.js:199-221 | the result and new state are those of Settle |
| ApiClient.Browser.ApiFetch | lib/apiClient.js:145-222 | the result, the requests sent and the new state are those of Fetch, about which the lemmas above are proved |
| Pos.FilteredItemsSpec | pages/dashboard/pos.js:28-32 | the menu shows exactly the available items of the chosen category ("all" matches any) whose name contains the search text ignoring case |
| Pos.AddToCartSpec | pages/dashboard/pos.js:34-41 | an item already in the cart gets one more in place; a new item is appended with quantity 1; ids stay unique and quantities at least 1 |
| Pos.UpdateQuantitySpec | pages/dashboard/pos.js:43-51 | a change is applied only when the quantity stays positive; no line is dropped and the cart stays valid |
| Pos.RemoveFromCartSpec | pages/dashboard/pos.js:53-55 | exactly the line with the id leaves, the others stay in their order (the cart is the old one with position k cut out); the cart shrinks by one when the id was present and is unchanged otherwise |
| Pos.RemoveKeepsValid | pages/dashboard/pos.js:53-55 | removing keeps ids unique and quantities positive, and drops exactly one line when the id occurs |
| Pos.SubtotalAppend | pages/dashboard/pos.js:57 | the subtotal of two carts side by side is the sum of their subtotals |
| Pos.SubtotalIncrement | pages/dashboard/pos.js:57 | one more of each line with an id raises the subtotal by those lines' price |
| Pos.AddToCartSubtotal | pages/dashboard/pos.js:34-58 | adding an item raises the subtotal by its price: the new item's price, or the price its line carries |
| Pos.PosPage.constructor | pages/dashboard/pos.js:7-13 | the initial state: empty cart, category "all", payment "CASH", checkout closed |
| Pos.PosPage.ListMenu | pages/dashboard/pos.js:28-32 | the listed items are the filtered menu |
| Pos.PosPage.LoadMenu | pages/dashboard/pos.js:15-26 | a loaded menu replaces the items; a failed request changes nothing; the cart and every other field stay |
| Pos.PosPage.SelectCategory | pages/dashboard/pos.js:96-108 | the category buttons set the selected category ("all" or a category's name) and nothing else |
| Pos.PosPage.SetSearchQuery | pages/dashboard/pos.js:91 | the search box sets the query and nothing else |
| Pos.PosPage.AddToCart | pages/dashboard/pos.js:34-41 | the cart becomes CartAdd of the old cart and stays valid; the menu, category, search, customer, payment and checkout panel stay |
| Pos.PosPage.UpdateQuantity | pages/dashboard/pos.js:43-51 | the cart becomes CartUpdate of the old cart, keeps its length and stays valid; every other field stays |
| Pos.PosPage.RemoveFromCart | pages/dashboard/pos.js:53-55 | the cart becomes CartRemove of the old cart and stays valid; every other field stays |
| Pos.PosPage.HandleCheckout | pages/dashboard/pos.js:60-78 | an empty cart changes nothing; otherwise the order is placed with the cart's total, the cart, the customer name and the checkout panel are reset, and the menu, category, search and payment stay |
| Orders.Enrich | pages/dashboard/orders.js:32-38 | one row per order, the row at position i being the order tagged for position i |
| Orders.EnrichSpec | pages/dashboard/orders.js:32-38 | position mod 3 = 0 is a Foodpanda delivery; other even positions are App takeaway; odd ones are POS dine-in; even positions pay by Card, odd by Cash; every order is PAID |
| Orders.FilterRowsSpec | pages/dashboard/orders.js:56-78 | the rows kept are exactly those that pass the search and the four filters, each at most as often as in the list |
| Orders.VisibleSpec | pages/dashboard/orders.js:55-84 | the table shows exactly the rows passing every filter, sorted newest first for "Newest First" and oldest first otherwise |
| Orders.NoFilterShowsAll | pages/dashboard/orders.js:55-78 | with a blank search and every filter on "All ...", every row is shown, only reordered |
| Orders.EnrichedValues | pages/dashboard/orders.js:34-36 | enrichment only writes lower-case types and Card or Cash |
| Orders.NoRowMatches | pages/dashboard/orders.js:32-38 | no enriched row matches a capitalised type choice or the Foodpanda payment choice |
| Orders.PaymentEmpties | pages/dashboard/orders.js:68-72 | when no row matches the payment filter, nothing is shown |
| Orders.TypeEmpties | pages/dashboard/orders.js:76-78 | when no row matches the type filter, nothing is shown |
| Orders.UnreachableChoicesShowNothing | pages/dashboard/orders.js:68-78 | choosing any type other than "All Order Types", or the Foodpanda payment method, empties the table |
| Orders.MergeUpdateSpec | pages/dashboard/orders.js:47-49 | only the rows of the order change, and of them only the store's fields; source, type and payment stay |
| Orders.OrdersPage.Load | pages/dashboard/orders.js:29-41 | the rows are the store's orders, enriched |
| Orders.OrdersPage.Filtered | pages/dashboard/orders.js:55-84 | the rows shown are Visible of the rows and filters |
| Orders.OrdersPage.HandleUpdateStatus | pages/dashboard/orders.js:43-53 | the store is updated, its answer merged into the rows, and the busy marker cleared |
| Orders.CancelShowsNewStatus | pages/dashboard/orders.js:43-53 | after an update of an order the store holds, every row of that order shows the new status and no other row changes |
| Menu.CreateCategoryGuard | pages/dashboard/menu.js:38 | a category can be created exactly when its name has a character that is not white space |
| Menu.CreateItemGuard | pages/dashboard/menu.js:47 | an item can be created exactly when its name is not blank and the price and category are filled in |
| Menu.ReplaceItemSpec | pages/dashboard/menu.js:59 | the backend's item replaces every item with the id; the other items stay where and as they were |
| Menu.DeleteCategorySpec | pages/dashboard/menu.js:62-67 | deleting a category removes it and every item filed under it and keeps every other category and item as often as it occurred; a category id held once is cut out of its place, the others kept in order |
| Menu.DeleteCategoryKeepsItemOrder | pages/dashboard/menu.js:62-67 | the remaining items keep their order: the list is filtered piece by piece, each item kept exactly when filed under another category |
| Menu.DeleteItemSpec | pages/dashboard/menu.js:69-73 | exactly the items with another id remain, each as often as it occurred; an id held once is cut out of its place, the others kept in order; an absent id changes nothing |
| Menu.MenuPage.constructor | pages/dashboard/menu.js:17-24 | empty lists and forms |
| Menu.MenuPage.Load | pages/dashboard/menu.js:26-34 | both lists are loaded; the first category is preselected when none is chosen and one exists |
| Menu.MenuPage.HandleCreateCategory | pages/dashboard/menu.js:36-43 | a blank name or a failed request changes nothing; otherwise the category is appended and the form emptied |
| Menu.MenuPage.HandleCreateItem | pages/dashboard/menu.js:45-55 | a refused form or a failed request changes nothing; otherwise the item is appended and name and price are cleared while the category stays |
| Menu.MenuPage.HandleToggleAvailability | pages/dashboard/menu.js:57-60 | the opposite flag is requested, and the answer replaces the item with that id |
| Menu.MenuPage.HandleDeleteCategory | pages/dashboard/menu.js:62-67 | without confirmation or success nothing changes; otherwise the category and its items go |
| Menu.MenuPage.HandleDeleteItem | pages/dashboard/menu.js:69-73 | without confirmation or success nothing changes; otherwise the item goes |
| Menu.MenuPage.StartEditCategory | pages/dashboard/menu.js:133 | the category form takes the category's name and its description, or "" when it has none |
| Users.UpdateRequestOf | pages/dashboard/users.js:57-62 | an edit sends the password exactly when one was typed, with name, e-mail and role |
| Users.SubmitGuard | pages/dashboard/users.js:51-53 | a submission is refused exactly when name or e-mail is white space only, or a new user has no password |
| Users.ReplaceUserSpec | pages/dashboard/users.js:63 | the updated user replaces the users with its id; the others stay |
| Users.RemoveUserSpec | pages/dashboard/users.js:82 | exactly the users with another id remain, each as often as it occurred; an id held once is cut out of its place, the others kept in order |
| Users.RoleBadgeOf | pages/dashboard/users.js:86-114 | "admin" and "employee" have their own badges, and every other role shows as customer |
| Users.RoleBadgeMatchesOptions | pages/dashboard/users.js:8-12 | every role the form offers shows its option label on its badge; an unknown role reads "Customer" |
| Users.UsersPage.constructor | pages/dashboard/users.js:15-23 | no users, the empty form, not loading |
| Users.UsersPage.ResetForm | pages/dashboard/users.js:29-37 | the form is back to no id, empty fields and role "employee" |
| Users.UsersPage.StartEdit | pages/dashboard/users.js:39-47 | the form holds the user's fields with an empty password |
| Users.UsersPage.HandleSubmit | pages/dashboard/users.js:49-77 | a refused or failed submission changes neither list nor form; an edit replaces the user in place and a creation prepends it; the form is then reset and loading ends |
| Users.UsersPage.HandleDelete | pages/dashboard/users.js:79-84 | the user leaves the list, and the form is reset when it was editing that user |
| Inventory.CreateGuard | pages/dashboard/inventory.js:37 | a create is refused exactly when the name is white space only or the unit is empty |
| Inventory.CreateDefaults | pages/dashboard/inventory.js:41-44 | empty stock fields are sent as 0, and typed whole numbers as their value |
| Inventory.RequestedDelta | pages/dashboard/inventory.js:173-195 | an adjustment is sent only for a positive number; Add sends it positive, Remove negated |
| Inventory.CancelledPromptAdjustsNothing | pages/dashboard/inventory.js:174-177 | a cancelled or empty prompt reads as 0 and adjusts nothing |
| Inventory.TypedAmountAdjusts | pages/dashboard/inventory.js:173-195 | a typed whole number is added or removed as typed when positive; 0 adjusts nothing |
| Inventory.ReplaceItemSpec | pages/dashboard/inventory.js:57 | the updated item replaces the items with the id; the others stay |
| Inventory.InventoryPage.constructor | pages/dashboard/inventory.js:8-17 | no items, the empty form with unit "kg", not suspended, no error |
| Inventory.InventoryPage.Load | pages/dashboard/inventory.js:19-33 | a lapsed subscription sets `suspended`; another failure sets the error to its message or "Failed to load inventory" |
| Inventory.InventoryPage.HandleCreate | pages/dashboard/inventory.js:35-53 | a refused form sends nothing; otherwise the request with its defaults is sent, and on success the item is appended and the form reset |
| Inventory.InventoryPage.HandleAdjustStock | pages/dashboard/inventory.js:55-58 | the answer replaces the item with the id |
| Inventory.InventoryPage.AdjustClicked | pages/dashboard/inventory.js:173-195 | the adjustment sent is RequestedDelta of the prompt's answer, and the item is replaced only when one was sent and answered |
| WebsiteContent.WithDefaults | pages/dashboard/website-content.js:21-24 | missing slides become [], missing links and hours {}, missing colours {primary #EF4444, secondary #FFA500}; present parts and other fields are kept |
| WebsiteContent.DefaultsAgreeWithInputs | pages/dashboard/website-content.js:21-24 | the default colours are the ones the colour inputs fall back to, and missing links and hours show empty inputs |
| WebsiteContent.AppendSlide | pages/dashboard/website-content.js:44-56 | exactly one default slide ("Order Now", active) is appended; everything else stays |
| WebsiteContent.UpdateSlideSpec | pages/dashboard/website-content.js:58-65 | only the field of the slide at the index changes; length, other fields and other slides stay; an index out of range changes nothing |
| WebsiteContent.DropIndexSpec | pages/dashboard/website-content.js:70 | filtering out an index removes exactly the slide there and keeps the others in order; an index out of range changes nothing |
| WebsiteContent.RemoveSlide | pages/dashboard/website-content.js:67-72 | the slide at the index leaves and the others keep their order; out of range nothing changes |
| WebsiteContent.RemoveUndoesAppend | pages/dashboard/website-content.js:44-72 | removing the slide just added restores the settings |
| WebsiteContent.SetKeySpec | pages/dashboard/website-content.js:272-276 | an edit sets one key of one part, the input shows what was typed, and all other keys and parts stay |
| WebsiteContent.WebsiteContentPage.constructor | pages/dashboard/website-content.js:9-11 | no settings, not saving, tab "hero" |
| WebsiteContent.WebsiteContentPage.LoadSettings | pages/dashboard/website-content.js:17-29 | loaded settings are stored with defaults; a failed load leaves them as they were |
| WebsiteContent.WebsiteContentPage.HandleSave | pages/dashboard/website-content.js:31-42 | before the settings are loaded nothing happens; otherwise they are sent, the success or failure alert is shown, and saving ends |
| WebsiteContent.WebsiteContentPage.AddHeroSlide | pages/dashboard/website-content.js:44-56 | the settings become AppendSlide of the old ones |
| WebsiteContent.WebsiteContentPage.UpdateHeroSlide | pages/dashboard/website-content.js:58-65 | the settings become UpdateSlide of the old ones |
| WebsiteContent.WebsiteContentPage.RemoveHeroSlide | pages/dashboard/website-content.js:67-72 | the settings become RemoveSlide of the old ones |
| WebsiteContent.WebsiteContentPage.EditKey | pages/dashboard/website-content.js:294-298 | the settings become SetKey of the old ones |
| History.OptionLabelIsBadgeLabel | pages/dashboard/history.js:69-74 | each status option reads like the badge of that status: as long as the status, with no underscore |
| History.FilterOf | pages/dashboard/history.js:27-30 | the status is always passed; a date bound is set exactly when its input is not empty |
| History.ResetShowsAll | pages/dashboard/history.js:42-46 | with the reset filters the history lists every order of the store |
| History.StatusChoiceSelects | pages/dashboard/history.js:9-17 | with no dates, each status option other than ALL lists exactly the orders in that status |
| History.HistoryPage.constructor | pages/dashboard/history.js:20-35 | the initial filters are status "ALL" and empty dates, and the history is loaded with them |
| History.HistoryPage.LoadHistory | pages/dashboard/history.js:27-30 | the orders are the store's history for the given filters |
| History.HistoryPage.ApplyFilters | pages/dashboard/history.js:37-40 | the history is reloaded with the current filters, which stay |
| History.HistoryPage.ResetFilters | pages/dashboard/history.js:42-46 | the filters are reset and the history reloaded with exactly those |
| History.HistoryPage.SetStatus | pages/dashboard/history.js:62-64 | only the status filter changes; the list waits for Apply |
| History.HistoryPage.SetFrom | pages/dashboard/history.js:85-87 | only the from date changes |
| History.HistoryPage.SetTo | pages/dashboard/history.js:97-99 | only the to date changes |

## Left out

- Networking, localStorage, `document.cookie` and navigation are fields of
  `ApiClient.Browser` or parameters. Their I/O is not modelled.
- `verifyJwt` (lib/auth) is not part of this model. Signature and expiry
  checks live behind the oracle.
- Each handler runs start to end as one step. Asynchronous interleaving is
  not modelled: overlapping requests, state updates after unmount, and
  concurrent refreshes.
- Browser dialogs are parameters of the handlers: `confirm` is `confirmed`,
  `prompt` is `answer`, and `alert` is a returned value.
- Prices, totals and stock amounts are integers. Floating point is not
  modelled: `parseFloat` in the menu form, `toFixed`, and fractional
  amounts typed into the inventory prompt.
- Inventory.ToNumber computes `Number(text)` exactly only in two cases:
  blank text, and an optionally signed run of decimal digits. Every other
  text (fractions, exponents, hexadecimal, "Infinity") goes to the `other`
  parameter.
- `new Date(text)` is not modelled. Order times are integer timestamps, and
  history dates go through the `dateOf` parameter. An unparsable date (a NaN
  bound) is not modelled, because the date inputs produce valid dates or
  nothing.
- Case mapping is ASCII only: `toLowerCase` and `toUpperCase` on letters
  outside A-Z are not modelled.
- `JSON.parse` and `JSON.stringify` are not modelled:
  - a body is a map of string fields, or None when it is not JSON;
  - a stored auth record that does not parse is not modelled;
  - the fallback `{}` for an unreadable error body is None.
- `encodeURIComponent` on the cookie value is the identity in the model.
- StatusBadge.BadgeClass: a status naming an inherited object property
  (such as "constructor") is not modelled; the table is a plain map.
- WebsiteContent.WebsiteContentPage.HandleSave: the failure alert uses the
  message given. The model does not cover "undefined" appearing when a
  thrown value has no message.
- Menu.MenuPage.Load reads the item form's current category. The source's
  effect reads the category captured at mount, which is always "". The two
  agree, because loading happens on mount.
- The tab buttons of the website content page are left out. They are
  presentational and only select which editor is shown.
- Layout components are left out: `AdminLayout`, `Card`, `Button` and
  `DataTable`.
- These pages are not part of this model: `pages/index.js`,
  `pages/login.js` and `pages/dashboard/overview.js`.
- The one-line CRUD wrappers of lib/apiClient.js are left out. They only
  forward a path to `apiFetch`, which is modelled.
- Pos.PosPage.LoadMenu: stores only the menu's items. The categories the
  response also carries only label the category buttons, and the button
  sends the category's name, which SelectCategory takes as its argument.
