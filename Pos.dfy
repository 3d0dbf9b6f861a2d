/** pages/dashboard/pos.js: the point-of-sale page. The menu is filtered by
    category and search text; the cart is a list of lines, one per menu
    item, each with a quantity; checkout empties it. Prices are integers
    (cents): the page's floating-point arithmetic is not modelled. */
module Pos {
  import opened Common
  import opened Lists

  datatype MenuItem = MenuItem(id: string, name: string, category: string, price: int, available: bool)

  /** A cart line: the menu item spread into a new object with a quantity. */
  datatype CartLine = CartLine(item: MenuItem, quantity: int)

  /** The test of `filteredItems`: the category matches ("all" matches
      every one), the name holds the search text whatever the case, and the
      item is available. */
  predicate Shown(item: MenuItem, selectedCategory: string, searchQuery: string) {
    (selectedCategory == "all" || item.category == selectedCategory)
    && Includes(Lower(item.name), Lower(searchQuery))
    && item.available
  }

  function FilteredItems(items: seq<MenuItem>, selectedCategory: string, searchQuery: string): seq<MenuItem> {
    Filter(items, (item: MenuItem) => Shown(item, selectedCategory, searchQuery))
  }

  /** The menu shows exactly the available items of the selected category
      whose name holds the search text; "all" with an empty search shows
      every available item. */
  lemma FilteredItemsSpec(items: seq<MenuItem>, selectedCategory: string, searchQuery: string)
    ensures forall item :: item in FilteredItems(items, selectedCategory, searchQuery) <==>
      item in items && item.available
      && (selectedCategory == "all" || item.category == selectedCategory)
      && exists i :: OccursAt(Lower(item.name), Lower(searchQuery), i)
    ensures selectedCategory == "all" && searchQuery == "" ==>
      forall item :: item in FilteredItems(items, selectedCategory, searchQuery) <==> item in items && item.available
  {
    FilterMembers(items, (item: MenuItem) => Shown(item, selectedCategory, searchQuery));
    forall item: MenuItem
      ensures (Includes(Lower(item.name), Lower(searchQuery)) <==> exists i :: OccursAt(Lower(item.name), Lower(searchQuery), i))
      ensures Includes(Lower(item.name), "")
    {
      IncludesIff(Lower(item.name), Lower(searchQuery));
      IncludesEmpty(Lower(item.name));
    }
  }

  predicate HasId(cart: seq<CartLine>, id: string) {
    exists i :: 0 <= i < |cart| && cart[i].item.id == id
  }

  /** The cart invariant: one line per item, and every quantity at least 1. */
  predicate ValidCart(cart: seq<CartLine>) {
    (forall i, j :: 0 <= i < j < |cart| ==> cart[i].item.id != cart[j].item.id)
    && forall i :: 0 <= i < |cart| ==> cart[i].quantity >= 1
  }

  /** addToCart(item). */
  function CartAdd(cart: seq<CartLine>, item: MenuItem): seq<CartLine> {
    if Find(cart, (l: CartLine) => l.item.id == item.id).Some? then
      MapWhere(cart, (l: CartLine) => l.item.id == item.id, (l: CartLine) => l.(quantity := l.quantity + 1))
    else
      cart + [CartLine(item, 1)]
  }

  /** An item already in the cart gets one more of it in place; a new item
      is appended with quantity 1. Either way the cart stays valid. */
  lemma AddToCartSpec(cart: seq<CartLine>, item: MenuItem)
    requires ValidCart(cart)
    ensures ValidCart(CartAdd(cart, item))
    ensures HasId(cart, item.id) ==>
      |CartAdd(cart, item)| == |cart|
      && forall i :: 0 <= i < |cart| ==>
           CartAdd(cart, item)[i] == if cart[i].item.id == item.id then cart[i].(quantity := cart[i].quantity + 1) else cart[i]
    ensures !HasId(cart, item.id) ==> CartAdd(cart, item) == cart + [CartLine(item, 1)]
  {
    FindFirst(cart, (l: CartLine) => l.item.id == item.id);
    MapWhereAt(cart, (l: CartLine) => l.item.id == item.id, (l: CartLine) => l.(quantity := l.quantity + 1));
  }

  /** updateQuantity(itemId, change): the new quantity is taken only when
      it stays positive; lines whose quantity is not positive are then
      dropped. */
  function CartUpdate(cart: seq<CartLine>, itemId: string, change: int): seq<CartLine> {
    var changed := MapWhere(cart, (l: CartLine) => l.item.id == itemId,
                            (l: CartLine) => if l.quantity + change > 0 then l.(quantity := l.quantity + change) else l);
    Filter(changed, (l: CartLine) => l.quantity > 0)
  }

  /** On a valid cart, updating a quantity never drops a line: the line
      takes the new quantity when it is positive and is left as it was
      otherwise; every other line is unchanged. */
  lemma UpdateQuantitySpec(cart: seq<CartLine>, itemId: string, change: int)
    requires ValidCart(cart)
    ensures ValidCart(CartUpdate(cart, itemId, change))
    ensures |CartUpdate(cart, itemId, change)| == |cart|
    ensures forall i :: 0 <= i < |cart| ==>
      CartUpdate(cart, itemId, change)[i] ==
        if cart[i].item.id == itemId && cart[i].quantity + change > 0
        then cart[i].(quantity := cart[i].quantity + change) else cart[i]
  {
    var sel := (l: CartLine) => l.item.id == itemId;
    var f := (l: CartLine) => if l.quantity + change > 0 then l.(quantity := l.quantity + change) else l;
    var changed := MapWhere(cart, sel, f);
    MapWhereAt(cart, sel, f);
    FilterKeepsAll(changed, (l: CartLine) => l.quantity > 0);
  }

  /** removeFromCart(itemId). */
  function CartRemove(cart: seq<CartLine>, itemId: string): seq<CartLine> {
    Filter(cart, (l: CartLine) => l.item.id != itemId)
  }

  /** Removing an item drops its line and keeps every other line, in
      order; the cart stays valid. */
  lemma RemoveFromCartSpec(cart: seq<CartLine>, itemId: string)
    requires ValidCart(cart)
    ensures ValidCart(CartRemove(cart, itemId))
    ensures forall k :: 0 <= k < |cart| && cart[k].item.id == itemId ==>
      CartRemove(cart, itemId) == cart[..k] + cart[k + 1..]
    ensures !HasId(CartRemove(cart, itemId), itemId)
    ensures forall l :: l in CartRemove(cart, itemId) <==> l in cart && l.item.id != itemId
    ensures HasId(cart, itemId) ==> |CartRemove(cart, itemId)| == |cart| - 1
    ensures !HasId(cart, itemId) ==> CartRemove(cart, itemId) == cart
  {
    RemoveKeepsValid(cart, itemId);
    var r := CartRemove(cart, itemId);
    FilterMembers(cart, (l: CartLine) => l.item.id != itemId);
    forall i | 0 <= i < |r| ensures r[i].item.id != itemId {
      assert r[i] in r;
    }
    if !HasId(cart, itemId) {
      FilterKeepsAll(cart, (l: CartLine) => l.item.id != itemId);
    }
    forall k | 0 <= k < |cart| && cart[k].item.id == itemId
      ensures CartRemove(cart, itemId) == cart[..k] + cart[k + 1..]
    {
      forall i | 0 <= i < |cart| && i != k ensures cart[i].item.id != itemId {
        if i < k { assert cart[i].item.id != cart[k].item.id; }
        else { assert cart[k].item.id != cart[i].item.id; }
      }
      FilterRemovesAt(cart, (l: CartLine) => l.item.id != itemId, k);
    }
  }

  /** The rest of a valid cart is valid and holds no line for the first
      line's item. */
  lemma ValidRest(cart: seq<CartLine>)
    requires ValidCart(cart) && cart != []
    ensures ValidCart(cart[1..])
    ensures !HasId(cart[1..], cart[0].item.id)
    ensures forall id :: HasId(cart, id) <==> cart[0].item.id == id || HasId(cart[1..], id)
  {
    var rest := cart[1..];
    forall i | 0 <= i < |rest| ensures rest[i] == cart[i + 1] { }
    forall id ensures HasId(cart, id) ==> cart[0].item.id == id || HasId(rest, id) {
      if HasId(cart, id) {
        var i :| 0 <= i < |cart| && cart[i].item.id == id;
        if i > 0 { assert rest[i - 1] == cart[i]; }
      }
    }
  }

  /** A line put before a valid cart without its item keeps it valid. */
  lemma ValidCons(line: CartLine, cart: seq<CartLine>)
    requires ValidCart(cart) && line.quantity >= 1 && !HasId(cart, line.item.id)
    ensures ValidCart([line] + cart)
  {
    var r := [line] + cart;
    forall i | 1 <= i < |r| ensures r[i] == cart[i - 1] { }
  }

  /** Filtering a valid cart keeps it valid; dropping an id that occurs
      once shortens the cart by exactly one. */
  lemma {:induction false} RemoveKeepsValid(cart: seq<CartLine>, itemId: string)
    requires ValidCart(cart)
    ensures ValidCart(CartRemove(cart, itemId))
    ensures HasId(cart, itemId) ==> |CartRemove(cart, itemId)| == |cart| - 1
    ensures !HasId(cart, itemId) ==> |CartRemove(cart, itemId)| == |cart|
  {
    if cart != [] {
      var rest := cart[1..];
      ValidRest(cart);
      RemoveKeepsValid(rest, itemId);
      var tail := CartRemove(rest, itemId);
      if cart[0].item.id != itemId {
        FilterMembers(rest, (l: CartLine) => l.item.id != itemId);
        assert !HasId(tail, cart[0].item.id) by {
          forall j | 0 <= j < |tail| ensures tail[j].item.id != cart[0].item.id {
            assert tail[j] in rest;
          }
        }
        ValidCons(cart[0], tail);
        assert CartRemove(cart, itemId) == [cart[0]] + tail;
      }
    }
  }

  /** `cart.reduce((sum, item) => sum + item.price * item.quantity, 0)`. */
  function Subtotal(cart: seq<CartLine>): int {
    if cart == [] then 0 else cart[0].item.price * cart[0].quantity + Subtotal(cart[1..])
  }

  /** `total` is the subtotal: no tax or fee is added. */
  function Total(cart: seq<CartLine>): int {
    Subtotal(cart)
  }

  /** The subtotal of two carts side by side is the sum of theirs. */
  lemma {:induction false} SubtotalAppend(a: seq<CartLine>, b: seq<CartLine>)
    ensures Subtotal(a + b) == Subtotal(a) + Subtotal(b)
  {
    if a != [] {
      SubtotalAppend(a[1..], b);
      assert (a + b)[1..] == a[1..] + b;
    } else {
      assert a + b == b;
    }
  }

  /** The summed price of the lines with a given id. */
  function PriceOfLines(cart: seq<CartLine>, id: string): int {
    if cart == [] then 0 else (if cart[0].item.id == id then cart[0].item.price else 0) + PriceOfLines(cart[1..], id)
  }

  /** Adding one more of the lines with an id raises the subtotal by their
      price. */
  lemma {:induction false} SubtotalIncrement(cart: seq<CartLine>, id: string)
    ensures Subtotal(MapWhere(cart, (l: CartLine) => l.item.id == id, (l: CartLine) => l.(quantity := l.quantity + 1)))
      == Subtotal(cart) + PriceOfLines(cart, id)
  {
    if cart != [] {
      SubtotalIncrement(cart[1..], id);
    }
  }

  /** Adding an item to the cart raises the subtotal by one unit of its
      price: the new item's price when it was not in the cart, the price
      its line was added at otherwise. */
  lemma AddToCartSubtotal(cart: seq<CartLine>, item: MenuItem)
    ensures !HasId(cart, item.id) ==> Subtotal(CartAdd(cart, item)) == Subtotal(cart) + item.price
    ensures HasId(cart, item.id) ==> Subtotal(CartAdd(cart, item)) == Subtotal(cart) + PriceOfLines(cart, item.id)
  {
    FindFirst(cart, (l: CartLine) => l.item.id == item.id);
    if HasId(cart, item.id) {
      SubtotalIncrement(cart, item.id);
    } else {
      SubtotalAppend(cart, [CartLine(item, 1)]);
    }
  }

  /** What handleCheckout reports to the cashier. */
  datatype CheckoutOutcome = CartEmpty | OrderPlaced(customerName: string, items: seq<CartLine>, paymentMethod: string, total: int)

  /** The state of the point-of-sale page. */
  class PosPage {
    var menuItems: seq<MenuItem>
    var cart: seq<CartLine>
    var selectedCategory: string
    var searchQuery: string
    var customerName: string
    var paymentMethod: string
    var showCheckout: bool

    predicate Valid()
      reads this
    {
      ValidCart(cart)
    }

    constructor ()
      ensures Valid()
      ensures menuItems == [] && cart == [] && selectedCategory == "all" && searchQuery == ""
      ensures customerName == "" && paymentMethod == "CASH" && !showCheckout
    {
      menuItems := [];
      cart := [];
      selectedCategory := "all";
      searchQuery := "";
      customerName := "";
      paymentMethod := "CASH";
      showCheckout := false;
    }

    /** loadMenu(), with the menu's items (None when the request failed:
        the error is logged and the state stays). */
    method LoadMenu(data: Option<seq<MenuItem>>)
      requires Valid()
      modifies this
      ensures Valid()
      ensures menuItems == if data.Some? then data.value else old(menuItems)
      ensures unchanged(this`cart, this`selectedCategory, this`searchQuery, this`customerName, this`paymentMethod, this`showCheckout)
    {
      if data.Some? {
        menuItems := data.value;
      }
    }

    /** The category buttons: "all", or a category's name. */
    method SelectCategory(category: string)
      requires Valid()
      modifies this
      ensures Valid()
      ensures selectedCategory == category
      ensures unchanged(this`menuItems, this`cart, this`searchQuery, this`customerName, this`paymentMethod, this`showCheckout)
    {
      selectedCategory := category;
    }

    /** The search box. */
    method SetSearchQuery(query: string)
      requires Valid()
      modifies this
      ensures Valid()
      ensures searchQuery == query
      ensures unchanged(this`menuItems, this`cart, this`selectedCategory, this`customerName, this`paymentMethod, this`showCheckout)
    {
      searchQuery := query;
    }

    /** The items the menu pane lists. */
    method ListMenu() returns (r: seq<MenuItem>)
      ensures r == FilteredItems(menuItems, selectedCategory, searchQuery)
    {
      r := FilteredItems(menuItems, selectedCategory, searchQuery);
    }

    method AddToCart(item: MenuItem)
      requires Valid()
      modifies this
      ensures Valid()
      ensures cart == CartAdd(old(cart), item)
      ensures unchanged(this`menuItems, this`selectedCategory, this`searchQuery, this`customerName, this`paymentMethod, this`showCheckout)
    {
      AddToCartSpec(cart, item);
      cart := CartAdd(cart, item);
    }

    method UpdateQuantity(itemId: string, change: int)
      requires Valid()
      modifies this
      ensures Valid()
      ensures cart == CartUpdate(old(cart), itemId, change)
      ensures |cart| == |old(cart)|
      ensures unchanged(this`menuItems, this`selectedCategory, this`searchQuery, this`customerName, this`paymentMethod, this`showCheckout)
    {
      UpdateQuantitySpec(cart, itemId, change);
      cart := CartUpdate(cart, itemId, change);
    }

    method RemoveFromCart(itemId: string)
      requires Valid()
      modifies this
      ensures Valid()
      ensures cart == CartRemove(old(cart), itemId)
      ensures unchanged(this`menuItems, this`selectedCategory, this`searchQuery, this`customerName, this`paymentMethod, this`showCheckout)
    {
      RemoveFromCartSpec(cart, itemId);
      cart := CartRemove(cart, itemId);
    }

    /** handleCheckout(): an empty cart changes nothing; otherwise the
        order is placed with the cart's total, and the cart, the customer
        name and the checkout panel are reset. */
    method HandleCheckout() returns (outcome: CheckoutOutcome)
      requires Valid()
      modifies this
      ensures Valid()
      ensures old(cart) == [] ==> outcome == CartEmpty && unchanged(this)
      ensures old(cart) != [] ==>
        outcome == OrderPlaced(old(customerName), old(cart), old(paymentMethod), Total(old(cart)))
        && cart == [] && customerName == "" && !showCheckout
        && paymentMethod == old(paymentMethod) && menuItems == old(menuItems)
        && selectedCategory == old(selectedCategory) && searchQuery == old(searchQuery)
    {
      if |cart| == 0 {
        return CartEmpty;
      }
      outcome := OrderPlaced(customerName, cart, paymentMethod, Total(cart));
      cart := [];
      customerName := "";
      showCheckout := false;
    }
  }
}
