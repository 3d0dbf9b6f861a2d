/** pages/dashboard/menu.js: the menu page, a list of categories and a list
    of items, each with a small creation form. Every handler waits for the
    backend and then replaces the lists; the backend's answer is a
    parameter, None when the request failed (the handler then stops before
    changing anything). */
module Menu {
  import opened Common
  import opened Lists

  /** A category as the backend returns it; the description may be missing. */
  datatype Category = Category(id: string, name: string, description: Option<string>)

  /** A menu item; the price is in cents. */
  datatype Item = Item(id: string, name: string, price: int, categoryId: string, available: bool)

  datatype CategoryForm = CategoryForm(name: string, description: string)

  /** The item form holds the price as typed. */
  datatype ItemForm = ItemForm(name: string, price: string, categoryId: string)

  const EmptyCategoryForm := CategoryForm("", "")

  /** The guard of handleCreateCategory: a name that is not blank. */
  predicate CanCreateCategory(form: CategoryForm) {
    !Blank(form.name)
  }

  /** The guard of handleCreateItem: a name that is not blank, a price and
      a category. */
  predicate CanCreateItem(form: ItemForm) {
    !Blank(form.name) && form.price != "" && form.categoryId != ""
  }

  /** A category can be created exactly when its name has a character that
      is not white space. */
  lemma CreateCategoryGuard(form: CategoryForm)
    ensures CanCreateCategory(form) <==> exists i :: 0 <= i < |form.name| && !IsSpace(form.name[i])
  {
    BlankIffAllSpace(form.name);
  }

  /** An item can be created exactly when its name has a character that is
      not white space and the price and category were filled in. */
  lemma CreateItemGuard(form: ItemForm)
    ensures CanCreateItem(form) <==>
      (exists i :: 0 <= i < |form.name| && !IsSpace(form.name[i])) && |form.price| > 0 && |form.categoryId| > 0
  {
    BlankIffAllSpace(form.name);
  }

  /** `prev.map(i => i.id === id ? updated : i)`. */
  function ReplaceItem(items: seq<Item>, id: string, updated: Item): seq<Item> {
    MapWhere(items, (i: Item) => i.id == id, (i: Item) => updated)
  }

  /** Replacing puts the backend's item where the item with that id was,
      and leaves every other item where and as it was. */
  lemma ReplaceItemSpec(items: seq<Item>, id: string, updated: Item)
    ensures |ReplaceItem(items, id, updated)| == |items|
    ensures forall k :: 0 <= k < |items| ==>
      ReplaceItem(items, id, updated)[k] == if items[k].id == id then updated else items[k]
  {
    MapWhereAt(items, (i: Item) => i.id == id, (i: Item) => updated);
  }

  /** The two lists after a category is deleted. */
  function DeleteCategory(categories: seq<Category>, items: seq<Item>, id: string): (seq<Category>, seq<Item>) {
    (Filter(categories, (c: Category) => c.id != id), Filter(items, (i: Item) => i.categoryId != id))
  }

  /** Deleting a category removes it and every item filed under it, keeps
      every other category and item as often as it occurred, and leaves no
      item pointing at it; a category id held once is cut out of its place
      with the others kept in order. */
  lemma DeleteCategorySpec(categories: seq<Category>, items: seq<Item>, id: string)
    ensures forall c :: c in DeleteCategory(categories, items, id).0 <==> c in categories && c.id != id
    ensures forall i :: i in DeleteCategory(categories, items, id).1 <==> i in items && i.categoryId != id
    ensures forall c :: multiset(DeleteCategory(categories, items, id).0)[c]
                        == (if c.id != id then multiset(categories)[c] else 0)
    ensures forall i :: multiset(DeleteCategory(categories, items, id).1)[i]
                        == (if i.categoryId != id then multiset(items)[i] else 0)
    ensures forall k :: 0 <= k < |categories| && categories[k].id == id && OnlyCategoryAt(categories, id, k) ==>
      DeleteCategory(categories, items, id).0 == categories[..k] + categories[k + 1..]
    ensures |DeleteCategory(categories, items, id).0| <= |categories|
    ensures |DeleteCategory(categories, items, id).1| <= |items|
  {
    var keepCategory := (c: Category) => c.id != id;
    var keepItem := (i: Item) => i.categoryId != id;
    FilterMembers(categories, keepCategory);
    FilterMembers(items, keepItem);
    forall c { FilterCount(categories, keepCategory, c); }
    forall i { FilterCount(items, keepItem, i); }
    forall k | 0 <= k < |categories| && categories[k].id == id && OnlyCategoryAt(categories, id, k) {
      FilterRemovesAt(categories, keepCategory, k);
    }
  }

  /** No category but the one at k has this id. */
  predicate OnlyCategoryAt(categories: seq<Category>, id: string, k: int) {
    forall j :: 0 <= j < |categories| && j != k ==> categories[j].id != id
  }

  /** The items left by a category deletion keep their order: the list is
      filtered piece by piece, each item kept exactly when it is filed
      under another category. */
  lemma DeleteCategoryKeepsItemOrder(categories: seq<Category>, a: seq<Item>, b: seq<Item>, item: Item, id: string)
    ensures DeleteCategory(categories, a + b, id).1 == DeleteCategory(categories, a, id).1 + DeleteCategory(categories, b, id).1
    ensures DeleteCategory(categories, [item], id).1 == if item.categoryId != id then [item] else []
  {
    var keep := (i: Item) => i.categoryId != id;
    FilterAppend(a, b, keep);
    assert [item][1..] == [];
    assert Filter([item], keep) == (if keep(item) then [item] else []) + Filter([], keep);
  }

  /** `prev.filter(i => i.id !== id)`. */
  function DeleteItem(items: seq<Item>, id: string): seq<Item> {
    Filter(items, (i: Item) => i.id != id)
  }

  /** Deleting an item keeps exactly the items with another id, each as
      often as it occurred; an id held once is cut out of its place with
      the others kept in order, and an absent id changes nothing. */
  lemma DeleteItemSpec(items: seq<Item>, id: string)
    ensures forall i :: i in DeleteItem(items, id) <==> i in items && i.id != id
    ensures forall i :: multiset(DeleteItem(items, id))[i] == if i.id != id then multiset(items)[i] else 0
    ensures forall k :: 0 <= k < |items| && items[k].id == id && OnlyItemAt(items, id, k) ==>
      DeleteItem(items, id) == items[..k] + items[k + 1..]
    ensures (forall k :: 0 <= k < |items| ==> items[k].id != id) ==> DeleteItem(items, id) == items
  {
    var keep := (i: Item) => i.id != id;
    FilterMembers(items, keep);
    forall i { FilterCount(items, keep, i); }
    forall k | 0 <= k < |items| && items[k].id == id && OnlyItemAt(items, id, k) {
      FilterRemovesAt(items, keep, k);
    }
    if forall k :: 0 <= k < |items| ==> items[k].id != id {
      FilterKeepsAll(items, keep);
    }
  }

  /** No item but the one at k has this id. */
  predicate OnlyItemAt(items: seq<Item>, id: string, k: int) {
    forall j :: 0 <= j < |items| && j != k ==> items[j].id != id
  }

  /** The state of the menu page. */
  class MenuPage {
    var categories: seq<Category>
    var items: seq<Item>
    var catForm: CategoryForm
    var itemForm: ItemForm

    constructor ()
      ensures categories == [] && items == [] && catForm == EmptyCategoryForm && itemForm == ItemForm("", "", "")
    {
      categories := [];
      items := [];
      catForm := EmptyCategoryForm;
      itemForm := ItemForm("", "", "");
    }

    /** The load effect: both lists from the menu, and the first category
        preselected in the item form when none is chosen. */
    method Load(loadedCategories: seq<Category>, loadedItems: seq<Item>)
      modifies this
      ensures categories == loadedCategories && items == loadedItems && catForm == old(catForm)
      ensures old(itemForm.categoryId) == "" && |loadedCategories| > 0 ==>
        itemForm == old(itemForm).(categoryId := loadedCategories[0].id)
      ensures !(old(itemForm.categoryId) == "" && |loadedCategories| > 0) ==> itemForm == old(itemForm)
    {
      categories := loadedCategories;
      items := loadedItems;
      if itemForm.categoryId == "" && |loadedCategories| > 0 {
        itemForm := itemForm.(categoryId := loadedCategories[0].id);
      }
    }

    /** handleCreateCategory: `created` is the backend's category. */
    method HandleCreateCategory(created: Option<Category>)
      modifies this
      ensures !CanCreateCategory(old(catForm)) || created.None? ==> unchanged(this)
      ensures CanCreateCategory(old(catForm)) && created.Some? ==>
        categories == old(categories) + [created.value] && catForm == EmptyCategoryForm
        && items == old(items) && itemForm == old(itemForm)
    {
      if Blank(catForm.name) { return; }
      if created.None? { return; }
      categories := categories + [created.value];
      catForm := EmptyCategoryForm;
    }

    /** handleCreateItem: `created` is the backend's item. The category
        stays selected for the next item. */
    method HandleCreateItem(created: Option<Item>)
      modifies this
      ensures !CanCreateItem(old(itemForm)) || created.None? ==> unchanged(this)
      ensures CanCreateItem(old(itemForm)) && created.Some? ==>
        items == old(items) + [created.value] && itemForm == ItemForm("", "", old(itemForm.categoryId))
        && categories == old(categories) && catForm == old(catForm)
    {
      if Blank(itemForm.name) || itemForm.price == "" || itemForm.categoryId == "" { return; }
      if created.None? { return; }
      items := items + [created.value];
      itemForm := itemForm.(name := "", price := "");
    }

    /** handleToggleAvailability(item): asks for the opposite flag and puts
        the backend's answer in place of the item. */
    method HandleToggleAvailability(item: Item, updated: Option<Item>) returns (requested: bool)
      modifies this
      ensures requested == !item.available
      ensures updated.None? ==> unchanged(this)
      ensures updated.Some? ==> items == ReplaceItem(old(items), item.id, updated.value)
      ensures categories == old(categories) && catForm == old(catForm) && itemForm == old(itemForm)
    {
      requested := !item.available;
      if updated.None? { return; }
      items := ReplaceItem(items, item.id, updated.value);
    }

    /** handleDeleteCategory(id), after the confirmation dialog and the
        DELETE request. */
    method HandleDeleteCategory(id: string, confirmed: bool, deleted: bool)
      modifies this
      ensures !confirmed || !deleted ==> unchanged(this)
      ensures confirmed && deleted ==>
        (categories, items) == DeleteCategory(old(categories), old(items), id)
        && catForm == old(catForm) && itemForm == old(itemForm)
    {
      if !confirmed { return; }
      if !deleted { return; }
      categories := Filter(categories, (c: Category) => c.id != id);
      items := Filter(items, (i: Item) => i.categoryId != id);
    }

    /** handleDeleteItem(id), after the confirmation dialog and the DELETE
        request. */
    method HandleDeleteItem(id: string, confirmed: bool, deleted: bool)
      modifies this
      ensures !confirmed || !deleted ==> unchanged(this)
      ensures confirmed && deleted ==>
        items == DeleteItem(old(items), id)
        && categories == old(categories) && catForm == old(catForm) && itemForm == old(itemForm)
    {
      if !confirmed { return; }
      if !deleted { return; }
      items := DeleteItem(items, id);
    }

    /** The edit button of a category copies it into the category form,
        with an empty description when it has none. */
    method StartEditCategory(cat: Category)
      modifies this
      ensures catForm.name == cat.name
      ensures catForm.description == if Truthy(cat.description) then cat.description.value else ""
      ensures categories == old(categories) && items == old(items) && itemForm == old(itemForm)
    {
      catForm := CategoryForm(cat.name, if Truthy(cat.description) then cat.description.value else "");
    }
  }
}
