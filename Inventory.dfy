/** pages/dashboard/inventory.js: the inventory page. Items are created from
    a form whose numeric fields default to 0, and their stock is adjusted by
    amounts typed into a prompt. Loading can fail because the subscription
    lapsed (the page is then shown as suspended) or for any other reason
    (its message is shown). */
module Inventory {
  import opened Common
  import opened Lists

  datatype Item = Item(id: string, name: string, unit: string, currentStock: int, lowStockThreshold: int)

  datatype Form = Form(name: string, unit: string, initialStock: string, lowStockThreshold: string)

  const EmptyForm := Form("", "kg", "", "")

  /** The value of `Number(text)`: a number, or NaN. */
  datatype Num = NaN | Num(value: int)

  predicate IsDigit(c: char) { '0' <= c <= '9' }

  predicate AllDigits(s: string) {
    forall i :: 0 <= i < |s| ==> IsDigit(s[i])
  }

  /** The value of a string of decimal digits. */
  function DigitsValue(s: string): (v: nat)
    requires AllDigits(s)
  {
    if s == [] then 0 else DigitsValue(s[..|s| - 1]) * 10 + (s[|s| - 1] as int - '0' as int)
  }

  /** `Number(text)` on the texts the model reads exactly: white space only
      is 0, and an optionally signed run of decimal digits is its value.
      Every other text (fractions, exponents, hexadecimal, "Infinity", words)
      goes to `other`, which stands for the rest of the conversion. */
  function ToNumber(text: string, other: string -> Num): Num {
    var t := Trim(text);
    if t == "" then Num(0)
    else if AllDigits(t) then Num(DigitsValue(t))
    else if t[0] == '+' && |t| > 1 && AllDigits(t[1..]) then Num(DigitsValue(t[1..]))
    else if t[0] == '-' && |t| > 1 && AllDigits(t[1..]) then Num(-(DigitsValue(t[1..]) as int))
    else other(t)
  }

  /** The body of the create request. */
  datatype CreateRequest = CreateRequest(name: string, unit: string, initialStock: Num, lowStockThreshold: Num)

  /** handleCreate's guard: a name that is not blank and a unit. */
  predicate CanCreate(form: Form) {
    !Blank(form.name) && form.unit != ""
  }

  /** `text ? Number(text) : 0`. */
  function NumberOrZero(text: string, other: string -> Num): Num {
    if text != "" then ToNumber(text, other) else Num(0)
  }

  function CreateRequestOf(form: Form, other: string -> Num): CreateRequest {
    CreateRequest(form.name, form.unit, NumberOrZero(form.initialStock, other), NumberOrZero(form.lowStockThreshold, other))
  }

  /** Empty numeric fields are sent as 0, typed whole numbers as their
      value. */
  lemma CreateDefaults(form: Form, other: string -> Num)
    ensures form.initialStock == "" ==> CreateRequestOf(form, other).initialStock == Num(0)
    ensures form.lowStockThreshold == "" ==> CreateRequestOf(form, other).lowStockThreshold == Num(0)
    ensures form.initialStock != "" && AllDigits(form.initialStock) ==>
      CreateRequestOf(form, other).initialStock == Num(DigitsValue(form.initialStock))
    ensures form.lowStockThreshold != "" && AllDigits(form.lowStockThreshold) ==>
      CreateRequestOf(form, other).lowStockThreshold == Num(DigitsValue(form.lowStockThreshold))
  {
    if form.initialStock != "" && AllDigits(form.initialStock) {
      TrimOfDigits(form.initialStock);
    }
    if form.lowStockThreshold != "" && AllDigits(form.lowStockThreshold) {
      TrimOfDigits(form.lowStockThreshold);
    }
  }

  /** A create is refused exactly when the name is white space only or the
      unit is empty. */
  lemma CreateGuard(form: Form)
    ensures !CanCreate(form) <==> (forall i :: 0 <= i < |form.name| ==> IsSpace(form.name[i])) || form.unit == ""
  {
    BlankIffAllSpace(form.name);
  }

  /** The stock change the Add (or, with `remove`, the Remove) button asks
      for, given what was typed into the prompt (None when it was
      cancelled): `Number(answer || "0")`, sent only when it is a positive
      number, and negated for Remove. */
  function RequestedDelta(answer: Option<string>, remove: bool, other: string -> Num): (d: Option<int>)
    ensures d.Some? ==> (if remove then d.value < 0 else d.value > 0)
  {
    var amount := ToNumber(if Truthy(answer) then answer.value else "0", other);
    if amount.Num? && amount.value > 0 then Some(if remove then -amount.value else amount.value) else None
  }

  /** A cancelled or empty prompt reads as "0" and adjusts nothing. */
  lemma CancelledPromptAdjustsNothing(answer: Option<string>, remove: bool, other: string -> Num)
    requires !Truthy(answer)
    ensures RequestedDelta(answer, remove, other).None?
  {
    TrimOfDigits("0");
    assert DigitsValue("0") == 0 by { assert "0"[..0] == ""; }
  }

  /** A whole number typed into the prompt is added, or removed, as typed
      when it is positive; zero adjusts nothing. */
  lemma TypedAmountAdjusts(answer: Option<string>, remove: bool, other: string -> Num)
    requires Truthy(answer) && AllDigits(answer.value)
    ensures RequestedDelta(answer, remove, other) ==
      if DigitsValue(answer.value) > 0 then Some(if remove then -(DigitsValue(answer.value) as int) else DigitsValue(answer.value) as int) else None
  {
    TrimOfDigits(answer.value);
  }

  /** Trimming leaves a string of digits as it is. */
  lemma TrimOfDigits(s: string)
    requires AllDigits(s) && s != []
    ensures Trim(s) == s
  {
    assert !IsSpace(s[0]) && !IsSpace(s[|s| - 1]);
    var t := TrimStart(s);
    assert t == s;
    var u := TrimEnd(t);
  }

  /** `prev.map(i => i.id === id ? updated : i)`. */
  function ReplaceItem(items: seq<Item>, id: string, updated: Item): seq<Item> {
    MapWhere(items, (i: Item) => i.id == id, (i: Item) => updated)
  }

  lemma ReplaceItemSpec(items: seq<Item>, id: string, updated: Item)
    ensures |ReplaceItem(items, id, updated)| == |items|
    ensures forall k :: 0 <= k < |items| ==>
      ReplaceItem(items, id, updated)[k] == if items[k].id == id then updated else items[k]
  {
    MapWhereAt(items, (i: Item) => i.id == id, (i: Item) => updated);
  }

  /** How loading the inventory ends. */
  datatype LoadOutcome = Loaded(items: seq<Item>) | SubscriptionLapsed | Failed(message: Option<string>)

  /** The state of the inventory page. */
  class InventoryPage {
    var items: seq<Item>
    var form: Form
    var suspended: bool
    var error: string

    constructor ()
      ensures items == [] && form == EmptyForm && !suspended && error == ""
    {
      items := [];
      form := EmptyForm;
      suspended := false;
      error := "";
    }

    /** The load effect. */
    method Load(outcome: LoadOutcome)
      modifies this
      ensures outcome.Loaded? ==> items == outcome.items && suspended == old(suspended) && error == old(error)
      ensures outcome.SubscriptionLapsed? ==> suspended && items == old(items) && error == old(error)
      ensures outcome.Failed? ==>
        error == (if Truthy(outcome.message) then outcome.message.value else "Failed to load inventory")
        && items == old(items) && suspended == old(suspended)
      ensures form == old(form)
    {
      match outcome
      case Loaded(loaded) => items := loaded;
      case SubscriptionLapsed => suspended := true;
      case Failed(message) => error := if Truthy(message) then message.value else "Failed to load inventory";
    }

    /** handleCreate, with the backend's new item. Returns the request, or
        None when the guard refused it. */
    method HandleCreate(created: Option<Item>, other: string -> Num) returns (sent: Option<CreateRequest>)
      modifies this
      ensures sent == if CanCreate(old(form)) then Some(CreateRequestOf(old(form), other)) else None
      ensures !CanCreate(old(form)) || created.None? ==> unchanged(this)
      ensures CanCreate(old(form)) && created.Some? ==>
        items == old(items) + [created.value] && form == EmptyForm
        && suspended == old(suspended) && error == old(error)
    {
      if Blank(form.name) || form.unit == "" {
        return None;
      }
      sent := Some(CreateRequestOf(form, other));
      if created.None? { return; }
      items := items + [created.value];
      form := EmptyForm;
    }

    /** handleAdjustStock(id, delta), with the backend's updated item. */
    method HandleAdjustStock(id: string, delta: int, updated: Option<Item>)
      modifies this
      ensures updated.None? ==> unchanged(this)
      ensures updated.Some? ==> items == ReplaceItem(old(items), id, updated.value)
      ensures form == old(form) && suspended == old(suspended) && error == old(error)
    {
      if updated.None? { return; }
      items := ReplaceItem(items, id, updated.value);
    }

    /** The Add or Remove button of a row: ask, then adjust when the amount
        is a positive number. Returns the adjustment sent, if any. */
    method AdjustClicked(id: string, remove: bool, answer: Option<string>, other: string -> Num, updated: Option<Item>)
      returns (sent: Option<int>)
      modifies this
      ensures sent == RequestedDelta(answer, remove, other)
      ensures sent.None? || updated.None? ==> unchanged(this)
      ensures sent.Some? && updated.Some? ==> items == ReplaceItem(old(items), id, updated.value)
      ensures form == old(form) && suspended == old(suspended) && error == old(error)
    {
      var delta := ToNumber(if Truthy(answer) then answer.value else "0", other);
      if delta.Num? && delta.value > 0 {
        sent := Some(if remove then -delta.value else delta.value);
        HandleAdjustStock(id, sent.value, updated);
      } else {
        sent := None;
      }
    }
  }
}
