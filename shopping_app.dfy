/** The shopping-list screen: the list of items, the entry form around it, the
    handlers that change them and the two views derived from the list (the
    total still to pay and the searched, category-filtered list). */
module Shopping {
  import opened Wrappers
  import opened JsString
  import opened JsArray

  /** The categories offered by both pickers, in the order shown. */
  const Categories: seq<string> := ["ของสด", "ของใช้ในบ้าน", "เครื่องดื่ม", "ของหวาน"]

  /** The filter label that lets every category through ("all"). It is never
      stored on an item. */
  const AllCategories: string := "ทั้งหมด"

  /** One shopping-list entry. `image` is an optional URI. */
  datatype Item = Item(id: string, name: string, price: real, purchased: bool,
                       image: Option<string>, category: string)

  /** What the entry form guarantees of every item it creates or edits. */
  predicate WellFormed(item: Item)
  {
    !IsBlank(item.name) && item.price > 0.0 && item.category in Categories
  }

  // ---------------------------------------------------------------------------
  // Validation of the entry form

  /** Why the form refused the input (the two alerts). */
  datatype Rejection = BlankName | InvalidPrice

  /** The form's checks, in the order the handler makes them. `priceText` is
      what the user typed. The handler reads it with two different parsers:
      `parsedPrice` is None when `isNaN(priceText)` holds (the `Number`
      conversion, which decides the refusal) and otherwise
      `Some(parseFloat(priceText))` (the value stored). The two can disagree,
      as on "0x10", which `Number` reads as 16 and `parseFloat` as 0. */
  function Validate(name: string, priceText: string, parsedPrice: Option<real>): (r: Result<real, Rejection>)
    ensures r == Err(BlankName) <==> IsBlank(name)
    ensures r == Err(InvalidPrice) <==>
              !IsBlank(name) && (IsBlank(priceText) || parsedPrice.None? || parsedPrice.value <= 0.0)
    ensures r.Ok? ==> parsedPrice == Some(r.value) && r.value > 0.0
  {
    if Trim(name) == "" then Err(BlankName)
    else if Trim(priceText) == "" || parsedPrice.None? || parsedPrice.value <= 0.0 then Err(InvalidPrice)
    else Ok(parsedPrice.value)
  }

  // ---------------------------------------------------------------------------
  // Id-keyed updates (the map in the toggle and edit handlers)

  /** Applies `f` to every item whose id is `id` and keeps the others. */
  function UpdateWhere(items: seq<Item>, id: string, f: Item -> Item): (r: seq<Item>)
    ensures |r| == |items|
    ensures forall i | 0 <= i < |items| :: r[i] == if items[i].id == id then f(items[i]) else items[i]
  {
    if items == [] then []
    else [if items[0].id == id then f(items[0]) else items[0]] + UpdateWhere(items[1..], id, f)
  }

  /** The list after toggling `id`: every item with that id has its purchased
      flag flipped and every field else kept; other items are untouched. */
  function Toggled(items: seq<Item>, id: string): (r: seq<Item>)
    ensures |r| == |items|
    ensures forall i | 0 <= i < |items| ::
              r[i] == items[i].(purchased := if items[i].id == id then !items[i].purchased else items[i].purchased)
  {
    UpdateWhere(items, id, (item: Item) => item.(purchased := !item.purchased))
  }

  /** The list after committing an edit of `id`: every item with that id gets
      the form's name, price, image and category and keeps its id and purchased
      flag; other items are untouched. */
  function Edited(items: seq<Item>, id: string, name: string, price: real,
                  image: Option<string>, category: string): (r: seq<Item>)
    ensures |r| == |items|
    ensures forall i | 0 <= i < |items| && items[i].id == id ::
              r[i] == Item(items[i].id, name, price, items[i].purchased, image, category)
    ensures forall i | 0 <= i < |items| && items[i].id != id :: r[i] == items[i]
  {
    UpdateWhere(items, id, (item: Item) => item.(name := name, price := price, image := image, category := category))
  }

  /** Committing an edit that passed the form's checks keeps every item well
      formed. */
  lemma EditedWellFormed(items: seq<Item>, id: string, name: string, price: real,
                         image: Option<string>, category: string)
    requires forall i | 0 <= i < |items| :: WellFormed(items[i])
    requires !IsBlank(name) && price > 0.0 && category in Categories
    ensures var r := Edited(items, id, name, price, image, category);
            forall i | 0 <= i < |r| :: WellFormed(r[i])
  {
  }

  /** Appending a well-formed item keeps every item well formed. */
  lemma AppendedWellFormed(items: seq<Item>, item: Item)
    requires forall i | 0 <= i < |items| :: WellFormed(items[i])
    requires WellFormed(item)
    ensures forall i | 0 <= i < |items + [item]| :: WellFormed((items + [item])[i])
  {
  }

  /** An edit whose id no longer names an item (it was removed, or the list
      was cleared, while the edit was under way) leaves the list as it was. */
  lemma EditOfAbsentIdChangesNothing(items: seq<Item>, id: string, name: string, price: real,
                                     image: Option<string>, category: string)
    requires forall i | 0 <= i < |items| :: items[i].id != id
    ensures Edited(items, id, name, price, image, category) == items
  {
  }

  /** Toggling the same id twice gives back the original list. */
  lemma ToggleTwiceRestores(items: seq<Item>, id: string)
    ensures Toggled(Toggled(items, id), id) == items
  {
    var once := Toggled(items, id);
    assert forall i | 0 <= i < |items| :: once[i].id == items[i].id;
  }

  // ---------------------------------------------------------------------------
  // Removal (the filter in the remove handler)

  /** The list without the items whose id is `id`, the rest in their order
      with every copy kept. */
  function Removed(items: seq<Item>, id: string): (r: seq<Item>)
    ensures forall x :: x in r <==> x in items && x.id != id
    ensures forall x :: multiset(r)[x] == if x.id != id then multiset(items)[x] else 0
    ensures IsSubsequence(r, items)
    ensures |r| == |items| <==> forall i | 0 <= i < |items| :: items[i].id != id
  {
    var p := (item: Item) => item.id != id;
    FilterMembers(items, p);
    FilterCount(items, p);
    FilterIsSubsequence(items, p);
    FilterKeepsLengthIff(items, p);
    Filter(items, p)
  }

  /** Removing an id a second time is a no-op. */
  lemma RemoveTwiceIsNoOp(items: seq<Item>, id: string)
    ensures Removed(Removed(items, id), id) == Removed(items, id)
  {
    FilterIdempotent(items, (item: Item) => item.id != id);
  }

  // ---------------------------------------------------------------------------
  // The total still to pay (the reduce over the list)

  /** Left fold over the list, in list order, adding the price of every item
      not yet purchased to a running sum that starts at 0. Nothing is left to
      pay once every item is purchased. */
  function TotalRemaining(items: seq<Item>): (total: real)
    ensures (forall i | 0 <= i < |items| :: items[i].purchased) ==> total == 0.0
  {
    if items == [] then 0.0
    else
      var last := items[|items| - 1];
      TotalRemaining(items[..|items| - 1]) + (if !last.purchased then last.price else 0.0)
  }

  /** The items not yet purchased, in list order. */
  function Unpurchased(items: seq<Item>): seq<Item>
  {
    Filter(items, (item: Item) => !item.purchased)
  }

  /** The sum of the prices of `items`. */
  function SumPrices(items: seq<Item>): real
  {
    if items == [] then 0.0 else items[0].price + SumPrices(items[1..])
  }

  lemma {:induction false} SumPricesConcat(a: seq<Item>, b: seq<Item>)
    ensures SumPrices(a + b) == SumPrices(a) + SumPrices(b)
  {
    if a == [] {
      assert a + b == b;
    } else {
      SumPricesConcat(a[1..], b);
      assert (a + b)[1..] == a[1..] + b;
    }
  }

  /** The fold computes the sum of the prices of the unpurchased items. */
  lemma {:induction false} TotalRemainingIsUnpurchasedSum(items: seq<Item>)
    ensures TotalRemaining(items) == SumPrices(Unpurchased(items))
  {
    if items != [] {
      var init, last := items[..|items| - 1], items[|items| - 1];
      var p := (item: Item) => !item.purchased;
      TotalRemainingIsUnpurchasedSum(init);
      assert items == init + [last];
      FilterConcat(init, [last], p);
      SumPricesConcat(Filter(init, p), Filter([last], p));
      assert Filter([last], p) == if p(last) then [last] else [];
    }
  }

  lemma {:induction false} SumPricesPositive(items: seq<Item>)
    requires forall i | 0 <= i < |items| :: items[i].price > 0.0
    ensures SumPrices(items) >= 0.0
    ensures SumPrices(items) == 0.0 <==> items == []
  {
    if items != [] {
      SumPricesPositive(items[1..]);
    }
  }

  /** With positive prices the total is never negative, and it is 0 exactly
      when every item is purchased (in particular for the empty list). */
  lemma TotalRemainingNonNegative(items: seq<Item>)
    requires forall i | 0 <= i < |items| :: items[i].price > 0.0
    ensures TotalRemaining(items) >= 0.0
    ensures TotalRemaining(items) == 0.0 <==> forall i | 0 <= i < |items| :: items[i].purchased
  {
    var u := Unpurchased(items);
    TotalRemainingIsUnpurchasedSum(items);
    FilterMembers(items, (item: Item) => !item.purchased);
    assert forall i | 0 <= i < |u| :: u[i] in items;
    SumPricesPositive(u);
    if u != [] {
      assert u[0] in items && !u[0].purchased;
    } else {
      assert forall i | 0 <= i < |items| :: items[i] in items;
    }
  }

  /** Appending an unpurchased item raises the total by its price. */
  lemma TotalAfterAppend(items: seq<Item>, item: Item)
    ensures TotalRemaining(items + [item]) == TotalRemaining(items) + (if item.purchased then 0.0 else item.price)
  {
    assert (items + [item])[..|items|] == items;
  }

  /** Ten unpurchased, five purchased and twenty unpurchased leave 30 to pay. */
  lemma TotalRemainingExample()
    ensures TotalRemaining([Item("1", "a", 10.0, false, None, Categories[0]),
                            Item("2", "b", 5.0, true, None, Categories[0]),
                            Item("3", "c", 20.0, false, None, Categories[0])]) == 30.0
  {
    var items := [Item("1", "a", 10.0, false, None, Categories[0]),
                  Item("2", "b", 5.0, true, None, Categories[0]),
                  Item("3", "c", 20.0, false, None, Categories[0])];
    assert items[..2][..1] == items[..1] && items[..1][..0] == [];
    assert TotalRemaining(items[..1]) == 10.0;
    assert TotalRemaining(items[..2]) == 10.0;
  }

  // ---------------------------------------------------------------------------
  // The searched and filtered view

  /** An item is shown when its lower-cased name includes the lower-cased query
      and the filter is "all" or the item's own category. An empty query under
      "all" shows every item. No query longer than the name matches; this
      bound holds because `ToLowerCase` lowers ASCII capitals only and keeps
      the length, which JavaScript's full lowering does not. */
  predicate Matches(item: Item, query: string, filter: string)
    ensures query == "" && filter == AllCategories ==> Matches(item, query, filter)
    ensures Matches(item, query, filter) ==> |query| <= |item.name|
  {
    IncludesEmpty(ToLowerCase(item.name));
    Includes(ToLowerCase(item.name), ToLowerCase(query)) &&
    (filter == AllCategories || item.category == filter)
  }

  /** The items shown for `query` and `filter`, in list order, with every copy
      of a matching item kept. */
  function FilteredItems(items: seq<Item>, query: string, filter: string): (r: seq<Item>)
    ensures forall x :: x in r <==> x in items && Matches(x, query, filter)
    ensures forall x :: multiset(r)[x] == if Matches(x, query, filter) then multiset(items)[x] else 0
    ensures IsSubsequence(r, items)
  {
    var p := (item: Item) => Matches(item, query, filter);
    FilterMembers(items, p);
    FilterCount(items, p);
    FilterIsSubsequence(items, p);
    Filter(items, p)
  }

  /** An empty query with the "all" filter shows the whole list, in order. */
  lemma FilterShowsAll(items: seq<Item>)
    ensures FilteredItems(items, "", AllCategories) == items
  {
    assert forall i | 0 <= i < |items| :: Matches(items[i], "", AllCategories);
    FilterAllPass(items, (item: Item) => Matches(item, "", AllCategories));
  }

  // ---------------------------------------------------------------------------
  // The screen's state and handlers

  /** What a press of the add/edit button did. */
  datatype AddOutcome = Appended | Committed | Rejected(reason: Rejection)

  class ShoppingApp {
    var items: seq<Item>
    var itemName: string
    var itemPrice: string
    var itemImage: Option<string>
    var searchQuery: string
    var selectedCategory: string
    var filterCategory: string
    var editingItem: Option<Item>

    /** What the handlers keep true: every item passed the form's checks, the
        pickers hold offered values, and an image is only ever loaded into the
        form together with an item being edited. */
    ghost predicate Valid()
      reads this
    {
      (forall i | 0 <= i < |items| :: WellFormed(items[i])) &&
      selectedCategory in Categories &&
      (filterCategory == AllCategories || filterCategory in Categories) &&
      (editingItem.None? ==> itemImage.None?)
    }

    /** The screen as first shown: nothing listed, an empty form on the first
        category, the "all" filter and no edit under way. */
    constructor ()
      ensures Valid()
      ensures items == [] && itemName == "" && itemPrice == "" && itemImage == None
      ensures searchQuery == "" && selectedCategory == Categories[0]
      ensures filterCategory == AllCategories && editingItem == None
    {
      items := [];
      itemName := "";
      itemPrice := "";
      itemImage := None;
      searchQuery := "";
      selectedCategory := Categories[0];
      filterCategory := AllCategories;
      editingItem := None;
    }

    /** The add/edit button. `parsedPrice` is None when `isNaN(itemPrice)`
        and otherwise `Some(parseFloat(itemPrice))`; `newId` is the id a new
        item receives. On a refusal nothing changes; otherwise the list gains
        the new item at its end or, in edit mode, the edit is committed, and
        the form is cleared. */
    method AddItem(parsedPrice: Option<real>, newId: string) returns (outcome: AddOutcome)
      requires Valid()
      modifies this
      ensures Valid()
      ensures var v := Validate(old(itemName), old(itemPrice), parsedPrice);
              v.Err? ==> outcome == Rejected(v.error) && unchanged(this)
      ensures var v := Validate(old(itemName), old(itemPrice), parsedPrice);
              v.Ok? && old(editingItem).None? ==>
                outcome == Appended &&
                items == old(items) + [Item(newId, old(itemName), v.value, false, old(itemImage), old(selectedCategory))]
      ensures var v := Validate(old(itemName), old(itemPrice), parsedPrice);
              v.Ok? && old(editingItem).Some? ==>
                outcome == Committed &&
                items == Edited(old(items), old(editingItem).value.id, old(itemName), v.value,
                                old(itemImage), old(selectedCategory))
      ensures Validate(old(itemName), old(itemPrice), parsedPrice).Ok? ==>
                itemName == "" && itemPrice == "" && itemImage == None && editingItem == None &&
                searchQuery == old(searchQuery) && selectedCategory == old(selectedCategory) &&
                filterCategory == old(filterCategory)
      ensures outcome == Appended ==> items[|items| - 1].image == None
    {
      var v := Validate(itemName, itemPrice, parsedPrice);
      if v.Err? {
        outcome := Rejected(v.error);
        return;
      }
      if editingItem.Some? {
        EditedWellFormed(items, editingItem.value.id, itemName, v.value, itemImage, selectedCategory);
        items := Edited(items, editingItem.value.id, itemName, v.value, itemImage, selectedCategory);
        editingItem := None;
        outcome := Committed;
      } else {
        var item := Item(newId, itemName, v.value, false, itemImage, selectedCategory);
        assert WellFormed(item);
        AppendedWellFormed(items, item);
        items := items + [item];
        outcome := Appended;
      }
      itemName := "";
      itemPrice := "";
      itemImage := None;
    }

    /** Loads `item` into the form and enters edit mode. `priceText` is the
        item's price written out as a decimal number. */
    method EditItem(item: Item, priceText: string)
      requires Valid() && item in items
      modifies this
      ensures Valid()
      ensures itemName == item.name && itemPrice == priceText && itemImage == item.image
      ensures selectedCategory == item.category && editingItem == Some(item)
      ensures items == old(items) && searchQuery == old(searchQuery) && filterCategory == old(filterCategory)
    {
      itemName := item.name;
      itemPrice := priceText;
      itemImage := item.image;
      selectedCategory := item.category;
      editingItem := Some(item);
    }

    /** Flips the purchased flag of the items with id `id`. */
    method TogglePurchased(id: string)
      requires Valid()
      modifies this
      ensures Valid()
      ensures items == Toggled(old(items), id)
      ensures itemName == old(itemName) && itemPrice == old(itemPrice) && itemImage == old(itemImage)
      ensures searchQuery == old(searchQuery) && selectedCategory == old(selectedCategory)
      ensures filterCategory == old(filterCategory) && editingItem == old(editingItem)
    {
      items := Toggled(items, id);
    }

    /** Drops the items with id `id`. */
    method RemoveItem(id: string)
      requires Valid()
      modifies this
      ensures Valid()
      ensures items == Removed(old(items), id)
      ensures itemName == old(itemName) && itemPrice == old(itemPrice) && itemImage == old(itemImage)
      ensures searchQuery == old(searchQuery) && selectedCategory == old(selectedCategory)
      ensures filterCategory == old(filterCategory) && editingItem == old(editingItem)
    {
      items := Removed(items, id);
    }

    /** Empties the list; the form is left as it is. */
    method ClearAll()
      requires Valid()
      modifies this
      ensures Valid()
      ensures items == []
      ensures itemName == old(itemName) && itemPrice == old(itemPrice) && itemImage == old(itemImage)
      ensures searchQuery == old(searchQuery) && selectedCategory == old(selectedCategory)
      ensures filterCategory == old(filterCategory) && editingItem == old(editingItem)
    {
      items := [];
    }

    /** Typing in the name field. */
    method SetItemName(text: string)
      requires Valid()
      modifies this`itemName
      ensures Valid() && itemName == text
    {
      itemName := text;
    }

    /** Typing in the price field. */
    method SetItemPrice(text: string)
      requires Valid()
      modifies this`itemPrice
      ensures Valid() && itemPrice == text
    {
      itemPrice := text;
    }

    /** Typing in the search field. */
    method SetSearchQuery(text: string)
      requires Valid()
      modifies this`searchQuery
      ensures Valid() && searchQuery == text
    {
      searchQuery := text;
    }

    /** Picking the category a new or edited item goes into. */
    method SetSelectedCategory(category: string)
      requires Valid() && category in Categories
      modifies this`selectedCategory
      ensures Valid() && selectedCategory == category
    {
      selectedCategory := category;
    }

    /** Picking the category filter: "all" or one of the categories. */
    method SetFilterCategory(filter: string)
      requires Valid() && (filter == AllCategories || filter in Categories)
      modifies this`filterCategory
      ensures Valid() && filterCategory == filter
    {
      filterCategory := filter;
    }

    /** The total shown under the list: the unpurchased prices summed, never
        negative. */
    method Total() returns (total: real)
      requires Valid()
      ensures total == SumPrices(Unpurchased(items))
      ensures total >= 0.0
    {
      total := TotalRemaining(items);
      TotalRemainingIsUnpurchasedSum(items);
      TotalRemainingNonNegative(items);
    }

    /** The items the list shows for the current search and filter: the
        matching items in list order with every copy kept, and the whole list
        for an empty search under the "all" filter. */
    method Shown() returns (shown: seq<Item>)
      ensures shown == FilteredItems(items, searchQuery, filterCategory)
      ensures forall x :: x in shown <==> x in items && Matches(x, searchQuery, filterCategory)
      ensures forall x :: multiset(shown)[x] == if Matches(x, searchQuery, filterCategory) then multiset(items)[x] else 0
      ensures IsSubsequence(shown, items)
      ensures searchQuery == "" && filterCategory == AllCategories ==> shown == items
    {
      shown := FilteredItems(items, searchQuery, filterCategory);
      if searchQuery == "" && filterCategory == AllCategories {
        FilterShowsAll(items);
      }
    }
  }

  /** "Milk" at 40 passes the form's checks; "Milk" at -5 is refused for its
      price. */
  lemma MilkValidation()
    ensures Validate("Milk", "40", Some(40.0)) == Ok(40.0)
    ensures Validate("Milk", "-5", Some(-5.0)) == Err(InvalidPrice)
  {
    assert !IsWhiteSpace("Milk"[0]) && !IsWhiteSpace("40"[0]) && !IsWhiteSpace("-5"[0]);
  }

  /** Adding "Milk" at 40 to the first category appends exactly that item;
      a second press with the price -5 is refused and leaves the list as it
      was. */
  method MilkScenario() returns (afterMilk: seq<Item>, refused: AddOutcome, afterRefusal: seq<Item>)
    ensures afterMilk == [Item("1", "Milk", 40.0, false, None, Categories[0])]
    ensures refused == Rejected(InvalidPrice) && afterRefusal == afterMilk
  {
    MilkValidation();
    var app := new ShoppingApp();
    app.SetItemName("Milk");
    app.SetItemPrice("40");
    var added := app.AddItem(Some(40.0), "1");
    afterMilk := app.items;
    app.SetItemName("Milk");
    app.SetItemPrice("-5");
    refused := app.AddItem(Some(-5.0), "2");
    afterRefusal := app.items;
  }
}
