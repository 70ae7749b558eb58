/** The menu screen (screens/MenuScreen.js): the category and search filter,
    the "popular" slice, the location picker and the order bar that reads
    the mounted cart. */
module MenuScreen {
  import opened Js
  import opened Catalog
  import opened Seqs
  import ReducerCart

  /** The ids of `FILTERS`, in display order. */
  const FilterIds: seq<string> := ["all", "food", "dessert", "drinks"]

  /** `LOCATIONS`; the first one is selected initially. */
  const Locations: seq<string> := ["San Francisco, CA", "New York, NY", "Chicago, IL", "Los Angeles, CA", "Seattle, WA"]

  /** The lower-cased name, or the lower-cased description when there is
      one, contains the lower-cased query. */
  predicate MatchesSearch(item: MenuItem, query: string) {
    var q := ToLower(query);
    Includes(ToLower(item.name), q)
    || (item.description.Some? && Includes(ToLower(item.description.value), q))
  }

  /** The filter is `'all'` or equals the item's `type`. */
  predicate MatchesCategory(item: MenuItem, filter: string) {
    filter == "all" || item.category == Some(filter)
  }

  predicate Kept(item: MenuItem, query: string, filter: string) {
    MatchesSearch(item, query) && MatchesCategory(item, filter)
  }

  /** `filteredItems` */
  function FilteredItems(items: seq<MenuItem>, query: string, filter: string): seq<MenuItem> {
    if items == [] then []
    else if Kept(items[0], query, filter) then [items[0]] + FilteredItems(items[1..], query, filter)
    else FilteredItems(items[1..], query, filter)
  }

  /** The filter keeps the items in their order, and keeps an item exactly
      when it matches both the search and the category. */
  lemma {:induction false} FilteredItemsSpec(items: seq<MenuItem>, query: string, filter: string)
    ensures IsSubsequence(FilteredItems(items, query, filter), items)
    ensures forall x :: x in FilteredItems(items, query, filter) <==> x in items && Kept(x, query, filter)
    decreases |items|
  {
    if items != [] {
      FilteredItemsSpec(items[1..], query, filter);
      var r := FilteredItems(items, query, filter);
      if Kept(items[0], query, filter) {
        assert r[1..] == FilteredItems(items[1..], query, filter);
      }
      forall x ensures x in r <==> x in items && Kept(x, query, filter) {
        assert x in items <==> x == items[0] || x in items[1..];
      }
    }
  }

  /** `t` occurs somewhere in `s`. */
  ghost predicate OccursIn(s: string, t: string) {
    exists i :: OccursAt(s, t, i)
  }

  /** The search matches exactly when the lower-cased query occurs somewhere
      in the lower-cased name or in the lower-cased description. */
  lemma MatchesSearchIff(item: MenuItem, query: string)
    ensures MatchesSearch(item, query) <==>
      OccursIn(ToLower(item.name), ToLower(query))
      || (item.description.Some? && OccursIn(ToLower(item.description.value), ToLower(query)))
  {
    IncludesIff(ToLower(item.name), ToLower(query));
    if item.description.Some? {
      IncludesIff(ToLower(item.description.value), ToLower(query));
    }
  }

  lemma {:induction false} ToLowerIdempotent(s: string)
    ensures ToLower(ToLower(s)) == ToLower(s)
  {
  }

  /** The search ignores the case of ASCII letters in the query. */
  lemma SearchIgnoresQueryCase(item: MenuItem, query: string)
    ensures MatchesSearch(item, ToLower(query)) == MatchesSearch(item, query)
  {
    ToLowerIdempotent(query);
  }

  /** With the filter `'all'` and an empty query, every item is kept. */
  lemma {:induction false} AllWithEmptyQueryKeepsEverything(items: seq<MenuItem>)
    ensures FilteredItems(items, "", "all") == items
    decreases |items|
  {
    if items != [] {
      assert ToLower("") == "";
      IncludesEmpty(ToLower(items[0].name));
      AllWithEmptyQueryKeepsEverything(items[1..]);
    }
  }

  /** `popularItems`: `slice(0, 3)`. */
  function PopularItems(items: seq<MenuItem>): seq<MenuItem> {
    items[..if |items| < 3 then |items| else 3]
  }

  /** The popular items are the first three items, or all of them when
      there are fewer, in order. */
  lemma PopularIsFirstThree(items: seq<MenuItem>)
    ensures |PopularItems(items)| == if |items| < 3 then |items| else 3
    ensures forall i :: 0 <= i < |PopularItems(items)| ==> PopularItems(items)[i] == items[i]
    ensures IsSubsequence(PopularItems(items), items)
  {
    PrefixIsSubsequence(items, if |items| < 3 then |items| else 3);
  }

  // ---------------------------------------------------------------------
  // The order bar over the mounted cart

  /** `cartItems.reduce((sum, item) => sum + (item.quantity || 0), 0)` */
  function BadgeCount(lines: seq<ReducerCart.Line>): Number {
    if lines == [] then Num(0.0)
    else Plus(BadgeCount(lines[..|lines| - 1]), Or(FromInt(lines[|lines| - 1].quantity), Num(0.0)))
  }

  /** Sum of the quantities, read from the front. */
  function QuantitySum(lines: seq<ReducerCart.Line>): int {
    if lines == [] then 0 else lines[0].quantity + QuantitySum(lines[1..])
  }

  lemma {:induction false} QuantitySumAppend(a: seq<ReducerCart.Line>, x: ReducerCart.Line)
    ensures QuantitySum(a + [x]) == QuantitySum(a) + x.quantity
    decreases |a|
  {
    if a != [] {
      assert (a + [x])[1..] == a[1..] + [x];
      QuantitySumAppend(a[1..], x);
    }
  }

  /** The badge shows the number of units in the cart (a zero quantity
      adds nothing either way), never NaN. */
  lemma {:induction false} BadgeCountIsQuantitySum(lines: seq<ReducerCart.Line>)
    ensures BadgeCount(lines) == FromInt(QuantitySum(lines))
    decreases |lines|
  {
    if lines != [] {
      var init := lines[..|lines| - 1];
      var last := lines[|lines| - 1];
      assert lines == init + [last];
      BadgeCountIsQuantitySum(init);
      QuantitySumAppend(init, last);
    }
  }

  /** In a cart reached through the provider, the badge is at least the
      number of lines. */
  lemma {:induction false} BadgeAtLeastLines(lines: seq<ReducerCart.Line>)
    requires ReducerCart.PositiveQuantities(lines)
    ensures QuantitySum(lines) >= |lines|
    decreases |lines|
  {
    if lines != [] {
      BadgeAtLeastLines(lines[1..]);
    }
  }

  /** `cartTotal > 0`: a NaN total is not greater than 0. */
  predicate ShowOrderBar(total: Number) {
    total.Num? && total.v > 0.0
  }

  predicate PositivelyPriced(lines: seq<ReducerCart.Line>) {
    forall i :: 0 <= i < |lines| ==> lines[i].item.price.Num? && lines[i].item.price.v > 0.0
  }

  lemma {:induction false} SumOfPositiveLines(lines: seq<ReducerCart.Line>)
    requires PositivelyPriced(lines) && ReducerCart.PositiveQuantities(lines)
    ensures ReducerCart.SumOfLines(lines) >= 0.0
    ensures lines != [] ==> ReducerCart.SumOfLines(lines) > 0.0
    decreases |lines|
  {
    if lines != [] {
      SumOfPositiveLines(lines[1..]);
      var p := lines[0].item.price.v;
      var q := lines[0].quantity as real;
      assert p * q >= p * 1.0;
    }
  }

  /** The bar is hidden for the empty cart, shown for any non-empty cart
      whose lines all carry a positive `price`, and hidden as soon as one
      line lacks a numeric `price` (the stored total is then NaN). */
  lemma OrderBarVisibility(state: ReducerCart.CartState)
    requires ReducerCart.WellFormed(state)
    ensures !ShowOrderBar(ReducerCart.InitialState.total)
    ensures state.items == [] ==> !ShowOrderBar(state.total)
    ensures state.items != [] && PositivelyPriced(state.items) ==> ShowOrderBar(state.total)
    ensures !ReducerCart.AllPriced(state.items) ==> !ShowOrderBar(state.total)
  {
    ReducerCart.CalculateTotalIsSum(state.items);
    if PositivelyPriced(state.items) {
      SumOfPositiveLines(state.items);
    }
  }

  // ---------------------------------------------------------------------
  // Screen state

  class Screen {
    var activeFilter: string
    var searchQuery: string
    var location: string
    var showLocationDropdown: bool

    /** The filter is one of the filter ids and the location one of the locations. */
    ghost predicate Valid()
      reads this
    {
      activeFilter in FilterIds && location in Locations
    }

    constructor ()
      ensures Valid()
      ensures activeFilter == "all" && searchQuery == "" && location == Locations[0] && !showLocationDropdown
    {
      activeFilter := "all";
      searchQuery := "";
      location := Locations[0];
      showLocationDropdown := false;
    }

    /** The items the list shows. */
    function Visible(items: seq<MenuItem>): seq<MenuItem>
      reads this
    {
      FilteredItems(items, searchQuery, activeFilter)
    }

    /** A category chip: select it and clear the search. */
    method ChooseCategory(filterId: string)
      requires Valid() && filterId in FilterIds
      modifies this
      ensures Valid()
      ensures activeFilter == filterId && searchQuery == ""
      ensures location == old(location) && showLocationDropdown == old(showLocationDropdown)
    {
      activeFilter := filterId;
      searchQuery := "";
    }

    /** The search box's `onChangeText`. */
    method SetSearchQuery(text: string)
      requires Valid()
      modifies this
      ensures Valid()
      ensures searchQuery == text
      ensures activeFilter == old(activeFilter) && location == old(location)
      ensures showLocationDropdown == old(showLocationDropdown)
    {
      searchQuery := text;
    }

    /** The location selector toggles the dropdown. */
    method ToggleLocationDropdown()
      requires Valid()
      modifies this
      ensures Valid()
      ensures showLocationDropdown == !old(showLocationDropdown)
      ensures activeFilter == old(activeFilter) && searchQuery == old(searchQuery) && location == old(location)
    {
      showLocationDropdown := !showLocationDropdown;
    }

    /** A row of the open dropdown: take that location and close the dropdown. */
    method PickLocation(index: nat)
      requires Valid() && showLocationDropdown && index < |Locations|
      modifies this
      ensures Valid()
      ensures location == Locations[index] && !showLocationDropdown
      ensures activeFilter == old(activeFilter) && searchQuery == old(searchQuery)
    {
      location := Locations[index];
      showLocationDropdown := false;
    }
  }

  /** Choosing the `'all'` chip shows the whole menu, whatever was typed before. */
  method ChooseAllShowsEverything(screen: Screen, items: seq<MenuItem>)
    requires screen.Valid()
    modifies screen
    ensures screen.Visible(items) == items
  {
    screen.ChooseCategory("all");
    AllWithEmptyQueryKeepsEverything(items);
  }
}
