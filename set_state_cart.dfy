/** The second cart (contexts/CartContext.js), the one the food-item card and
    the cart-item row consume: every operation replaces the list through a
    `setCartItems(prev => ...)` updater, and the total is derived from the
    list rather than stored. */
module SetStateCart {
  import opened Js
  import opened Catalog
  import opened Seqs

  /** `{ ...item, price, quantity }`: `price` holds the resolved price and
      shadows the item's own `price`; the item's other fields stay as they
      were when the line was first added. */
  datatype Line = Line(item: MenuItem, price: Number, quantity: int)

  function LineId(line: Line): string {
    line.item.id
  }

  /** The updater of `addToCart(item, quantity)`: merge by id, adding the
      requested quantity and overwriting the price, or append a new line. */
  function AddUpdate(prev: seq<Line>, item: MenuItem, quantity: int): seq<Line> {
    var price := ResolvePrice(item);
    if HasKey(prev, LineId, item.id) then
      seq(|prev|, i requires 0 <= i < |prev| =>
        if prev[i].item.id == item.id then prev[i].(quantity := prev[i].quantity + quantity, price := price)
        else prev[i])
    else prev + [Line(item, price, quantity)]
  }

  /** The updater of `updateQuantity(id, quantity)`: the quantity is stored as given. */
  function QuantityUpdate(prev: seq<Line>, id: string, quantity: int): seq<Line> {
    seq(|prev|, i requires 0 <= i < |prev| =>
      if prev[i].item.id == id then prev[i].(quantity := quantity) else prev[i])
  }

  /** The updater of `removeFromCart(id)`. */
  function RemoveUpdate(prev: seq<Line>, id: string): seq<Line> {
    WithoutKey(prev, LineId, id)
  }

  /** `(Number(ci.price) || 0) * ci.quantity` */
  function LineAmount(line: Line): Number {
    Times(Or(line.price, Num(0.0)), FromInt(line.quantity))
  }

  /** The derived `total`: the left fold `cartItems.reduce((sum, ci) => sum + ..., 0)`. */
  function Total(items: seq<Line>): Number {
    if items == [] then Num(0.0)
    else Plus(Total(items[..|items| - 1]), LineAmount(items[|items| - 1]))
  }

  /** Reference sum of price times quantity, read from the front, with a
      falsy price counting 0. */
  function SumOfLines(items: seq<Line>): real {
    if items == [] then 0.0
    else (if Truthy(items[0].price) then items[0].price.v else 0.0) * items[0].quantity as real
         + SumOfLines(items[1..])
  }

  /** The same append law as `ReducerCart.SumOfLinesAppend`, restated for
      this cart's own line type, whose price is the resolved one rather than
      the menu item's raw `price`. */
  lemma {:induction false} SumOfLinesAppend(a: seq<Line>, x: Line)
    ensures SumOfLines(a + [x]) == SumOfLines(a) + SumOfLines([x])
    decreases |a|
  {
    if a != [] {
      assert (a + [x])[1..] == a[1..] + [x];
      SumOfLinesAppend(a[1..], x);
    }
  }

  /** The derived total is never NaN: it is the sum of price times quantity,
      a missing or zero price counting 0, and 0 for an empty cart. */
  lemma {:induction false} TotalIsSum(items: seq<Line>)
    ensures Total(items) == Num(SumOfLines(items))
    ensures items == [] ==> Total(items) == Num(0.0)
    decreases |items|
  {
    if items != [] {
      var init := items[..|items| - 1];
      var last := items[|items| - 1];
      assert items == init + [last];
      assert Total(items) == Plus(Total(init), LineAmount(last));
      TotalIsSum(init);
      LineAmountIsSum(last);
      SumOfLinesAppend(init, last);
    }
  }

  /** One line's amount is a number, its price counting 0 when falsy. */
  lemma LineAmountIsSum(x: Line)
    ensures LineAmount(x) == Num(SumOfLines([x]))
  {
    assert [x][1..] == [];
  }

  /** Adding an id not in the cart appends `{ ...item, price: resolved, quantity }`
      at the end and raises the total by the resolved price times the quantity. */
  lemma AddAbsentAppends(prev: seq<Line>, item: MenuItem, quantity: int)
    requires !HasKey(prev, LineId, item.id)
    ensures AddUpdate(prev, item, quantity) == prev + [Line(item, ResolvePrice(item), quantity)]
    ensures Total(AddUpdate(prev, item, quantity))
         == Plus(Total(prev), Times(ResolvePrice(item), FromInt(quantity)))
  {
    var r := AddUpdate(prev, item, quantity);
    assert r[..|r| - 1] == prev;
    ResolvePriceIsFirstTruthy(item);
  }

  /** Adding an id already in the cart adds the requested quantity to that
      line, overwrites its price with the freshly resolved one, keeps every
      other line and the number of lines, and creates no duplicate id. */
  lemma AddPresentMerges(prev: seq<Line>, item: MenuItem, quantity: int, k: int)
    requires UniqueKeys(prev, LineId) && 0 <= k < |prev| && prev[k].item.id == item.id
    ensures var r := AddUpdate(prev, item, quantity);
      && |r| == |prev|
      && r[k] == prev[k].(quantity := prev[k].quantity + quantity, price := ResolvePrice(item))
      && (forall i :: 0 <= i < |r| && i != k ==> r[i] == prev[i])
      && UniqueKeys(r, LineId)
  {
    var r := AddUpdate(prev, item, quantity);
    assert LineId(prev[k]) == item.id;
    assert forall i :: 0 <= i < |r| ==> LineId(r[i]) == LineId(prev[i]);
  }

  /** Whichever case applies, adding keeps the ids unique. */
  lemma AddKeepsIdsUnique(prev: seq<Line>, item: MenuItem, quantity: int)
    requires UniqueKeys(prev, LineId)
    ensures UniqueKeys(AddUpdate(prev, item, quantity), LineId)
  {
    var r := AddUpdate(prev, item, quantity);
    if HasKey(prev, LineId, item.id) {
      assert forall i :: 0 <= i < |r| ==> LineId(r[i]) == LineId(prev[i]);
    } else {
      forall i, j | 0 <= i < j < |r| ensures LineId(r[i]) != LineId(r[j]) {
        if j == |prev| {
          assert r[i] == prev[i];
        }
      }
    }
  }

  /** `updateQuantity` stores the given quantity on the matching line,
      whatever its value (no removal, no clamp), and changes nothing else. */
  lemma UpdateStoresVerbatim(prev: seq<Line>, k: int, quantity: int)
    requires UniqueKeys(prev, LineId) && 0 <= k < |prev|
    ensures var r := QuantityUpdate(prev, prev[k].item.id, quantity);
      && |r| == |prev|
      && r[k].quantity == quantity
      && r[k] == prev[k].(quantity := quantity)
      && (forall i :: 0 <= i < |r| && i != k ==> r[i] == prev[i])
  {
    forall i | 0 <= i < |prev| && i != k ensures prev[i].item.id != prev[k].item.id {
      if i < k {
        assert LineId(prev[i]) != LineId(prev[k]);
      } else {
        assert LineId(prev[k]) != LineId(prev[i]);
      }
    }
  }

  /** `removeFromCart` keeps the other lines in order, leaves no line with
      the id, and is a no-op when the id is absent. */
  lemma RemoveFilters(prev: seq<Line>, id: string)
    ensures IsSubsequence(RemoveUpdate(prev, id), prev)
    ensures !HasKey(RemoveUpdate(prev, id), LineId, id)
    ensures forall x :: x in prev && x.item.id != id ==> x in RemoveUpdate(prev, id)
    ensures !HasKey(prev, LineId, id) ==> RemoveUpdate(prev, id) == prev
  {
    WithoutKeySpec(prev, LineId, id);
  }

  /** Removing an id and adding it again starts afresh: no quantity is left over. */
  lemma RemoveThenAddIsFresh(prev: seq<Line>, item: MenuItem, quantity: int)
    ensures AddUpdate(RemoveUpdate(prev, item.id), item, quantity)
         == RemoveUpdate(prev, item.id) + [Line(item, ResolvePrice(item), quantity)]
  {
    WithoutKeySpec(prev, LineId, item.id);
  }

  /** Two adds of the same product, 1 and then 2 at a price of 5, leave one
      line of quantity 3 and a total of 15. */
  lemma TwoAddsMerge()
    ensures var a := MenuItem("a", "A", None, None, Num(5.0), NaN, NaN);
      var r := AddUpdate(AddUpdate([], a, 1), a, 2);
      && r == [Line(a, Num(5.0), 3)]
      && Total(r) == Num(15.0)
  {
    var a := MenuItem("a", "A", None, None, Num(5.0), NaN, NaN);
    var one := AddUpdate([], a, 1);
    assert one == [Line(a, Num(5.0), 1)];
    assert LineId(one[0]) == "a";
    var r := AddUpdate(one, a, 2);
    assert r == [Line(a, Num(5.0), 3)];
    assert r[..0] == [];
  }

  /** The provider: `cartItems` is the one piece of state, replaced by every
      operation; `total` is derived on each render. */
  class CartProvider {
    var cartItems: seq<Line>

    /** Ids are unique and every stored price is a number. */
    ghost predicate Valid()
      reads this
    {
      UniqueKeys(cartItems, LineId) && forall i :: 0 <= i < |cartItems| ==> cartItems[i].price.Num?
    }

    constructor ()
      ensures Valid() && cartItems == []
    {
      cartItems := [];
    }

    /** `total` as the provider exposes it. */
    function CurrentTotal(): Number
      reads this
    {
      Total(cartItems)
    }

    method AddToCart(item: MenuItem, quantity: int)
      requires Valid()
      modifies this
      ensures Valid()
      ensures cartItems == AddUpdate(old(cartItems), item, quantity)
    {
      AddKeepsIdsUnique(cartItems, item, quantity);
      ResolvePriceIsFirstTruthy(item);
      cartItems := AddUpdate(cartItems, item, quantity);
    }

    method UpdateQuantity(id: string, quantity: int)
      requires Valid()
      modifies this
      ensures Valid()
      ensures cartItems == QuantityUpdate(old(cartItems), id, quantity)
    {
      var updated := QuantityUpdate(cartItems, id, quantity);
      assert forall i :: 0 <= i < |updated| ==> LineId(updated[i]) == LineId(cartItems[i]);
      cartItems := updated;
    }

    method RemoveFromCart(id: string)
      requires Valid()
      modifies this
      ensures Valid()
      ensures cartItems == RemoveUpdate(old(cartItems), id)
    {
      WithoutKeyKeepsUnique(cartItems, LineId, id);
      WithoutKeySpec(cartItems, LineId, id);
      var r := RemoveUpdate(cartItems, id);
      forall i | 0 <= i < |r| ensures r[i].price.Num? {
        assert r[i] in cartItems;
      }
      cartItems := r;
    }

    method ClearCart()
      modifies this
      ensures Valid()
      ensures cartItems == [] && CurrentTotal() == Num(0.0)
    {
      cartItems := [];
    }
  }
}
