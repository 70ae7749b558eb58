/** One row of the second cart (components/CartItem.js): it holds no state,
    shows the line's amount, and turns the quantity text and the remove
    button into calls on the cart. */
module CartItem {
  import opened Js
  import opened Catalog
  import opened Seqs
  import opened SetStateCart

  /** The cart operations a row can call. */
  datatype CartCall = UpdateQuantityCall(id: string, quantity: int) | RemoveFromCartCall(id: string)

  /** `onChangeText={t => updateQuantity(item.id, parseInt(t) || 1)}` */
  function OnChangeText(line: Line, t: string): CartCall {
    UpdateQuantityCall(line.item.id, QuantityFromText(t))
  }

  /** `onPress={() => removeFromCart(item.id)}` */
  function OnRemove(line: Line): CartCall {
    RemoveFromCartCall(line.item.id)
  }

  /** The cart list after the provider performs the call. */
  function Perform(items: seq<Line>, call: CartCall): seq<Line> {
    match call
    case UpdateQuantityCall(id, q) => QuantityUpdate(items, id, q)
    case RemoveFromCartCall(id) => RemoveUpdate(items, id)
  }

  /** The amount a row shows: `item.price * item.quantity`, with no `|| 0`. */
  function DisplayedAmount(line: Line): Number {
    Times(line.price, FromInt(line.quantity))
  }

  /** Editing a row's text stores the quantity the text stands for on that
      line, and on no other; that quantity is never 0. */
  lemma EditStoresParsedQuantity(items: seq<Line>, k: int, t: string)
    requires UniqueKeys(items, LineId) && 0 <= k < |items|
    ensures var r := Perform(items, OnChangeText(items[k], t));
      && |r| == |items|
      && r[k] == items[k].(quantity := QuantityFromText(t))
      && r[k].quantity != 0
      && (forall i :: 0 <= i < |r| && i != k ==> r[i] == items[i])
  {
    UpdateStoresVerbatim(items, k, QuantityFromText(t));
  }

  /** A typed negative number is passed through and stored as is. */
  lemma NegativeTextStoresNegative(items: seq<Line>, k: int)
    requires UniqueKeys(items, LineId) && 0 <= k < |items|
    ensures Perform(items, OnChangeText(items[k], "-2"))[k].quantity == -2
  {
    assert QuantityFromText("-2") == -2 by {
      NegativeDigitIsKept('2');
      assert ['-', '2'] == "-2";
    }
    EditStoresParsedQuantity(items, k, "-2");
  }

  /** Submitting the text the row displays (`item.quantity.toString()`)
      leaves the cart as it was, unless the stored quantity is 0. */
  lemma RetypeDisplayedIsNoOp(items: seq<Line>, k: int)
    requires UniqueKeys(items, LineId) && 0 <= k < |items| && items[k].quantity != 0
    ensures Perform(items, OnChangeText(items[k], IntToString(items[k].quantity))) == items
  {
    QuantityTextRoundTrip(items[k].quantity);
    EditStoresParsedQuantity(items, k, IntToString(items[k].quantity));
  }

  /** Remove drops exactly this row's line and keeps the others in order. */
  lemma RemoveDropsThisLine(items: seq<Line>, k: int)
    requires UniqueKeys(items, LineId) && 0 <= k < |items|
    ensures Perform(items, OnRemove(items[k])) == items[..k] + items[k + 1..]
  {
    WithoutKeyAt(items, LineId, k);
  }

  /** Sum of the displayed amounts, in list order. */
  function SumDisplayed(items: seq<Line>): Number {
    if items == [] then Num(0.0)
    else Plus(SumDisplayed(items[..|items| - 1]), DisplayedAmount(items[|items| - 1]))
  }

  /** When every stored price is a number (as the provider keeps it), the
      rows' amounts add up to the cart's `total`; one missing price makes
      the rows' sum NaN although `total` counts it as 0. */
  lemma {:induction false} RowsAddUpToTotal(items: seq<Line>)
    ensures (forall i :: 0 <= i < |items| ==> items[i].price.Num?) ==> SumDisplayed(items) == Total(items)
    ensures (exists i :: 0 <= i < |items| && items[i].price.NaN?) ==> SumDisplayed(items) == NaN
    decreases |items|
  {
    if items != [] {
      var init := items[..|items| - 1];
      var last := items[|items| - 1];
      RowsAddUpToTotal(init);
      if exists i :: 0 <= i < |items| && items[i].price.NaN? {
        var i :| 0 <= i < |items| && items[i].price.NaN?;
        if i < |items| - 1 {
          assert init[i].price.NaN?;
        }
      }
      if forall i :: 0 <= i < |items| ==> items[i].price.Num? {
        assert forall i :: 0 <= i < |init| ==> init[i].price == items[i].price;
        TotalIsSum(init);
      }
    }
  }
}
