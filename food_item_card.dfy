/** The menu card (components/FoodItemCard.js): it shows the resolved price
    of one menu item, keeps a quantity stepper, and hands the stepper's value
    to the second cart's `addToCart`. */
module FoodItemCard {
  import opened Js
  import opened Catalog
  import SetStateCart
  import opened Seqs

  /** The minus button: `Math.max(1, q - 1)`. */
  function StepDown(q: int): (r: int)
    ensures r >= 1
    ensures r <= q || q < 1
    ensures q > 1 <==> r == q - 1
  {
    if q - 1 > 1 then q - 1 else 1
  }

  /** The plus button: `q + 1`. */
  function StepUp(q: int): (r: int)
    ensures r > q
  {
    q + 1
  }

  /** Minus undoes plus on any stepper value of at least 1, and plus undoes
      minus on any value above 1. */
  lemma StepsUndoEachOther(q: int)
    ensures q >= 1 ==> StepDown(StepUp(q)) == q
    ensures q > 1 ==> StepUp(StepDown(q)) == q
    ensures q <= 1 ==> StepDown(q) == 1
  {
  }

  /** A button press on the stepper. */
  datatype Press = Minus | Plus

  function Apply(q: int, presses: seq<Press>): int
    decreases |presses|
  {
    if presses == [] then q
    else Apply(if presses[0] == Minus then StepDown(q) else StepUp(q), presses[1..])
  }

  /** Starting from 1, or from any value of at least 1, no sequence of button
      presses takes the stepper below 1, and it never ends higher than one
      step per press. */
  lemma {:induction false} ButtonsKeepQuantityPositive(q: int, presses: seq<Press>)
    requires q >= 1
    ensures 1 <= Apply(q, presses) <= q + |presses|
    decreases |presses|
  {
    if presses != [] {
      var next := if presses[0] == Minus then StepDown(q) else StepUp(q);
      ButtonsKeepQuantityPositive(next, presses[1..]);
    }
  }

  /** Typed text is not clamped: a typed negative quantity is kept, and a
      following plus press can bring the stepper to 0. */
  lemma TypedNegativeThenPlusGivesZero()
    ensures QuantityFromText("-1") == -1
    ensures StepUp(QuantityFromText("-1")) == 0
  {
    assert QuantityFromText("-1") == -1 by {
      NegativeDigitIsKept('1');
      assert ['-', '1'] == "-1";
    }
  }

  /** Whichever case `addToCart` takes, afterwards the cart holds a line for
      the card's item whose price is the price the card displays. */
  lemma CartLinePriceMatchesCard(prev: seq<SetStateCart.Line>, item: MenuItem, quantity: int)
    ensures var r := SetStateCart.AddUpdate(prev, item, quantity);
      exists k :: 0 <= k < |r| && r[k].item.id == item.id && r[k].price == ResolvePrice(item)
  {
    var r := SetStateCart.AddUpdate(prev, item, quantity);
    if HasKey(prev, SetStateCart.LineId, item.id) {
      var k :| 0 <= k < |prev| && SetStateCart.LineId(prev[k]) == item.id;
      assert r[k].item.id == item.id && r[k].price == ResolvePrice(item);
    } else {
      assert r[|prev|].item.id == item.id && r[|prev|].price == ResolvePrice(item);
    }
  }

  /** One card: the item it shows, the cart it adds to, and its stepper. */
  class Card {
    const item: MenuItem
    const cart: SetStateCart.CartProvider
    var qty: int

    /** `useState(1)`: the stepper starts at 1. */
    constructor (item: MenuItem, cart: SetStateCart.CartProvider)
      ensures this.item == item && this.cart == cart && qty == 1
    {
      this.item := item;
      this.cart := cart;
      qty := 1;
    }

    /** `getPrice()`: the resolved price the card displays. */
    function DisplayedPrice(): Number {
      ResolvePrice(item)
    }

    method PressMinus()
      modifies this
      ensures qty == StepDown(old(qty))
    {
      qty := StepDown(qty);
    }

    method PressPlus()
      modifies this
      ensures qty == StepUp(old(qty))
    {
      qty := StepUp(qty);
    }

    method TypeText(t: string)
      modifies this
      ensures qty == QuantityFromText(t)
    {
      qty := QuantityFromText(t);
    }

    /** The Add button: `addToCart(item, qty)`. Afterwards the cart holds a
        line for the item at the price the card displays; the stepper keeps
        its value. */
    method Add()
      requires cart.Valid()
      modifies cart
      ensures cart.Valid()
      ensures cart.cartItems == SetStateCart.AddUpdate(old(cart.cartItems), item, qty)
      ensures exists k :: 0 <= k < |cart.cartItems| && cart.cartItems[k].item.id == item.id
                          && cart.cartItems[k].price == DisplayedPrice()
      ensures qty == old(qty)
    {
      CartLinePriceMatchesCard(cart.cartItems, item, qty);
      cart.AddToCart(item, qty);
    }
  }
}
