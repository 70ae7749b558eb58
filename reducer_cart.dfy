/** The cart the app mounts (context/CartContext.js): a reducer over four
    actions whose state holds the line items and a stored total that every
    action recomputes, and a provider whose public operations dispatch to it. */
module ReducerCart {
  import opened Js
  import opened Catalog
  import opened Seqs

  /** `{ ...item, quantity }`: a menu item in the cart with its quantity. */
  datatype Line = Line(item: MenuItem, quantity: int)

  datatype CartState = CartState(items: seq<Line>, total: Number)

  /** The reducer's actions, by their `type` tag; `Unrecognised` is any
      other tag, which the reducer's `default` case handles. */
  datatype Action =
    | AddItem(product: MenuItem)
    | RemoveItem(id: string)
    | UpdateQuantity(id: string, quantity: int)
    | ClearCart
    | Unrecognised(tag: string)

  const InitialState: CartState := CartState([], Num(0.0))

  /** `item.price * item.quantity`, on the raw `price` field of the menu item. */
  function LineTotal(line: Line): Number {
    Times(line.item.price, FromInt(line.quantity))
  }

  /** `calculateTotal`: the left fold `items.reduce((t, item) => t + item.price * item.quantity, 0)`. */
  function CalculateTotal(items: seq<Line>): Number {
    if items == [] then Num(0.0)
    else Plus(CalculateTotal(items[..|items| - 1]), LineTotal(items[|items| - 1]))
  }

  function LineId(line: Line): string {
    line.item.id
  }

  predicate HasLine(items: seq<Line>, id: string) {
    HasKey(items, LineId, id)
  }

  /** The `map` of ADD_ITEM on a present id: that id's quantity goes up by one. */
  function IncrementLine(items: seq<Line>, id: string): seq<Line> {
    seq(|items|, i requires 0 <= i < |items| =>
      if items[i].item.id == id then items[i].(quantity := items[i].quantity + 1) else items[i])
  }

  /** The `map` of UPDATE_QUANTITY: that id's quantity becomes `quantity`. */
  function SetQuantity(items: seq<Line>, id: string, quantity: int): seq<Line> {
    seq(|items|, i requires 0 <= i < |items| =>
      if items[i].item.id == id then items[i].(quantity := quantity) else items[i])
  }

  /** The `filter` of REMOVE_ITEM: every line whose id differs. */
  function WithoutId(items: seq<Line>, id: string): seq<Line> {
    WithoutKey(items, LineId, id)
  }

  /** `cartReducer` */
  function CartReducer(state: CartState, action: Action): CartState {
    match action
    case AddItem(product) =>
      if HasLine(state.items, product.id) then
        var updated := IncrementLine(state.items, product.id);
        state.(items := updated, total := CalculateTotal(updated))
      else
        var added := state.items + [Line(product, 1)];
        state.(items := added, total := CalculateTotal(added))
    case RemoveItem(id) =>
      var filtered := WithoutId(state.items, id);
      state.(items := filtered, total := CalculateTotal(filtered))
    case UpdateQuantity(id, quantity) =>
      var updated := SetQuantity(state.items, id, quantity);
      state.(items := updated, total := CalculateTotal(updated))
    case ClearCart => InitialState
    case Unrecognised(_) => state
  }

  // ---------------------------------------------------------------------
  // The invariant the public operations keep

  predicate UniqueIds(items: seq<Line>) {
    UniqueKeys(items, LineId)
  }

  predicate PositiveQuantities(items: seq<Line>) {
    forall i :: 0 <= i < |items| ==> items[i].quantity >= 1
  }

  /** Ids unique, every quantity at least 1, and the stored total equal to
      the total recomputed from the lines. */
  predicate WellFormed(state: CartState) {
    UniqueIds(state.items) && PositiveQuantities(state.items)
    && state.total == CalculateTotal(state.items)
  }

  // ---------------------------------------------------------------------
  // The total

  /** Reference sum of price times quantity, read from the front; a line
      without a numeric price counts 0 here. */
  function SumOfLines(items: seq<Line>): real {
    if items == [] then 0.0
    else (if items[0].item.price.Num? then items[0].item.price.v else 0.0) * items[0].quantity as real
         + SumOfLines(items[1..])
  }

  predicate AllPriced(items: seq<Line>) {
    forall i :: 0 <= i < |items| ==> items[i].item.price.Num?
  }

  lemma {:induction false} SumOfLinesAppend(a: seq<Line>, x: Line)
    ensures SumOfLines(a + [x]) == SumOfLines(a) + SumOfLines([x])
    decreases |a|
  {
    if a != [] {
      assert (a + [x])[1..] == a[1..] + [x];
      SumOfLinesAppend(a[1..], x);
    }
  }

  /** The stored-total recomputation is the sum of price times quantity when
      every line has a numeric `price`, and NaN as soon as one line lacks it. */
  lemma {:induction false} CalculateTotalIsSum(items: seq<Line>)
    ensures AllPriced(items) ==> CalculateTotal(items) == Num(SumOfLines(items))
    ensures !AllPriced(items) <==> CalculateTotal(items) == NaN
    decreases |items|
  {
    if items != [] {
      var init := items[..|items| - 1];
      var last := items[|items| - 1];
      assert items == init + [last];
      CalculateTotalIsSum(init);
      SumOfLinesAppend(init, last);
      if !AllPriced(items) && AllPriced(init) {
        assert !last.item.price.Num?;
      }
    }
  }

  lemma {:induction false} TotalOfConcat(a: seq<Line>, b: seq<Line>)
    ensures CalculateTotal(a + b) == Plus(CalculateTotal(a), CalculateTotal(b))
    decreases |b|
  {
    if b == [] {
      assert a + b == a;
    } else {
      var init := b[..|b| - 1];
      assert (a + b)[..|a + b| - 1] == a + init;
      TotalOfConcat(a, init);
    }
  }

  lemma WithoutIdKeepsWellFormedLines(items: seq<Line>, id: string)
    requires UniqueIds(items) && PositiveQuantities(items)
    ensures UniqueIds(WithoutId(items, id)) && PositiveQuantities(WithoutId(items, id))
  {
    WithoutKeyKeepsUnique(items, LineId, id);
    WithoutKeySpec(items, LineId, id);
    var r := WithoutId(items, id);
    forall i | 0 <= i < |r| ensures r[i].quantity >= 1 {
      assert r[i] in items;
    }
  }

  // ---------------------------------------------------------------------
  // The actions

  /** ADD_ITEM of an id not in the cart appends one line with quantity 1 at
      the end, leaves the existing lines as they were, and raises the stored
      total by the item's `price`. */
  lemma AddNewAppends(state: CartState, product: MenuItem)
    requires WellFormed(state) && !HasLine(state.items, product.id)
    ensures CartReducer(state, AddItem(product)).items == state.items + [Line(product, 1)]
    ensures CartReducer(state, AddItem(product)).total == Plus(state.total, Times(product.price, Num(1.0)))
  {
    var added := state.items + [Line(product, 1)];
    assert added[..|added| - 1] == state.items;
  }

  /** With unique ids, `IncrementLine` changes exactly line `k`. */
  lemma IncrementAt(items: seq<Line>, k: int)
    requires UniqueIds(items) && 0 <= k < |items|
    ensures IncrementLine(items, items[k].item.id)
         == items[..k] + [items[k].(quantity := items[k].quantity + 1)] + items[k + 1..]
  {
  }

  lemma TotalOfSplit(pre: seq<Line>, x: Line, post: seq<Line>)
    ensures CalculateTotal(pre + [x] + post) == Plus(Plus(CalculateTotal(pre), LineTotal(x)), CalculateTotal(post))
  {
    TotalOfConcat(pre + [x], post);
    TotalOfConcat(pre, [x]);
    assert [x][..0] == [];
  }

  lemma LineTotalIncrement(x: Line)
    ensures LineTotal(x.(quantity := x.quantity + 1)) == Plus(LineTotal(x), x.item.price)
  {
    if x.item.price.Num? {
      var p, q := x.item.price.v, x.quantity as real;
      assert p * (q + 1.0) == p * q + p;
    }
  }

  /** Adding 1 to the quantity of one line raises the total by that line's price. */
  lemma IncrementTotal(pre: seq<Line>, x: Line, post: seq<Line>)
    ensures CalculateTotal(pre + [x.(quantity := x.quantity + 1)] + post)
         == Plus(CalculateTotal(pre + [x] + post), x.item.price)
  {
    TotalOfSplit(pre, x, post);
    TotalOfSplit(pre, x.(quantity := x.quantity + 1), post);
    LineTotalIncrement(x);
    ShiftSummand(CalculateTotal(pre), LineTotal(x), x.item.price, CalculateTotal(post));
  }

  /** ADD_ITEM of an id already in the cart adds exactly 1 to that line's
      quantity, keeps every other line, the number of lines and the set of
      ids, and raises the stored total by the stored line's `price`. */
  lemma AddExistingIncrements(state: CartState, product: MenuItem, k: int)
    requires WellFormed(state) && 0 <= k < |state.items| && state.items[k].item.id == product.id
    ensures var r := CartReducer(state, AddItem(product));
      && |r.items| == |state.items|
      && r.items[k] == state.items[k].(quantity := state.items[k].quantity + 1)
      && (forall i :: 0 <= i < |r.items| && i != k ==> r.items[i] == state.items[i])
      && UniqueIds(r.items)
      && r.total == Plus(state.total, state.items[k].item.price)
  {
    var items := state.items;
    assert HasLine(items, product.id);
    var r := IncrementLine(items, product.id);
    assert CartReducer(state, AddItem(product)) == state.(items := r, total := CalculateTotal(r));
    IncrementKeepsIds(items, product.id);
    IncrementedTotal(items, k);
  }

  lemma IncrementKeepsIds(items: seq<Line>, id: string)
    requires UniqueIds(items)
    ensures UniqueIds(IncrementLine(items, id))
  {
    var r := IncrementLine(items, id);
    assert forall i :: 0 <= i < |r| ==> LineId(r[i]) == LineId(items[i]);
  }

  lemma IncrementedTotal(items: seq<Line>, k: int)
    requires UniqueIds(items) && 0 <= k < |items|
    ensures CalculateTotal(IncrementLine(items, items[k].item.id))
         == Plus(CalculateTotal(items), items[k].item.price)
  {
    IncrementAt(items, k);
    IncrementedSplitTotal(items, IncrementLine(items, items[k].item.id), k);
  }

  lemma IncrementedSplitTotal(items: seq<Line>, r: seq<Line>, k: int)
    requires 0 <= k < |items|
    requires r == items[..k] + [items[k].(quantity := items[k].quantity + 1)] + items[k + 1..]
    ensures CalculateTotal(r) == Plus(CalculateTotal(items), items[k].item.price)
  {
    assert items == items[..k] + [items[k]] + items[k + 1..];
    IncrementTotal(items[..k], items[k], items[k + 1..]);
  }

  /** REMOVE_ITEM keeps the other lines in order, leaves no line with the id,
      changes nothing when the id is absent, and recomputes the total. */
  lemma RemoveKeepsOthers(state: CartState, id: string)
    ensures var r := CartReducer(state, RemoveItem(id));
      && IsSubsequence(r.items, state.items)
      && !HasLine(r.items, id)
      && (forall x :: x in state.items && x.item.id != id ==> x in r.items)
      && (!HasLine(state.items, id) ==> r.items == state.items)
      && r.total == CalculateTotal(r.items)
  {
    WithoutKeySpec(state.items, LineId, id);
  }

  /** Removing line `k` of a well-formed cart lowers the stored total by
      exactly that line's total. */
  lemma {:induction false} RemoveSubtractsLine(state: CartState, k: int)
    requires WellFormed(state) && 0 <= k < |state.items|
    ensures Plus(CartReducer(state, RemoveItem(state.items[k].item.id)).total, LineTotal(state.items[k]))
         == state.total
  {
    var items := state.items;
    var pre, post := items[..k], items[k + 1..];
    WithoutKeyAt(items, LineId, k);
    assert items == pre + [items[k]] + post;
    TotalOfConcat(pre, post);
    TotalOfConcat(pre + [items[k]], post);
    TotalOfConcat(pre, [items[k]]);
    assert [items[k]][..0] == [];
  }

  /** UPDATE_QUANTITY sets the quantity of the lines with the id and touches
      nothing else; an absent id leaves the lines as they were. */
  lemma UpdateSetsOnlyMatching(state: CartState, id: string, quantity: int)
    ensures var r := CartReducer(state, UpdateQuantity(id, quantity));
      && |r.items| == |state.items|
      && (forall i :: 0 <= i < |r.items| ==>
            r.items[i] == if state.items[i].item.id == id then state.items[i].(quantity := quantity)
                          else state.items[i])
      && (!HasLine(state.items, id) ==> r.items == state.items)
      && r.total == CalculateTotal(r.items)
  {
  }

  /** CLEAR_CART returns the initial state from any state; an unrecognised
      action returns the state unchanged. */
  lemma ClearAndDefault(state: CartState, tag: string)
    ensures CartReducer(state, ClearCart) == InitialState
    ensures CartReducer(state, ClearCart).total == Num(0.0)
    ensures CartReducer(state, Unrecognised(tag)) == state
  {
  }

  /** If the stored total matched the lines before an action, it matches
      them after it, whatever the action; the initial state has total 0. */
  lemma TotalNeverDrifts(state: CartState, action: Action)
    requires state.total == CalculateTotal(state.items)
    ensures CartReducer(state, action).total == CalculateTotal(CartReducer(state, action).items)
    ensures InitialState.total == CalculateTotal(InitialState.items) == Num(0.0)
  {
  }

  // ---------------------------------------------------------------------
  // The public operations

  /** What the provider's `updateQuantity(id, quantity)` dispatches: a
      removal below 1, else UPDATE_QUANTITY. */
  function UpdateQuantityAction(id: string, quantity: int): Action {
    if quantity < 1 then RemoveItem(id) else UpdateQuantity(id, quantity)
  }

  lemma AddKeepsWellFormed(state: CartState, product: MenuItem)
    requires WellFormed(state)
    ensures WellFormed(CartReducer(state, AddItem(product)))
  {
    var items := state.items;
    if HasLine(items, product.id) {
      var k :| 0 <= k < |items| && items[k].item.id == product.id;
      AddExistingIncrements(state, product, k);
    } else {
      var added := items + [Line(product, 1)];
      forall i, j | 0 <= i < j < |added| ensures added[i].item.id != added[j].item.id {
        if j == |items| {
          assert added[i] == items[i];
        }
      }
    }
  }

  lemma SetQuantityKeepsWellFormed(state: CartState, id: string, quantity: int)
    requires WellFormed(state) && quantity >= 1
    ensures WellFormed(CartReducer(state, UpdateQuantity(id, quantity)))
  {
    var updated := SetQuantity(state.items, id, quantity);
    assert forall i :: 0 <= i < |updated| ==> LineId(updated[i]) == LineId(state.items[i]);
  }

  /** The three wrappers keep every quantity at least 1, the ids unique and
      the stored total equal to the recomputed one. */
  lemma WrappersKeepWellFormed(state: CartState, product: MenuItem, id: string, quantity: int)
    requires WellFormed(state)
    ensures WellFormed(CartReducer(state, AddItem(product)))
    ensures WellFormed(CartReducer(state, RemoveItem(id)))
    ensures WellFormed(CartReducer(state, UpdateQuantityAction(id, quantity)))
    ensures WellFormed(CartReducer(state, ClearCart))
  {
    AddKeepsWellFormed(state, product);
    WithoutIdKeepsWellFormedLines(state.items, id);
    if quantity >= 1 {
      SetQuantityKeepsWellFormed(state, id, quantity);
    }
  }

  /** The cart screen's minus button, `updateQuantity(id, quantity - 1)`, on a
      line of quantity 1 removes exactly that line and keeps the rest in order. */
  lemma MinusOnQuantityOneRemoves(state: CartState, k: int)
    requires WellFormed(state) && 0 <= k < |state.items| && state.items[k].quantity == 1
    ensures var line := state.items[k];
      CartReducer(state, UpdateQuantityAction(line.item.id, line.quantity - 1)).items
        == state.items[..k] + state.items[k + 1..]
  {
    WithoutKeyAt(state.items, LineId, k);
  }

  /** Removing an id and adding it again starts it afresh with quantity 1. */
  lemma RemoveThenAddIsFresh(state: CartState, product: MenuItem)
    ensures CartReducer(CartReducer(state, RemoveItem(product.id)), AddItem(product)).items
         == WithoutId(state.items, product.id) + [Line(product, 1)]
  {
    RemoveKeepsOthers(state, product.id);
  }

  /** The provider: the single stored state, changed only by dispatching. */
  class CartProvider {
    var state: CartState

    ghost predicate Valid()
      reads this
    {
      WellFormed(state)
    }

    constructor ()
      ensures Valid() && state == InitialState
    {
      state := InitialState;
    }

    /** `cartItems` as the provider exposes it. */
    function CartItems(): seq<Line>
      reads this
    {
      state.items
    }

    /** `total` as the provider exposes it. */
    function Total(): Number
      reads this
    {
      state.total
    }

    method AddToCart(item: MenuItem)
      requires Valid()
      modifies this
      ensures Valid()
      ensures state == CartReducer(old(state), AddItem(item))
    {
      AddKeepsWellFormed(state, item);
      state := CartReducer(state, AddItem(item));
    }

    method RemoveFromCart(id: string)
      requires Valid()
      modifies this
      ensures Valid()
      ensures state == CartReducer(old(state), RemoveItem(id))
    {
      WithoutIdKeepsWellFormedLines(state.items, id);
      state := CartReducer(state, RemoveItem(id));
    }

    /** A quantity below 1 turns into a removal. */
    method UpdateQuantity(id: string, quantity: int)
      requires Valid()
      modifies this
      ensures Valid()
      ensures quantity < 1 ==> state == CartReducer(old(state), RemoveItem(id))
      ensures quantity >= 1 ==> state == CartReducer(old(state), Action.UpdateQuantity(id, quantity))
    {
      if quantity < 1 {
        RemoveFromCart(id);
        return;
      }
      SetQuantityKeepsWellFormed(state, id, quantity);
      state := CartReducer(state, Action.UpdateQuantity(id, quantity));
    }

    method ClearCart()
      requires Valid()
      modifies this
      ensures Valid()
      ensures state == CartReducer(old(state), Action.ClearCart)
    {
      state := CartReducer(state, Action.ClearCart);
    }
  }
}
