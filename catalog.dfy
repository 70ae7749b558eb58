/** A menu item as the app reads it from the `menuItems` collection, and the
    two input rules shared by the components that feed the carts: the price
    resolver and the quantity typed as text. */
module Catalog {
  import opened Js

  /** A menu document. `category` is the document's `type` field. The three
      price fields are `price`, the capitalised `Price` and `amount`; any of
      them may be missing (NaN). Display-only fields (image, veg flag) are
      not part of the model. */
  datatype MenuItem = MenuItem(
    id: string,
    name: string,
    description: Option<string>,
    category: Option<string>,
    price: Number,
    priceCapitalised: Number,
    amount: Number)

  /** The price fields in the order the resolver consults them. */
  function PriceFields(item: MenuItem): seq<Number> {
    [item.price, item.priceCapitalised, item.amount]
  }

  /** The value of the first truthy number in `fields`, scanning from the front. */
  function FirstTruthy(fields: seq<Number>): Option<real> {
    if fields == [] then None
    else if Truthy(fields[0]) then Some(fields[0].v)
    else FirstTruthy(fields[1..])
  }

  /** `Number(item.price || item.Price || item.amount || 0)`. */
  function ResolvePrice(item: MenuItem): Number {
    Or(Or(Or(item.price, item.priceCapitalised), item.amount), Num(0.0))
  }

  /** The resolved price is the first truthy price field, else 0; it is
      always a number, and it is zero exactly when no field is truthy. */
  lemma ResolvePriceIsFirstTruthy(item: MenuItem)
    ensures ResolvePrice(item) == Num(match FirstTruthy(PriceFields(item)) case Some(v) => v case None => 0.0)
    ensures ResolvePrice(item) == Num(0.0) <==> forall k :: 0 <= k < 3 ==> !Truthy(PriceFields(item)[k])
  {
    var f := PriceFields(item);
    assert f[1..] == [item.priceCapitalised, item.amount];
    assert f[1..][1..] == [item.amount];
    assert f[1..][1..][1..] == [];
    assert FirstTruthy(f[1..][1..]) == if Truthy(item.amount) then Some(item.amount.v) else None;
    assert FirstTruthy(f[1..]) == if Truthy(item.priceCapitalised) then Some(item.priceCapitalised.v)
                                  else FirstTruthy(f[1..][1..]);
  }

  /** A `price` of 0 is falsy and counts as missing: the resolver falls
      through to `Price` and `amount` exactly as if `price` were absent. */
  lemma ZeroPriceFallsThrough(item: MenuItem)
    requires item.price == Num(0.0)
    ensures ResolvePrice(item) == ResolvePrice(item.(price := NaN))
    ensures Truthy(item.priceCapitalised) ==> ResolvePrice(item) == item.priceCapitalised
  {
  }

  /** `parseInt(t) || 1`: the quantity a typed text stands for. NaN and 0 are
      falsy and give 1; any other parsed integer, negative ones included, is
      kept. */
  function QuantityFromText(t: string): (q: int)
    ensures q != 0
    ensures ParseInt(t).Some? && ParseInt(t).value != 0 ==> q == ParseInt(t).value
    ensures ParseInt(t).None? || ParseInt(t) == Some(0) ==> q == 1
  {
    match ParseInt(t)
    case Some(n) => if n != 0 then n else 1
    case None => 1
  }

  /** Submitting the text a quantity field displays (`quantity.toString()`)
      gives back that quantity, except that 0 becomes 1. */
  lemma QuantityTextRoundTrip(n: int)
    ensures QuantityFromText(IntToString(n)) == if n == 0 then 1 else n
  {
    ParseIntRoundTrip(n);
  }

  /** A minus sign and one nonzero digit, as typed into a quantity field,
      give that negative quantity: nothing clamps typed text. */
  lemma NegativeDigitIsKept(d: char)
    requires '1' <= d <= '9'
    ensures QuantityFromText(['-', d]) == -(DigitValue(d) as int)
    ensures QuantityFromText(['-', d]) < 0
  {
    var digits: string := [d];
    assert DigitRun(digits, 10) == 1 by {
      assert digits[1..] == [];
    }
    assert ValueOf(digits[..1], 10) == DigitValue(d) by {
      assert digits[..1] == digits;
      assert digits[..0] == [];
    }
    ParseNegatedDigits(digits, DigitValue(d));
    assert ['-'] + digits == ['-', d];
  }

  /** Text with no leading digit, such as an emptied field, gives 1, and so
      does a typed zero. */
  lemma NoDigitsIsOne()
    ensures QuantityFromText("") == 1
    ensures QuantityFromText("0") == 1
  {
    assert ParseMagnitude("0") == Some(0) by {
      assert DigitRun("0", 10) == 1;
      assert "0"[..1] == "0";
    }
    TrimStartKeeps("0");
  }
}
