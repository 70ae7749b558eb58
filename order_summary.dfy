/** The order summary (screens/OrderSummaryScreen.js): the price breakdown
    over the mounted cart, the address and payment method it holds, and
    `confirmOrder`, which writes the order and clears the cart only when the
    write succeeds. */
module OrderSummary {
  import opened Js
  import ReducerCart
  import EditAddress
  import PaymentMethods

  /** `calculateSubtotal`: the same fold as the cart's `calculateTotal`,
      `sum + item.price * item.quantity` over the lines from 0. */
  function Subtotal(lines: seq<ReducerCart.Line>): Number {
    ReducerCart.CalculateTotal(lines)
  }

  /** `deliveryFee`, a constant independent of the cart. */
  const DeliveryFee: Number := Num(2.99)

  /** `subtotal * 0.08` */
  function Tax(subtotal: Number): Number {
    Times(subtotal, Num(0.08))
  }

  /** `subtotal + deliveryFee + tax`, the amount both the summary row and
      the footer show. */
  function GrandTotal(subtotal: Number): Number {
    Plus(Plus(subtotal, DeliveryFee), Tax(subtotal))
  }

  /** The subtotal the screen computes is the total the cart stores, and it
      is the sum of price times quantity when every line has a numeric
      price; the empty cart's subtotal is 0. */
  lemma SubtotalIsCartTotal(state: ReducerCart.CartState)
    requires ReducerCart.WellFormed(state)
    ensures Subtotal(state.items) == state.total
    ensures ReducerCart.AllPriced(state.items) ==> Subtotal(state.items) == Num(ReducerCart.SumOfLines(state.items))
    ensures state.items == [] ==> Subtotal(state.items) == Num(0.0)
  {
    ReducerCart.CalculateTotalIsSum(state.items);
  }

  /** The grand total is 1.08 times the subtotal plus 2.99; a NaN subtotal
      makes tax and grand total NaN; for a subtotal of at least 0 the grand
      total exceeds it by at least the fee. */
  lemma GrandTotalFormula(subtotal: Number)
    ensures subtotal.Num? ==> GrandTotal(subtotal) == Num(subtotal.v * 1.08 + 2.99)
    ensures subtotal.Num? ==> Tax(subtotal) == Num(subtotal.v * 0.08)
    ensures subtotal.NaN? ==> Tax(subtotal) == NaN && GrandTotal(subtotal) == NaN
    ensures subtotal.Num? && subtotal.v >= 0.0 ==> GrandTotal(subtotal).v >= subtotal.v + 2.99
  {
  }

  /** A subtotal of 15 gives a tax of 1.20 and a grand total of 19.19. */
  lemma FifteenExample()
    ensures Tax(Num(15.0)) == Num(1.2)
    ensures GrandTotal(Num(15.0)) == Num(19.19)
  {
  }

  /** The delivery address the screen starts with. */
  const DefaultAddress: EditAddress.Address :=
    EditAddress.Address("John Doe", "123 Food Street, Apt 4B", "San Francisco, CA 94103", "+1 (555) 123-4567")

  /** The payment method the screen starts with: a type and last four
      digits, but no id. */
  const DefaultPaymentMethod: PaymentMethods.PaymentMethod :=
    PaymentMethods.PaymentMethod(None, "Credit Card", "4242", None)

  /** Opening the picker on the default method selects and marks nothing,
      although the default's last four digits are those of the Visa entry. */
  lemma DefaultMethodSelectsNothing()
    ensures PaymentMethods.InitialSelectedId(Some(DefaultPaymentMethod)) == ""
    ensures forall i :: 0 <= i < |PaymentMethods.Methods| ==>
      !PaymentMethods.Marked(PaymentMethods.InitialSelectedId(Some(DefaultPaymentMethod)), PaymentMethods.Methods[i])
    ensures DefaultPaymentMethod.last4 == PaymentMethods.Methods[0].last4
  {
    PaymentMethods.AtMostOneMarked("");
  }

  /** The order document written to the `orders` collection (the server
      timestamp is not modelled). */
  datatype OrderRecord = OrderRecord(
    items: seq<ReducerCart.Line>,
    total: Number,
    status: string,
    deliveryAddress: EditAddress.Address,
    paymentMethod: PaymentMethods.PaymentMethod)

  function MakeRecord(state: ReducerCart.CartState, address: EditAddress.Address,
                      method_: PaymentMethods.PaymentMethod): OrderRecord {
    OrderRecord(state.items, state.total, "preparing", address, method_)
  }

  /** The record carries the cart's stored total, the pre-tax, pre-fee
      subtotal: whenever that total is a number of at least 0 it differs
      from the grand total the customer was shown. */
  lemma RecordCarriesPreTaxTotal(state: ReducerCart.CartState, address: EditAddress.Address,
                                 method_: PaymentMethods.PaymentMethod)
    requires ReducerCart.WellFormed(state)
    ensures MakeRecord(state, address, method_).total == Subtotal(state.items)
    ensures state.total.Num? && state.total.v >= 0.0 ==>
      MakeRecord(state, address, method_).total != GrandTotal(Subtotal(state.items))
  {
    SubtotalIsCartTotal(state);
    GrandTotalFormula(state.total);
  }

  class Screen {
    const cart: ReducerCart.CartProvider
    var isLoading: bool
    var deliveryAddress: EditAddress.Address
    var paymentMethod: PaymentMethods.PaymentMethod
    /** The orders written so far, oldest first. */
    var written: seq<OrderRecord>
    var errorShown: bool
    var navigatedToSuccess: bool

    constructor (cart: ReducerCart.CartProvider)
      ensures this.cart == cart && !isLoading
      ensures deliveryAddress == DefaultAddress && paymentMethod == DefaultPaymentMethod
      ensures written == [] && !errorShown && !navigatedToSuccess
    {
      this.cart := cart;
      isLoading := false;
      deliveryAddress := DefaultAddress;
      paymentMethod := DefaultPaymentMethod;
      written := [];
      errorShown := false;
      navigatedToSuccess := false;
    }

    /** The total shown in the summary row and in the footer. */
    function ShownTotal(): Number
      reads this, cart
    {
      GrandTotal(Subtotal(cart.CartItems()))
    }

    /** `handleAddressUpdate`, the address form's `onSave`. */
    method HandleAddressUpdate(newAddress: EditAddress.Address)
      modifies this
      ensures deliveryAddress == newAddress && paymentMethod == old(paymentMethod)
      ensures isLoading == old(isLoading) && written == old(written)
      ensures errorShown == old(errorShown) && navigatedToSuccess == old(navigatedToSuccess)
    {
      deliveryAddress := newAddress;
    }

    /** `handlePaymentMethodSelect`, the picker's `onSelect`. */
    method HandlePaymentMethodSelect(m: PaymentMethods.PaymentMethod)
      modifies this
      ensures paymentMethod == m && deliveryAddress == old(deliveryAddress)
      ensures isLoading == old(isLoading) && written == old(written)
      ensures errorShown == old(errorShown) && navigatedToSuccess == old(navigatedToSuccess)
    {
      paymentMethod := m;
    }

    /** `confirmOrder`, with the outcome of the write as an input. The
        button is disabled while loading, so the method is entered with
        `isLoading` false; `loadingDuringWrite` is the flag's value while
        the write is pending. The written record carries the cart's stored,
        pre-tax total, not the grand total the screen showed. */
    method ConfirmOrder(writeSucceeds: bool) returns (loadingDuringWrite: bool)
      requires cart.Valid() && !isLoading
      modifies this, cart
      ensures cart.Valid()
      ensures loadingDuringWrite && !isLoading
      ensures deliveryAddress == old(deliveryAddress) && paymentMethod == old(paymentMethod)
      ensures writeSucceeds ==>
        && written == old(written) + [MakeRecord(old(cart.state), deliveryAddress, paymentMethod)]
        && cart.state == ReducerCart.InitialState
        && navigatedToSuccess && errorShown == old(errorShown)
      ensures !writeSucceeds ==>
        && written == old(written)
        && cart.state == old(cart.state)
        && errorShown && navigatedToSuccess == old(navigatedToSuccess)
      ensures writeSucceeds && old(cart.Total()).Num? && old(cart.Total()).v >= 0.0 ==>
        written[|written| - 1].total != old(ShownTotal())
    {
      RecordCarriesPreTaxTotal(cart.state, deliveryAddress, paymentMethod);
      isLoading := true;
      var record := MakeRecord(cart.state, deliveryAddress, paymentMethod);
      loadingDuringWrite := isLoading;
      if writeSucceeds {
        written := written + [record];
        cart.ClearCart();
        ReducerCart.ClearAndDefault(old(cart.state), "");
        navigatedToSuccess := true;
      } else {
        errorShown := true;
      }
      isLoading := false;
    }
  }
}
