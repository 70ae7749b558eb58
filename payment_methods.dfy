/** The payment picker (screens/PaymentMethodsScreen.js): a fixed list of
    methods, one selected id, and a selection that reports the chosen
    method to the caller and goes back. */
module PaymentMethods {
  import opened Js

  /** A payment method record. `kind` is its `type` field. The methods of
      the fixed list all carry an id and an icon; the order summary's
      default method carries neither. */
  datatype PaymentMethod = PaymentMethod(id: Option<string>, kind: string, last4: string, icon: Option<string>)

  /** `PAYMENT_METHODS` */
  const Methods: seq<PaymentMethod> := [
    PaymentMethod(Some("visa"), "Visa", "4242", Some("card")),
    PaymentMethod(Some("mastercard"), "Mastercard", "1234", Some("card")),
    PaymentMethod(Some("paypal"), "PayPal", "paypal@example.com", Some("wallet")),
    PaymentMethod(Some("applepay"), "Apple Pay",
      "\U{2022}\U{2022}\U{2022}\U{2022} \U{2022}\U{2022}\U{2022}\U{2022} \U{2022}\U{2022}\U{2022}\U{2022} 5678",
      Some("logo-apple"))
  ]

  /** `selectedMethod?.id || ''` */
  function InitialSelectedId(selectedMethod: Option<PaymentMethod>): string {
    match selectedMethod
    case Some(PaymentMethod(Some(id), _, _, _)) => id
    case _ => ""
  }

  /** `selectedId === method.id`: the row shows the check mark. */
  predicate Marked(selectedId: string, m: PaymentMethod) {
    m.id == Some(selectedId)
  }

  /** Every method of the list has an id, and no two share one. */
  lemma MethodIdsDistinct()
    ensures forall i :: 0 <= i < |Methods| ==> Methods[i].id.Some? && Methods[i].id.value != ""
    ensures forall i, j :: 0 <= i < j < |Methods| ==> Methods[i].id != Methods[j].id
  {
  }

  /** At most one row is marked, whatever the selected id; the empty id
      marks none, and a method's own id marks exactly that method. */
  lemma AtMostOneMarked(selectedId: string)
    ensures forall i, j ::
      (0 <= i < |Methods| && 0 <= j < |Methods| && Marked(selectedId, Methods[i]) && Marked(selectedId, Methods[j]))
      ==> i == j
    ensures selectedId == "" ==> forall i :: 0 <= i < |Methods| ==> !Marked(selectedId, Methods[i])
    ensures forall k :: 0 <= k < |Methods| ==>
      (forall i :: 0 <= i < |Methods| ==> (Marked(Methods[k].id.value, Methods[i]) <==> i == k))
  {
    MethodIdsDistinct();
  }

  /** Opening the picker on a method of the list marks that method. */
  lemma ListMethodStartsMarked(k: int)
    requires 0 <= k < |Methods|
    ensures Marked(InitialSelectedId(Some(Methods[k])), Methods[k])
  {
  }

  class Screen {
    var selectedId: string
    /** Whether an `onSelect` callback came with the route. */
    const hasCallback: bool
    /** The methods handed to the callback, in order. */
    var delivered: seq<PaymentMethod>
    var wentBack: bool

    constructor (selectedMethod: Option<PaymentMethod>, hasCallback: bool)
      ensures selectedId == InitialSelectedId(selectedMethod) && this.hasCallback == hasCallback
      ensures delivered == [] && !wentBack
    {
      selectedId := InitialSelectedId(selectedMethod);
      this.hasCallback := hasCallback;
      delivered := [];
      wentBack := false;
    }

    /** `handleSelect(method)` for the row at `index`: mark it, report it to
        the callback when there is one, and go back. */
    method HandleSelect(index: nat)
      requires index < |Methods|
      modifies this
      ensures selectedId == Methods[index].id.value
      ensures delivered == old(delivered) + (if hasCallback then [Methods[index]] else [])
      ensures wentBack
    {
      selectedId := Methods[index].id.value;
      if hasCallback {
        delivered := delivered + [Methods[index]];
      }
      wentBack := true;
    }
  }
}
