# Yum-Yum cart and ordering rules in Dafny

Yum-Yum is a React Native food-ordering app. This project models the app's
shopping-cart state and the small rules around it, and proves properties of
that model. The rules covered are:

- the menu search and category filter;
- the card's quantity stepper;
- the price breakdown and the order confirmation;
- the address form;
- the payment-method picker.

The repository has two separate cart implementations, and the model keeps them apart:

- **`ReducerCart`** models `context/CartContext.js`, the cart the app mounts.
  - A reducer handles `ADD_ITEM`, `REMOVE_ITEM`, `UPDATE_QUANTITY` and `CLEAR_CART`, plus a default case.
  - The reducer stores a `total` that every action recomputes.
  - The provider wraps the reducer in a class with one `state` field.
  - The provider's `updateQuantity` turns a quantity below 1 into a removal.
  - The invariant `WellFormed` holds after every public operation: ids are unique, every quantity is at least 1, and the stored total equals the recomputed one.
- **`SetStateCart`** models `contexts/CartContext.js`, the cart that the menu card and the cart row consume.
  - Every operation replaces the `cartItems` list through an updater function.
  - `addToCart` merges by id, adds the requested quantity, and resolves the price on every add.
  - `updateQuantity` stores the quantity verbatim.
  - `total` is derived from the list.

The shared modules are:

- **`Js`** holds the JavaScript value rules the code relies on.
  - A number is NaN or a real. A missing numeric field behaves as NaN under every operation used.
  - Number truthiness, `||`, `+` and `*` are defined on that number type.
  - `toLowerCase` (ASCII letters only) and `includes`.
  - `parseInt` without a radix: leading white space, one sign, a `0x` prefix, then the longest digit run.
  - The decimal text of an integer.
- **`Catalog`** holds the menu item and two rules the components share:
  - the price resolver `Number(price || Price || amount || 0)`;
  - the text-to-quantity coercion `parseInt(t) || 1`.
- **`Seqs`** holds order-preserving subsequences, and the remove-by-id filter over sequences keyed by an id.

The screens are:

- **`FoodItemCard`**: the card's displayed price, its stepper (a class with a `qty` field) and its Add button.
- **`CartItem`**: the stateless cart row.
- **`MenuScreen`**: the filter, the popular slice, the badge count, the order bar, and the screen's state (a class).
- **`OrderSummary`**:
  - the subtotal, the tax (8%), the delivery fee (2.99) and the grand total;
  - the order record;
  - `confirmOrder`, with the outcome of the Firestore write as an input.
- **`EditAddress`**: the address form, its per-field edits and its save validation.
- **`PaymentMethods`**: the fixed method list, the initial selection and `handleSelect`.

Two facts about the mounted cart follow from the code.

**The mounted cart does not resolve prices.** It multiplies the menu item's raw `price` field by the quantity. So a menu item priced only through `Price` or `amount` makes the stored total NaN (`ReducerCart.CalculateTotalIsSum`). A NaN total also hides the menu's order bar (`MenuScreen.OrderBarVisibility`).

**The second cart stores negative quantities.** A row of the second cart passes a typed negative number through `parseInt(t) || 1` unchanged. That cart's `updateQuantity` then stores it (`CartItem.NegativeTextStoresNegative`).

Four more facts of the code decide how the two carts differ:

- **Quantity on add.** The mounted cart ignores any quantity and always adds 1. The second cart adds the quantity it is given, unclamped.
- **Quantity below 1.** The mounted cart's provider turns an update below 1 into a removal. The second cart stores a quantity below 1 as it is.
- **Total.** The mounted cart stores its total in its state and recomputes it on every action. The second cart derives its total from the list on every render.
- **Price resolution.** The second cart resolves the price with `price || Price || amount || 0` on every add. The mounted cart uses the raw `price` field.

## Model

| member | source | states |
|---|---|---|
| `ReducerCart.CartReducer` | context/CartContext.js:13-67 | Defines the reducer, with no contract of its own. `ADD_ITEM` adds 1 to an existing id's line or appends a quantity-1 line. `REMOVE_ITEM` filters the id out. `UPDATE_QUANTITY` sets the quantity on the id's line. `CLEAR_CART` returns the initial state, and any other action returns the state. Every arm recomputes the total. The lemmas below state its properties. |
| `ReducerCart.CalculateTotal` | context/CartContext.js:70-72 | Defines `calculateTotal`, the left fold of `total + price * quantity` from 0. `CalculateTotalIsSum` ties it to an independent sum. |
| `ReducerCart.UpdateQuantityAction` | context/CartContext.js:87-93 | Defines what `updateQuantity` dispatches: `REMOVE_ITEM` below 1, otherwise `UPDATE_QUANTITY`. `MinusOnQuantityOneRemoves` and `WrappersKeepWellFormed` state its effect. |
| `ReducerCart.AddNewAppends` | context/CartContext.js:33-39 | Adding an id not in the cart appends exactly one line with quantity 1 at the end and leaves the existing lines as they were. The new total is the old total plus the item's price times 1. |
| `ReducerCart.AddExistingIncrements` | context/CartContext.js:17-31 | Adding an id already in the cart adds exactly 1 to that line's quantity. Every other line, the number of lines and the uniqueness of ids are kept, and the stored total rises by that line's price. |
| `ReducerCart.IncrementAt` | context/CartContext.js:21-25 | With unique ids, the `map` of `ADD_ITEM` changes exactly line k, by one unit. |
| `ReducerCart.CalculateTotalIsSum` | context/CartContext.js:70-72 | `calculateTotal` is the sum of price times quantity over the lines when every line has a numeric `price`. It is NaN exactly when some line lacks one. |
| `ReducerCart.TotalOfConcat` | context/CartContext.js:70-72 | The total of two concatenated line lists is the sum of their totals, NaN included. |
| `ReducerCart.IncrementTotal` | context/CartContext.js:23 | Raising one line's quantity by 1 raises the total by that line's price, wherever the line sits. |
| `ReducerCart.RemoveKeepsOthers` | context/CartContext.js:41-47 | `REMOVE_ITEM` returns an order-preserving subsequence of the lines that has no line with the id, keeps every line with another id, and leaves an absent id's cart unchanged. The total is recomputed. |
| `ReducerCart.RemoveSubtractsLine` | context/CartContext.js:41-47 | In a well-formed cart, removing line k lowers the stored total by exactly that line's total. |
| `ReducerCart.UpdateSetsOnlyMatching` | context/CartContext.js:49-59 | `UPDATE_QUANTITY` sets the quantity of the line with the id and leaves every other line and the order untouched. An absent id leaves the lines unchanged. |
| `ReducerCart.ClearAndDefault` | context/CartContext.js:61-65 | `CLEAR_CART` returns the initial state, with total 0, from any state. An unrecognised action returns the state unchanged. |
| `ReducerCart.TotalNeverDrifts` | context/CartContext.js:7-10 | If the stored total matched the lines before an action, it matches them after, whatever the action. The initial state is empty with total 0. |
| `ReducerCart.AddKeepsWellFormed` | context/CartContext.js:15-39 | `ADD_ITEM` keeps ids unique, quantities at least 1 and the stored total exact. |
| `ReducerCart.SetQuantityKeepsWellFormed` | context/CartContext.js:49-59 | `UPDATE_QUANTITY` with a quantity of at least 1 keeps the invariant. |
| `ReducerCart.WithoutIdKeepsWellFormedLines` | context/CartContext.js:42 | Filtering an id out keeps ids unique and quantities at least 1. |
| `ReducerCart.WrappersKeepWellFormed` | context/CartContext.js:79-97 | Every public operation keeps ids unique, quantities at least 1 and the stored total exact. This covers add, remove, `updateQuantity` (which removes the line below 1) and clear. |
| `ReducerCart.MinusOnQuantityOneRemoves` | context/CartContext.js:87-91 | The cart screen's minus button on a line of quantity 1 removes exactly that line and keeps the rest in order. |
| `ReducerCart.RemoveThenAddIsFresh` | context/CartContext.js:34 | Removing an id and adding it again gives a fresh line of quantity 1 at the end. |
| `ReducerCart.CartProvider.constructor` | context/CartContext.js:76 | The provider starts in the initial state, which is well formed. |
| `ReducerCart.CartProvider.AddToCart` | context/CartContext.js:79-81 | Dispatches `ADD_ITEM` and keeps the invariant. |
| `ReducerCart.CartProvider.RemoveFromCart` | context/CartContext.js:83-85 | Dispatches `REMOVE_ITEM` and keeps the invariant. |
| `ReducerCart.CartProvider.UpdateQuantity` | context/CartContext.js:87-93 | Below 1 it dispatches a removal; otherwise it dispatches `UPDATE_QUANTITY`. It keeps the invariant. |
| `ReducerCart.CartProvider.ClearCart` | context/CartContext.js:95-97 | Dispatches `CLEAR_CART`; the state becomes the initial state. |
| `SetStateCart.AddUpdate` | contexts/CartContext.js:8-23 | Defines the add updater: merge by id, adding the quantity and refreshing the resolved price, or append a new line. `AddAbsentAppends`, `AddPresentMerges` and `AddKeepsIdsUnique` state its properties. |
| `SetStateCart.QuantityUpdate` | contexts/CartContext.js:25-27 | Defines the quantity updater, a `map` that stores the quantity on the id's line. `UpdateStoresVerbatim` states its effect. |
| `SetStateCart.RemoveUpdate` | contexts/CartContext.js:29-31 | Defines the remove updater, a filter on the id. `RemoveFilters` states its effect. |
| `SetStateCart.Total` | contexts/CartContext.js:35-38 | Defines the derived total, the fold of `(Number(price) or 0) * quantity` from 0. `TotalIsSum` ties it to an independent sum. |
| `SetStateCart.TotalIsSum` | contexts/CartContext.js:35-38 | The derived total is never NaN. It equals the sum of price times quantity, with a missing or zero price counting 0, and it is 0 for an empty cart. |
| `SetStateCart.LineAmountIsSum` | contexts/CartContext.js:36-37 | One line's amount `(Number(price) or 0) * quantity` is always a number: its price times its quantity, with a falsy price counting 0. |
| `SetStateCart.AddAbsentAppends` | contexts/CartContext.js:21 | Adding an absent id appends `{...item, price: resolved, quantity}` at the end. The total rises by the resolved price times the quantity. |
| `SetStateCart.AddPresentMerges` | contexts/CartContext.js:10-19 | Adding a present id adds the requested quantity to that line and overwrites its price with the freshly resolved one. Every other line and the line count are kept, and no duplicate id is created. |
| `SetStateCart.AddKeepsIdsUnique` | contexts/CartContext.js:8-23 | Whichever branch `addToCart` takes, ids stay unique. |
| `SetStateCart.UpdateStoresVerbatim` | contexts/CartContext.js:25-27 | `updateQuantity` stores the given quantity on the matching line with no removal or clamp, negative values included. Every other line is unchanged. |
| `SetStateCart.RemoveFilters` | contexts/CartContext.js:29-31 | `removeFromCart` keeps the other lines in order and leaves no line with the id. It is a no-op when the id is absent. |
| `SetStateCart.RemoveThenAddIsFresh` | contexts/CartContext.js:9-22 | Removing an id and adding it again appends a fresh line carrying only the new quantity. |
| `SetStateCart.TwoAddsMerge` | contexts/CartContext.js:14-19 | Adding a product at price 5 with quantity 1, then again with quantity 2, gives one line of quantity 3 and a total of 15. |
| `SetStateCart.CartProvider.constructor` | contexts/CartContext.js:6 | The cart starts empty; ids are unique and every stored price is a number. |
| `SetStateCart.CartProvider.AddToCart` | contexts/CartContext.js:8-23 | Replaces the list by the add updater and keeps the invariant. |
| `SetStateCart.CartProvider.UpdateQuantity` | contexts/CartContext.js:25-27 | Replaces the list by the quantity updater and keeps the invariant. |
| `SetStateCart.CartProvider.RemoveFromCart` | contexts/CartContext.js:29-31 | Replaces the list by the filter and keeps the invariant. |
| `SetStateCart.CartProvider.ClearCart` | contexts/CartContext.js:33 | Empties the list; the derived total is then 0. |
| `Catalog.ResolvePrice` | contexts/CartContext.js:12 | Defines the price resolver `price or Price or amount or 0`. `ResolvePriceIsFirstTruthy` ties it to an independent first-truthy scan. |
| `Catalog.ResolvePriceIsFirstTruthy` | contexts/CartContext.js:12 | The resolved price is the first truthy value among `price`, `Price` and `amount`, else 0. It is always a number, and it is 0 exactly when no field is truthy. |
| `Catalog.ZeroPriceFallsThrough` | contexts/CartContext.js:12 | A `price` of 0 falls through to the next field exactly as a missing one does. |
| `Catalog.QuantityFromText` | components/FoodItemCard.js:87 | `parseInt(t) or 1` is never 0. When the text parses to a nonzero integer, the result is that integer. When it parses to 0 or to nothing, the result is 1. |
| `Catalog.QuantityTextRoundTrip` | components/CartItem.js:14-15 | Submitting the text a quantity field shows gives that quantity back, except that 0 becomes 1. |
| `Catalog.NoDigitsIsOne` | components/FoodItemCard.js:87 | An emptied field and a typed 0 both give quantity 1. |
| `Catalog.NegativeDigitIsKept` | components/FoodItemCard.js:87 | A typed minus sign followed by one nonzero digit gives that negative quantity, unclamped. |
| `Js.ParseInt` | components/FoodItemCard.js:87 | Defines `parseInt` without a radix, as the app calls it. `ParseIntRoundTrip` shows that it inverts the decimal text of every integer. |
| `Js.ParseIntRoundTrip` | components/CartItem.js:14-15 | `parseInt` of the decimal text of any integer gives that integer back. |
| `Js.IncludesIff` | screens/MenuScreen.js:64-65 | `includes` holds exactly when the query occurs at some position of the text. |
| `Js.ToLower` | screens/MenuScreen.js:64-65 | Lower-casing keeps the length and maps each character on its own. |
| `Seqs.WithoutKeySpec` | context/CartContext.js:42 | Filtering out an id gives an order-preserving subsequence that is never longer than the input. An element is in the result iff it is in the input with another id, and an absent id changes nothing. |
| `Seqs.WithoutKeyAt` | contexts/CartContext.js:30 | With unique ids, filtering out line k's id removes exactly line k. |
| `Seqs.WithoutKeyKeepsUnique` | contexts/CartContext.js:30 | Filtering keeps ids unique. |
| `FoodItemCard.StepDown` | components/FoodItemCard.js:78 | The minus button never goes below 1, and it goes down by exactly one when the quantity is above 1. |
| `FoodItemCard.StepUp` | components/FoodItemCard.js:92 | The plus button raises the quantity. |
| `FoodItemCard.StepsUndoEachOther` | components/FoodItemCard.js:78-92 | Minus undoes plus from any quantity of at least 1, and plus undoes minus above 1. |
| `FoodItemCard.ButtonsKeepQuantityPositive` | components/FoodItemCard.js:10 | From 1 (or any value of at least 1), no sequence of minus and plus presses takes the quantity below 1. It never exceeds one step per press. |
| `FoodItemCard.TypedNegativeThenPlusGivesZero` | components/FoodItemCard.js:87-92 | Typed text is not clamped: "-1" gives -1, and a plus press then gives 0. |
| `FoodItemCard.CartLinePriceMatchesCard` | components/FoodItemCard.js:31-34 | After `addToCart`, in either branch, the cart holds a line for the item whose price is the price the card displays. |
| `FoodItemCard.Card.constructor` | components/FoodItemCard.js:10 | The stepper starts at 1. |
| `FoodItemCard.Card.DisplayedPrice` | components/FoodItemCard.js:31-36 | Defines `getPrice()`, the resolved price the card shows. `Card.Add` and `CartLinePriceMatchesCard` state that the cart line carries it. |
| `FoodItemCard.Card.PressMinus` | components/FoodItemCard.js:78 | Sets `qty` to `max(1, qty - 1)`. |
| `FoodItemCard.Card.PressPlus` | components/FoodItemCard.js:92 | Sets `qty` to `qty + 1`. |
| `FoodItemCard.Card.TypeText` | components/FoodItemCard.js:87 | Sets `qty` to the quantity the text stands for. |
| `FoodItemCard.Card.Add` | components/FoodItemCard.js:100-101 | Calls `addToCart(item, qty)` and leaves `qty` unchanged. Afterwards the cart holds a line for the item whose price is the card's displayed price `getPrice()`. |
| `CartItem.OnChangeText` | components/CartItem.js:15 | Defines the call a row's text edit makes. `EditStoresParsedQuantity` states its effect. |
| `CartItem.OnRemove` | components/CartItem.js:18 | Defines the call the Remove button makes. `RemoveDropsThisLine` states its effect. |
| `CartItem.DisplayedAmount` | components/CartItem.js:17 | Defines the row amount `item.price * item.quantity`. `RowsAddUpToTotal` relates the rows to the cart total. |
| `CartItem.EditStoresParsedQuantity` | components/CartItem.js:15 | Editing a row's text stores the parsed quantity (1 for NaN or 0), which is never 0, on that row's line. Every other line is unchanged. |
| `CartItem.NegativeTextStoresNegative` | components/CartItem.js:15 | Typing "-2" stores the quantity -2. |
| `CartItem.RetypeDisplayedIsNoOp` | components/CartItem.js:14-15 | Submitting the displayed quantity text leaves the cart unchanged, for any non-zero quantity. |
| `CartItem.RemoveDropsThisLine` | components/CartItem.js:18 | Remove drops exactly this row's line and keeps the rest in order. |
| `CartItem.RowsAddUpToTotal` | components/CartItem.js:17 | When every stored price is a number, the rows' amounts add up to the cart's total. When some price is NaN, the rows' sum is NaN although the total counts that line as 0. |
| `MenuScreen.MatchesSearch` | screens/MenuScreen.js:64-65 | Defines the search test. `MatchesSearchIff` ties it to occurrence in the lower-cased name or description. |
| `MenuScreen.FilteredItems` | screens/MenuScreen.js:62-69 | Defines the menu filter. `FilteredItemsSpec` states what it keeps and in which order. |
| `MenuScreen.PopularItems` | screens/MenuScreen.js:73-76 | Defines `slice(0, 3)`. `PopularIsFirstThree` states its result. |
| `MenuScreen.BadgeCount` | screens/MenuScreen.js:312 | Defines the badge fold of `quantity or 0`. `BadgeCountIsQuantitySum` ties it to the integer quantity sum. |
| `MenuScreen.ShowOrderBar` | screens/MenuScreen.js:308 | Defines the test `cartTotal > 0`. `OrderBarVisibility` states when it holds. |
| `MenuScreen.FilteredItemsSpec` | screens/MenuScreen.js:62-70 | `filteredItems` is an order-preserving subsequence of the items. An item is kept iff it matches both the search and the category. |
| `MenuScreen.MatchesSearchIff` | screens/MenuScreen.js:64-65 | The search matches iff the lower-cased query occurs in the lower-cased name, or in the lower-cased description when there is one. |
| `MenuScreen.SearchIgnoresQueryCase` | screens/MenuScreen.js:64-65 | Lower-casing the query first changes nothing. |
| `MenuScreen.AllWithEmptyQueryKeepsEverything` | screens/MenuScreen.js:64-66 | With filter `'all'` and an empty query, every item is kept. |
| `MenuScreen.PopularIsFirstThree` | screens/MenuScreen.js:73-76 | `popularItems` holds the first min(3, n) items, in order, as a subsequence. |
| `MenuScreen.BadgeCountIsQuantitySum` | screens/MenuScreen.js:312 | The badge shows the sum of the quantities and is never NaN. |
| `MenuScreen.BadgeAtLeastLines` | screens/MenuScreen.js:312 | With every quantity at least 1, the badge is at least the number of lines. |
| `MenuScreen.OrderBarVisibility` | screens/MenuScreen.js:308 | The bar is hidden for the initial cart and for any well-formed empty cart. It is shown for a non-empty cart whose lines all have a positive `price`, and hidden when some line lacks a numeric `price`. |
| `MenuScreen.Screen.constructor` | screens/MenuScreen.js:41-44 | The filter starts at `'all'`, the query empty, the first location selected and the dropdown closed. |
| `MenuScreen.Screen.Visible` | screens/MenuScreen.js:62-69 | Defines the rendered `filteredItems` for the screen's current query and filter. `ChooseAllShowsEverything` and `FilteredItemsSpec` state what it holds. |
| `MenuScreen.Screen.ChooseCategory` | screens/MenuScreen.js:199-202 | Sets the filter to the chip's id and clears the query. |
| `MenuScreen.Screen.SetSearchQuery` | screens/MenuScreen.js:174-175 | Sets the query and nothing else. |
| `MenuScreen.Screen.ToggleLocationDropdown` | screens/MenuScreen.js:124 | Toggles the dropdown. |
| `MenuScreen.Screen.PickLocation` | screens/MenuScreen.js:143-146 | Sets the location and closes the dropdown. |
| `MenuScreen.ChooseAllShowsEverything` | screens/MenuScreen.js:199-202 | After the `'all'` chip, the list shows the whole menu, whatever was typed before. |
| `OrderSummary.Subtotal` | screens/OrderSummaryScreen.js:78-80 | Defines `calculateSubtotal`. `SubtotalIsCartTotal` ties it to the cart's stored total. |
| `OrderSummary.Tax` | screens/OrderSummaryScreen.js:84 | Defines the 8% tax. `GrandTotalFormula` gives its closed form. |
| `OrderSummary.GrandTotal` | screens/OrderSummaryScreen.js:189 | Defines `subtotal + deliveryFee + tax`. `GrandTotalFormula` gives its closed form. |
| `OrderSummary.MakeRecord` | screens/OrderSummaryScreen.js:60-67 | Defines the order document. `RecordCarriesPreTaxTotal` states which total it carries. |
| `OrderSummary.SubtotalIsCartTotal` | screens/OrderSummaryScreen.js:78-83 | The subtotal is the cart's stored total. It is the sum of price times quantity when all lines are priced, and 0 for an empty cart. |
| `OrderSummary.GrandTotalFormula` | screens/OrderSummaryScreen.js:82-84 | Tax is 0.08 times the subtotal and the grand total is 1.08 times the subtotal plus 2.99. A NaN subtotal makes both NaN. For a subtotal of at least 0, the grand total exceeds it by at least the fee. |
| `OrderSummary.FifteenExample` | screens/OrderSummaryScreen.js:189 | A subtotal of 15 gives a tax of 1.20 and a grand total of 19.19. |
| `OrderSummary.DefaultMethodSelectsNothing` | screens/OrderSummaryScreen.js:28-31 | The default payment method has no id, so opening the picker on it selects and marks nothing. |
| `OrderSummary.RecordCarriesPreTaxTotal` | screens/OrderSummaryScreen.js:60-63 | The order record carries the cart's stored total. For a total of at least 0, this differs from the grand total shown. |
| `OrderSummary.Screen.constructor` | screens/OrderSummaryScreen.js:21-31 | The screen starts not loading, with the default address and payment method. |
| `OrderSummary.Screen.ShownTotal` | screens/OrderSummaryScreen.js:189 | Defines the grand total shown in the summary row and the footer. `ConfirmOrder` states that the written record's total differs from it when the cart total is a number of at least 0. |
| `OrderSummary.Screen.HandleAddressUpdate` | screens/OrderSummaryScreen.js:34-36 | Replaces the delivery address. The payment method, the loading flag, the written orders, the error flag and the navigation flag are unchanged. |
| `OrderSummary.Screen.HandlePaymentMethodSelect` | screens/OrderSummaryScreen.js:39-41 | Replaces the payment method. The address, the loading flag, the written orders, the error flag and the navigation flag are unchanged. |
| `OrderSummary.Screen.ConfirmOrder` | screens/OrderSummaryScreen.js:57-76 | `isLoading` is true while the write is pending and false afterwards. On success the record is written, the cart is cleared and the screen navigates. On failure nothing is written, the cart is untouched and the error is shown. When the cart's total is a number of at least 0, the written record's total differs from the grand total the screen showed. |
| `EditAddress.InitialForm` | screens/EditAddressScreen.js:12-17 | Defines the initial form. `InitialFormFromAddress` states its fields. |
| `EditAddress.WithField` | screens/EditAddressScreen.js:54-89 | Defines a field's `onChangeText`. `EditTouchesOneField` states its effect. |
| `EditAddress.IsComplete` | screens/EditAddressScreen.js:27 | Defines the save check. `IsCompleteIff` ties it to "no field empty". |
| `EditAddress.InitialFormFromAddress` | screens/EditAddressScreen.js:12-17 | Each field comes from the passed address, or is `''` when missing. Opening the form on an address gives that address back. |
| `EditAddress.EditTouchesOneField` | screens/EditAddressScreen.js:54-89 | An edit sets its field and leaves the other three unchanged. |
| `EditAddress.IsCompleteIff` | screens/EditAddressScreen.js:27 | The form passes exactly when no field is empty. |
| `EditAddress.BlankFieldsPass` | screens/EditAddressScreen.js:27 | A blank-only field counts as filled; an empty one fails. |
| `EditAddress.Screen.constructor` | screens/EditAddressScreen.js:11-24 | The form starts from the passed address; nothing has been delivered, alerted or navigated. |
| `EditAddress.Screen.Edit` | screens/EditAddressScreen.js:54 | Replaces one field of `formData`. |
| `EditAddress.Screen.HandleSave` | screens/EditAddressScreen.js:26-36 | An incomplete form raises the alert, with no callback and no navigation. A complete one is handed, exactly, to the callback when there is one, and the screen goes back. |
| `PaymentMethods.InitialSelectedId` | screens/PaymentMethodsScreen.js:18 | Defines `selectedMethod?.id or ''`. `ListMethodStartsMarked` and `DefaultMethodSelectsNothing` state its effect. |
| `PaymentMethods.Marked` | screens/PaymentMethodsScreen.js:52 | Defines the check-mark test `selectedId === method.id`. `AtMostOneMarked` states how many rows it marks. |
| `PaymentMethods.MethodIdsDistinct` | screens/PaymentMethodsScreen.js:7-12 | Every listed method has a non-empty id, and the ids are distinct. |
| `PaymentMethods.AtMostOneMarked` | screens/PaymentMethodsScreen.js:52 | Whatever the selected id, at most one row is marked. The empty id marks none, and a method's own id marks exactly that method. |
| `PaymentMethods.ListMethodStartsMarked` | screens/PaymentMethodsScreen.js:17-18 | Opening the picker on a listed method marks that method. |
| `PaymentMethods.Screen.constructor` | screens/PaymentMethodsScreen.js:17-19 | `selectedId` starts as the passed method's id, or `''`. |
| `PaymentMethods.Screen.HandleSelect` | screens/PaymentMethodsScreen.js:28-34 | Selects the method's id, reports the method to the callback iff one is registered, and goes back. |

## Left out

- Firestore I/O is not modelled. The menu fetch is out, and the order write is reduced to its outcome, an input to `ConfirmOrder`. The server timestamp in the order record and the logged error are not modelled.
- Rendering, layout, styles, animations, icons and `toFixed(2)` formatting are not modelled. So are the random ratings and preparation times, which do not affect filtering.
- Navigation is reduced to flags (`wentBack`, `navigatedToSuccess`).
- The `onSave`/`onSelect` callbacks are reduced to a has-callback flag fixed when the screen opens, plus the log of values handed to them. Their capture through a layout effect is React machinery.
- `screens/CartScreen.js` only wires its buttons to the mounted cart's `updateQuantity(id, q ± 1)` and `removeFromCart`. These are covered by `ReducerCart.CartProvider.UpdateQuantity` and `ReducerCart.MinusOnQuantityOneRemoves`.
- `useCart`'s missing-provider error, and hook scheduling, are not modelled.
- Numbers are exact reals; IEEE-754 rounding and infinities are not modelled.
- A missing numeric field behaves as NaN in every expression the app uses, and is modelled as NaN.
- A menu item's display-only fields (image URL, veg flag) are not modelled.
- The price fields `price`, `Price` and `amount` are taken to be numbers or missing. `Number()` applied to a string-valued field is not modelled: "0" would be truthy and give 0, and "abc" would give NaN. So `SetStateCart.CartProvider.Valid`'s promise that every stored price is a number rests on this.
- The app does not guard against a menu item with no `name`, and such an item is not modelled.
- Js.ParseInt: integers are unbounded, so the rounding of very long digit strings to the nearest double is not modelled.
- Js.IntToString: `toString` is modelled as plain decimal text for every integer. From 10^21 on, JavaScript prints the exponent form ("1e+21"), which parses back to 1. So `CartItem.RetypeDisplayedIsNoOp` and `Catalog.QuantityTextRoundTrip` hold in JavaScript only below 10^21.
- Js.ParseInt: `-0` is not distinguished from 0; both are falsy, so the quantity rules are the same.
- Js.ToLower: only ASCII letters are mapped. Other letters are kept as they are.
