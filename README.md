# Shopping cart and purchase event of script.js

This project models the state logic of a browser-side shopping cart script
(`script.js`). The script keeps a cart, a table from item name to
`{price, quantity}`, in a global variable. It mirrors the cart into
`localStorage` under the key `cart`. It also keeps three contact fields
(email, city, zip) and writes them to `localStorage` together with the cart
total. When a purchase completes, the script stores an event id, snapshots
the contact fields and the total, and empties the cart. On the confirmation
page, a load handler reads those five keys back. It pushes one `purchase`
record onto `window.dataLayer` and then removes the keys.

Modules:

- `Cart` (cart.dfy): the cart as `map<string, Line>`, the updates of
  `addToCart` and `removeFromCart` as functions, and the two folds
  (`getCartTotal`, the count of `updateCartCount`). The folds are ghost
  functions. `SumLines` is the executable loop, proved equal to them.
- `Text` (text.dfy): `String(n)` for integer-valued numbers, with its inverse.
  The script uses it for the stored total and inside event ids.
- `Storage` (storage.dfy): the purchase-related `localStorage` keys. Each
  write or read-then-delete flow is a function from the store before to the
  store after, plus the record the confirmation page pushes.
- `Shop` (shop.dfy): class `Page`, one page running the script. Its fields are
  the globals, `localStorage` (the `cart` key held apart as `storedCart`) and
  `dataLayer`. Its methods change them in place, and each method's `ensures`
  ties the new state to the functions above. `ConfirmationPageVisit`,
  `CheckoutPageVisit` and `AddVisit` run a page from script start to the end
  of one user action.

Prices are whole numbers of the shop's currency unit. Parameters stand in
for the DOM input values (`None` when the element is missing), `Date.now()`
and the random draw.

## Model

| member | source | states |
|---|---|---|
| Cart.AddLine | script.js:79-84 | an existing name gets quantity + 1 at its old price; a new name gets a line of quantity 1 at the given price; other lines are unchanged; quantity >= 1 is preserved |
| Cart.RemoveLine | script.js:91-97 | the named line is deleted whole; other lines are unchanged; an absent name leaves the cart equal; quantity >= 1 is preserved |
| Cart.SumOfRemove | script.js:50 | the fold over the lines gives the same sum whichever line is taken first, so the property order of Object.values does not matter |
| Cart.SumOfUpdate | script.js:50 | replacing or inserting one line changes the fold by that line alone |
| Cart.EmptyCart | script.js:49-51 | the empty cart has total 0 and item count 0 |
| Cart.AddLineCount | script.js:73 | after addToCart the item count is exactly one more |
| Cart.AddLineTotal | script.js:50 | after addToCart the total rises by one unit price: the line's own price if it existed, the given price otherwise |
| Cart.RemoveLineCount | script.js:73 | after removeFromCart the count falls by the removed line's quantity, or stays the same for an absent name |
| Cart.RemoveLineTotal | script.js:50 | after removeFromCart the total falls by the removed line's price × quantity |
| Cart.RemoveUndoesFreshAdd | script.js:79-97 | removing a name that was just added for the first time gives back the original cart |
| Cart.CountCoversLines | script.js:73 | in a cart where every quantity is >= 1, the count is at least the number of lines and is 0 exactly when the cart is empty |
| Cart.TotalNonNegative | script.js:50 | in a cart where every quantity is >= 1 and no price is negative, the total is >= 0 |
| Cart.WidgetGadgetScenario | script.js:79-97 | with prices in whole currency units, adding Widget 999, Widget 999, Gadget 450 gives {Widget: 999×2, Gadget: 450×1}, count 3, total 2448; removing Widget leaves {Gadget} with total 450 |
| Cart.SumLines | script.js:50 | the loop over the lines returns exactly the fold (the reduce of getCartTotal and updateCartCount) |
| Text.ShowNat | script.js:15 | String(n) of a non-negative integer is a non-empty run of decimal digits with no leading zero |
| Text.ParseShowNat | script.js:15 | reading the digits back gives n (the rendering loses nothing) |
| Text.ShowInt | script.js:31 | String(n) of an integer is non-empty and all digits exactly when n >= 0 |
| Text.ShowIntInjective | script.js:31 | different totals are stored as different strings |
| Storage.EventId | script.js:14-16 | a generated event id is longer than 4 characters and starts with `evt_` |
| Storage.EventIdInjective | script.js:15 | equal event ids come only from equal clock readings and equal random draws |
| Storage.SaveContact | script.js:28-31 | updateUserVariables' writes: the four keys hold email, city, zip and String(total); every other key is unchanged |
| Storage.Checkout | script.js:158-162 | completePurchase's writes: eventID holds the id and the contact keys hold the snapshot with the total from before the cart is cleared; other keys are unchanged |
| Storage.PurchaseEvent | script.js:208-223 | the pushed record has event 'purchase' and each field equal to its stored value, or '' when the key is absent; with none of the keys present it is the blank record |
| Storage.ClearPurchase | script.js:226-230 | the five purchase keys are removed and every other key keeps its value |
| Storage.SecondConfirmationIsBlank | script.js:206-231 | a second run of the load handler pushes the blank record and removes nothing more |
| Storage.ConfirmationReportsCheckout | script.js:156-167 | with nothing in between, the record read after checkout carries the checkout's contact fields, String(total) and event id |
| Storage.InitStore | script.js:183-186 | the DOMContentLoaded handler stores the page's inputs ('' when missing) and the total "0", because the cart is not loaded yet; every other key, eventID included, keeps its value |
| Storage.ConfirmationLosesCheckout | script.js:177-231 | as written, on the confirmation page the record reports total "0" and the page's own inputs, not what checkout stored; only the event id survives |
| Storage.ConfirmationLosesCheckoutExample | script.js:183 | a checkout of total 2448 with filled contact fields is reported as total "0" with blank contacts |
| Storage.ConfirmationReloadReportsZero | script.js:177-231 | as written, reloading the confirmation page pushes a record with an empty event id but total "0", not an all-blank record |
| Storage.InitStoreFixed | script.js:183 | corrected handler: on the confirmation page the record read afterwards, and the store left after the keys are cleared, are those of the store before it; other pages write as before |
| Storage.FixedConfirmationReportsCheckout | script.js:183-212 | with the corrected handler, the confirmation record carries exactly the checkout's contact fields, total and event id |
| Shop.Page.constructor | script.js:4-7 | the script starts with empty contact fields and an empty cart, over the storage left by earlier pages |
| Shop.Page.CartTotal | script.js:49-51 | getCartTotal returns the total of the cart |
| Shop.Page.CartCount | script.js:70-76 | the count shown is the sum of the quantities; in a well-formed cart it is at least the number of lines and 0 only for an empty cart |
| Shop.Page.SaveCart | script.js:54-56 | the stored cart becomes equal to the cart; nothing else changes |
| Shop.Page.LoadCart | script.js:59-63 | the cart becomes the stored cart, or empty when none is stored; nothing else changes |
| Shop.Page.UpdateUserVariables | script.js:19-32 | the globals take the input values ('' when missing), and the store gets them with the current cart total |
| Shop.Page.AddToCart | script.js:79-88 | per-line effect of add, other lines untouched, count + 1, quantity >= 1 preserved, stored cart equal to the cart |
| Shop.Page.RemoveFromCart | script.js:91-97 | the line is gone, other lines untouched, count falls by its quantity, stored cart saved; an absent name changes neither cart nor stored cart |
| Shop.Page.CompletePurchase | script.js:156-171 | stored event id starts with `evt_`; the stored total is the total from before clearing; cart and stored cart are empty |
| Shop.Page.InitPage | script.js:183-186 | the store gets the inputs and the current (initial, empty) cart's total; then the cart is loaded from storage |
| Shop.Page.ConfirmationLoad | script.js:206-231 | one record of the stored values is appended to dataLayer; the five keys are removed; cart and globals are unchanged |
| Shop.ConfirmationPageVisit | script.js:177-231 | a confirmation page visit pushes the record of the store as the DOMContentLoaded handler left it, whose total is "0" |
| Shop.CheckoutPageVisit | script.js:156-167 | a checkout page visit, with the form filled between page load and the click, stores the contact fields of the click, the total of the cart saved by earlier pages and a fresh event id, so the record read next carries exactly these; the saved cart is empty |
| Shop.AddVisit | script.js:79-88 | a page visit that adds one item saves the stored cart plus that item, and the count rises by one |

## Left out

- DOM rendering: `showNotification`, `displayCartTable`, `displayCartSummary`, the text write of `updateCartCount` and `toFixed(2)`. These are display side effects with no state to model.
- Navigation: `initiateCheckout`, the redirect in `completePurchase`, and the path test that registers the confirmation handler. The visit methods fix which page is running instead.
- Event-listener registration (the input listeners and the purchase button). Their handlers are modelled as methods that a caller invokes.
- JSON serialisation: saving and loading the cart is a copy of the map. `JSON.parse` throws on corrupt stored data and the script does not catch it, so corrupt data is not modelled.
- Storage.EventId: the clock reading and the random draw are parameters, because `Date.now` and `Math.random` are not deterministic. The draw's bound (below 1000000) is not required.
- Text.ShowInt: prices and totals are integers. Floating-point sums and their string rendering are left out. JavaScript writes integers of magnitude 1e21 and above in exponent form ("1e+21"); the model always writes plain digits. JavaScript numbers hold integers exactly only up to 2^53 (`Number.MAX_SAFE_INTEGER`); above it `quantity++` can leave the value unchanged and the sums round, so Cart.AddLineCount, Cart.AddLineTotal and the exact totals hold in the source only below 2^53.
- Cart.AddLine: an item name equal to an `Object.prototype` property (such as `toString`) reads as present in the source. The model treats every name as an ordinary key, because the shop's item names come from its own buttons.
- Exceptions from `localStorage` (quota exceeded, storage disabled) are left out, because they come from the environment, not from the script's logic.
- `window.dataLayer` holds only this script's purchase records. Entries pushed by other tags are not modelled.
- The confirmation load handler reads and removes five keys, `eventID` included. Reloading the confirmation page does not push an all-blank record: the DOMContentLoaded handler first writes the page's inputs and total "0" again (see Findings).

## Findings

| source | as written | input that shows it | evidently intended | confidence | as-written member | corrected member |
|---|---|---|---|---|---|---|
| script.js:183 | The DOMContentLoaded handler calls `updateUserVariables()` on every page, and does so before `loadCartFromLocalStorage()`. On the confirmation page this overwrites the checkout snapshot with the page's inputs and `cartTotal` "0". The window load handler then reads these values. | Checkout of a cart with total 2448 and contact fields filled, then the confirmation page with no contact inputs: the record has total "0" and empty contact fields. | The confirmation record carries the contact fields and total stored at checkout. | high; not executed | Storage.ConfirmationLosesCheckoutExample | Storage.FixedConfirmationReportsCheckout |
