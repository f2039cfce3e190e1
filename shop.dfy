/**
 * One page running script.js: the script's global variables (the contact
 * fields and the cart), the browser's localStorage, and window.dataLayer.
 * The DOM is left out: the values of the email/city/zip inputs are parameters
 * (None when the page has no such input), and so are the clock reading and
 * the random draw that make up an event id.
 */
module Shop {
  import opened Options
  import opened Text
  import opened Cart
  import opened Storage

  /** What loadCartFromLocalStorage finds: the stored cart, or an empty one. */
  function Restore(stored: Option<Cart>): (c: Cart)
    ensures stored.None? ==> c == map[]
    ensures stored.Some? ==> c == stored.value
  {
    if stored.Some? then stored.value else map[]
  }

  class Page {
    /** The global contact fields. */
    var userEmail: string
    var userCity: string
    var userZip: string
    /** The global cart. */
    var cart: Cart
    /** localStorage, apart from the 'cart' key. */
    var storage: Store
    /** localStorage['cart'], the last cart saved; None when absent. */
    var storedCart: Option<Cart>
    /** window.dataLayer: the records pushed so far. */
    var dataLayer: seq<PurchaseRecord>

    /**
     * The script starts on a page whose browser already holds storage and
     * storedCart from earlier pages: contact fields empty, cart empty.
     */
    constructor (storage: Store, storedCart: Option<Cart>, dataLayer: seq<PurchaseRecord>)
      ensures userEmail == "" && userCity == "" && userZip == ""
      ensures cart == map[]
      ensures this.storage == storage && this.storedCart == storedCart && this.dataLayer == dataLayer
    {
      userEmail, userCity, userZip := "", "", "";
      cart := map[];
      this.storage, this.storedCart, this.dataLayer := storage, storedCart, dataLayer;
    }

    /** getCartTotal. */
    method CartTotal() returns (total: int)
      ensures total == Total(cart)
    {
      total := SumLines(cart, Worth);
    }

    /** The count updateCartCount writes into the page. */
    method CartCount() returns (count: int)
      ensures count == ItemCount(cart)
      ensures WellFormed(cart) ==> count >= |cart| && (count == 0 <==> cart == map[])
    {
      count := SumLines(cart, Units);
      if WellFormed(cart) {
        CountCoversLines(cart);
      }
    }

    /** saveCartToLocalStorage: the stored cart becomes a copy of the cart. */
    method SaveCart()
      modifies this
      ensures storedCart == Some(cart)
      ensures cart == old(cart) && storage == old(storage) && dataLayer == old(dataLayer)
      ensures userEmail == old(userEmail) && userCity == old(userCity) && userZip == old(userZip)
    {
      storedCart := Some(cart);
    }

    /** loadCartFromLocalStorage: the cart becomes the stored one, or empty. */
    method LoadCart()
      modifies this
      ensures cart == Restore(storedCart)
      ensures storedCart == old(storedCart) && storage == old(storage) && dataLayer == old(dataLayer)
      ensures userEmail == old(userEmail) && userCity == old(userCity) && userZip == old(userZip)
    {
      cart := Restore(storedCart);
    }

    /**
     * updateUserVariables: take the three inputs ('' when missing) into the
     * globals and store them with the current cart total.
     */
    method UpdateUserVariables(email: Option<string>, city: Option<string>, zip: Option<string>)
      modifies this
      ensures userEmail == InputValue(email) && userCity == InputValue(city) && userZip == InputValue(zip)
      ensures storage == SaveContact(old(storage), userEmail, userCity, userZip, Total(old(cart)))
      ensures storage[TotalKey] == ShowInt(Total(cart))
      ensures cart == old(cart) && storedCart == old(storedCart) && dataLayer == old(dataLayer)
    {
      userEmail := InputValue(email);
      userCity := InputValue(city);
      userZip := InputValue(zip);
      var total := CartTotal();
      storage := SaveContact(storage, userEmail, userCity, userZip, total);
    }

    /**
     * addToCart: one more unit of name (a new line at price when absent); no
     * other line changes; the cart is saved; the count goes up by one.
     */
    method AddToCart(name: string, price: int)
      modifies this
      ensures cart == AddLine(old(cart), name, price)
      ensures name in old(cart) ==> cart[name] == Line(old(cart)[name].price, old(cart)[name].quantity + 1)
      ensures name !in old(cart) ==> cart[name] == Line(price, 1)
      ensures forall other :: other != name ==> (other in cart <==> other in old(cart))
      ensures forall other :: other in old(cart) && other != name ==> cart[other] == old(cart)[other]
      ensures ItemCount(cart) == ItemCount(old(cart)) + 1
      ensures WellFormed(old(cart)) ==> WellFormed(cart)
      ensures storedCart == Some(cart)
      ensures storage == old(storage) && dataLayer == old(dataLayer)
      ensures userEmail == old(userEmail) && userCity == old(userCity) && userZip == old(userZip)
    {
      AddLineCount(cart, name, price);
      if name in cart {
        cart := cart[name := cart[name].(quantity := cart[name].quantity + 1)];
      } else {
        cart := cart[name := Line(price, 1)];
      }
      SaveCart();
    }

    /**
     * removeFromCart: a present line is deleted whole and the cart saved; an
     * absent name changes neither the cart nor the stored cart.
     */
    method RemoveFromCart(name: string)
      modifies this
      ensures cart == RemoveLine(old(cart), name)
      ensures name !in cart
      ensures forall other :: other != name ==> (other in cart <==> other in old(cart))
      ensures forall other :: other in cart ==> cart[other] == old(cart)[other]
      ensures name in old(cart) ==> ItemCount(cart) == ItemCount(old(cart)) - old(cart)[name].quantity
      ensures name in old(cart) ==> storedCart == Some(cart)
      ensures name !in old(cart) ==> cart == old(cart) && storedCart == old(storedCart)
      ensures WellFormed(old(cart)) ==> WellFormed(cart)
      ensures storage == old(storage) && dataLayer == old(dataLayer)
      ensures userEmail == old(userEmail) && userCity == old(userCity) && userZip == old(userZip)
    {
      RemoveLineCount(cart, name);
      if name in cart {
        cart := cart - {name};
        SaveCart();
      }
    }

    /**
     * completePurchase (up to the redirect): store a fresh event id, store the
     * contact fields and the total of the cart before clearing, then empty the
     * cart and save the empty cart.
     */
    method CompletePurchase(now: nat, draw: nat, email: Option<string>, city: Option<string>, zip: Option<string>)
      modifies this
      ensures storage == Checkout(old(storage), EventId(now, draw), InputValue(email), InputValue(city), InputValue(zip), Total(old(cart)))
      ensures EventKey in storage && |storage[EventKey]| > 4 && storage[EventKey][..4] == "evt_"
      ensures storage[TotalKey] == ShowInt(Total(old(cart)))
      ensures cart == map[] && storedCart == Some(map[])
      ensures userEmail == InputValue(email) && userCity == InputValue(city) && userZip == InputValue(zip)
      ensures dataLayer == old(dataLayer)
    {
      var id := EventId(now, draw);
      storage := storage[EventKey := id];
      UpdateUserVariables(email, city, zip);
      cart := map[];
      SaveCart();
    }

    /**
     * The DOMContentLoaded handler's effect on the state: updateUserVariables,
     * then loadCartFromLocalStorage.
     */
    method InitPage(email: Option<string>, city: Option<string>, zip: Option<string>)
      modifies this
      ensures storage == SaveContact(old(storage), InputValue(email), InputValue(city), InputValue(zip), Total(old(cart)))
      ensures cart == Restore(storedCart)
      ensures userEmail == InputValue(email) && userCity == InputValue(city) && userZip == InputValue(zip)
      ensures storedCart == old(storedCart) && dataLayer == old(dataLayer)
    {
      UpdateUserVariables(email, city, zip);
      LoadCart();
    }

    /**
     * The window load handler of the confirmation page: push one record of
     * the five stored values ('' when absent), then remove the five keys.
     * The handler's locals shadow the globals, which stay as they were.
     */
    method ConfirmationLoad()
      modifies this
      ensures dataLayer == old(dataLayer) + [PurchaseEvent(old(storage))]
      ensures storage == ClearPurchase(old(storage))
      ensures forall k :: k in PurchaseKeys ==> k !in storage
      ensures cart == old(cart) && storedCart == old(storedCart)
      ensures userEmail == old(userEmail) && userCity == old(userCity) && userZip == old(userZip)
    {
      var email := Get(storage, EmailKey);
      var city := Get(storage, CityKey);
      var zip := Get(storage, ZipKey);
      var total := Get(storage, TotalKey);
      var id := Get(storage, EventKey);
      dataLayer := dataLayer + [PurchaseRecord("purchase", email, city, zip, total, id)];
      storage := storage - PurchaseKeys;
    }
  }

  /**
   * A visit to the confirmation page: the script starts, its DOMContentLoaded
   * handler runs, then its load handler. The record pushed is the one read
   * after the DOMContentLoaded writes, so its total is "0" whatever was bought.
   */
  method ConfirmationPageVisit(storage: Store, storedCart: Option<Cart>, dataLayer: seq<PurchaseRecord>,
                               email: Option<string>, city: Option<string>, zip: Option<string>)
    returns (pushed: seq<PurchaseRecord>, after: Store)
    ensures pushed == dataLayer + [PurchaseEvent(InitStore(storage, email, city, zip))]
    ensures pushed[|dataLayer|].cartTotal == "0"
    ensures after == ClearPurchase(InitStore(storage, email, city, zip))
  {
    var page := new Page(storage, storedCart, dataLayer);
    page.InitPage(email, city, zip);
    EmptyCart();
    page.ConfirmationLoad();
    pushed, after := page.dataLayer, page.storage;
  }

  /**
   * A visit to the checkout page that completes the purchase: the script
   * starts and its DOMContentLoaded handler runs with the inputs as the page
   * loads; the user fills the form; then the purchase button is clicked. The
   * stored snapshot is that of the click, with the total of the cart saved by
   * earlier pages.
   */
  method CheckoutPageVisit(storage: Store, storedCart: Option<Cart>, now: nat, draw: nat,
                           loadEmail: Option<string>, loadCity: Option<string>, loadZip: Option<string>,
                           email: Option<string>, city: Option<string>, zip: Option<string>)
    returns (after: Store, saved: Option<Cart>)
    ensures after == Checkout(InitStore(storage, loadEmail, loadCity, loadZip), EventId(now, draw),
                              InputValue(email), InputValue(city), InputValue(zip), Total(Restore(storedCart)))
    ensures PurchaseEvent(after) == PurchaseRecord("purchase", InputValue(email), InputValue(city), InputValue(zip),
                                                   ShowInt(Total(Restore(storedCart))), EventId(now, draw))
    ensures saved == Some(map[])
  {
    var page := new Page(storage, storedCart, []);
    page.InitPage(loadEmail, loadCity, loadZip);
    EmptyCart();
    page.CompletePurchase(now, draw, email, city, zip);
    after, saved := page.storage, page.storedCart;
  }

  /**
   * A visit to a shop page that adds name at price to whatever cart the
   * browser holds: the stored cart afterwards equals the new cart, which has
   * one more item than the stored one.
   */
  method AddVisit(storage: Store, storedCart: Option<Cart>, name: string, price: int,
                  email: Option<string>, city: Option<string>, zip: Option<string>)
    returns (saved: Option<Cart>, count: int)
    ensures saved == Some(AddLine(Restore(storedCart), name, price))
    ensures count == ItemCount(Restore(storedCart)) + 1
  {
    var page := new Page(storage, storedCart, []);
    page.InitPage(email, city, zip);
    page.AddToCart(name, price);
    saved := page.storedCart;
    count := page.CartCount();
  }
}
