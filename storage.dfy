/**
 * The string-keyed localStorage entries the script writes and reads around a
 * purchase, and the record it pushes onto the data layer. Each flow of the
 * script over these keys is a function from the store before to the store
 * after; the class Shop.Page is specified by them.
 *
 * The serialized cart under the key 'cart' is kept apart (Shop.Page.storedCart).
 */
module Storage {
  import opened Options
  import opened Text

  type Store = map<string, string>

  const EmailKey: string := "userEmail"
  const CityKey: string := "userCity"
  const ZipKey: string := "userZip"
  const TotalKey: string := "cartTotal"
  const EventKey: string := "eventID"

  /** The four keys updateUserVariables writes. */
  const ContactKeys: set<string> := {EmailKey, CityKey, ZipKey, TotalKey}

  /** The five keys the confirmation page reads and then removes. */
  const PurchaseKeys: set<string> := {EmailKey, CityKey, ZipKey, TotalKey, EventKey}

  /** `input?.value || ''`: a missing input field reads as the empty string. */
  function InputValue(field: Option<string>): string {
    if field.Some? then field.value else ""
  }

  /** `localStorage.getItem(key) || ''`: a missing key reads as the empty string. */
  function Get(s: Store, key: string): (v: string)
    ensures key in s ==> v == s[key]
    ensures key !in s ==> v == ""
  {
    if key in s then s[key] else ""
  }

  /**
   * generateEventID: 'evt_', the clock reading in milliseconds, '_', and a
   * random draw (Math.floor(Math.random() * 1000000), so below 1000000).
   */
  function EventId(now: nat, draw: nat): (id: string)
    ensures |id| > 4 && id[..4] == "evt_"
  {
    "evt_" + ShowNat(now) + "_" + ShowNat(draw)
  }

  /**
   * Two ids are equal only when both the clock reading and the draw are, so an
   * id tells apart any two purchases that differ in either.
   */
  lemma EventIdInjective(now1: nat, draw1: nat, now2: nat, draw2: nat)
    requires EventId(now1, draw1) == EventId(now2, draw2)
    ensures now1 == now2 && draw1 == draw2
  {
    var a, b := ShowNat(now1), ShowNat(draw1);
    var c, d := ShowNat(now2), ShowNat(draw2);
    var tail := EventId(now1, draw1)[4..];
    assert tail == a + "_" + b && tail == c + "_" + d;
    UnderscoreAfterDigits(tail, a, b);
    UnderscoreAfterDigits(tail, c, d);
    assert a == tail[..|a|] == c;
    assert b == tail[|a| + 1..] == d;
    ParseShowNat(now1);
    ParseShowNat(now2);
    ParseShowNat(draw1);
    ParseShowNat(draw2);
  }

  /** In digits + "_" + rest, the first '_' sits just after the digits. */
  lemma UnderscoreAfterDigits(s: string, digits: string, rest: string)
    requires s == digits + "_" + rest && AllDigits(digits)
    ensures |digits| < |s| && s[|digits|] == '_'
    ensures forall i :: 0 <= i < |digits| ==> s[i] != '_'
  {
  }

  /**
   * The writes of updateUserVariables: the three contact fields and the cart
   * total, the total rendered as String(total) would render it.
   */
  function SaveContact(s: Store, email: string, city: string, zip: string, total: int): (r: Store)
    ensures r.Keys == s.Keys + ContactKeys
    ensures r[EmailKey] == email && r[CityKey] == city && r[ZipKey] == zip
    ensures r[TotalKey] == ShowInt(total)
    ensures forall k :: k in s && k !in ContactKeys ==> r[k] == s[k]
  {
    s[EmailKey := email][CityKey := city][ZipKey := zip][TotalKey := ShowInt(total)]
  }

  /**
   * The writes of completePurchase: the event id first, then the contact
   * fields and the total of the cart as it was before it is cleared.
   */
  function Checkout(s: Store, id: string, email: string, city: string, zip: string, total: int): (r: Store)
    ensures r.Keys == s.Keys + PurchaseKeys
    ensures r[EventKey] == id && r[TotalKey] == ShowInt(total)
    ensures r[EmailKey] == email && r[CityKey] == city && r[ZipKey] == zip
    ensures forall k :: k in s && k !in PurchaseKeys ==> r[k] == s[k]
  {
    SaveContact(s[EventKey := id], email, city, zip, total)
  }

  /** The object the confirmation page pushes onto window.dataLayer. */
  datatype PurchaseRecord = PurchaseRecord(
    event: string,
    userEmail: string,
    userCity: string,
    userZip: string,
    cartTotal: string,
    eventID: string)

  /** The record with every data field empty. */
  const BlankPurchase: PurchaseRecord := PurchaseRecord("purchase", "", "", "", "", "")

  /**
   * The record pushed on the confirmation page: event 'purchase' and the five
   * stored values, each '' when its key is absent.
   */
  function PurchaseEvent(s: Store): (r: PurchaseRecord)
    ensures r.event == "purchase"
    ensures EmailKey in s ==> r.userEmail == s[EmailKey]
    ensures CityKey in s ==> r.userCity == s[CityKey]
    ensures ZipKey in s ==> r.userZip == s[ZipKey]
    ensures TotalKey in s ==> r.cartTotal == s[TotalKey]
    ensures EventKey in s ==> r.eventID == s[EventKey]
    ensures EmailKey !in s ==> r.userEmail == ""
    ensures CityKey !in s ==> r.userCity == ""
    ensures ZipKey !in s ==> r.userZip == ""
    ensures TotalKey !in s ==> r.cartTotal == ""
    ensures EventKey !in s ==> r.eventID == ""
    ensures (forall k :: k in PurchaseKeys ==> k !in s) ==> r == BlankPurchase
  {
    PurchaseRecord("purchase", Get(s, EmailKey), Get(s, CityKey), Get(s, ZipKey), Get(s, TotalKey), Get(s, EventKey))
  }

  /** The store after the confirmation page removes the five purchase keys. */
  function ClearPurchase(s: Store): (r: Store)
    ensures r.Keys == s.Keys - PurchaseKeys
    ensures forall k :: k in r ==> r[k] == s[k]
  {
    s - PurchaseKeys
  }

  /**
   * Read-then-delete: a second confirmation load finds none of the keys and
   * pushes the blank record, and clears nothing more.
   */
  lemma SecondConfirmationIsBlank(s: Store)
    ensures PurchaseEvent(ClearPurchase(s)) == BlankPurchase
    ensures ClearPurchase(ClearPurchase(s)) == ClearPurchase(s)
  {
  }

  /**
   * If nothing touches the store between checkout and confirmation, the
   * pushed record carries exactly what checkout stored.
   */
  lemma ConfirmationReportsCheckout(s: Store, id: string, email: string, city: string, zip: string, total: int)
    ensures PurchaseEvent(Checkout(s, id, email, city, zip, total))
            == PurchaseRecord("purchase", email, city, zip, ShowInt(total), id)
  {
  }

  /**
   * The writes of the DOMContentLoaded handler, as written: it calls
   * updateUserVariables before loadCartFromLocalStorage, so the cart is still
   * the script's initial empty cart and the stored total is String(0).
   */
  function InitStore(s: Store, email: Option<string>, city: Option<string>, zip: Option<string>): (r: Store)
    ensures r.Keys == s.Keys + ContactKeys
    ensures r[TotalKey] == "0"
    ensures r[EmailKey] == InputValue(email) && r[CityKey] == InputValue(city) && r[ZipKey] == InputValue(zip)
    ensures forall k :: k in s && k !in ContactKeys ==> r[k] == s[k]
  {
    SaveContact(s, InputValue(email), InputValue(city), InputValue(zip), 0)
  }

  /**
   * On the confirmation page the DOMContentLoaded handler runs before the
   * window load handler, so the record pushed after any checkout reports a
   * cart total of "0" and the confirmation page's own (usually missing)
   * contact inputs instead of what checkout stored.
   */
  lemma ConfirmationLosesCheckout(s: Store, id: string, email: string, city: string, zip: string, total: int,
                                  pageEmail: Option<string>, pageCity: Option<string>, pageZip: Option<string>)
    ensures PurchaseEvent(InitStore(Checkout(s, id, email, city, zip, total), pageEmail, pageCity, pageZip))
            == PurchaseRecord("purchase", InputValue(pageEmail), InputValue(pageCity), InputValue(pageZip), "0", id)
  {
  }

  /** A purchase of 2448 with contact fields is reported as a total of "0" with blank contacts. */
  lemma ConfirmationLosesCheckoutExample(s: Store)
    ensures var stored := Checkout(s, "evt_1_2", "a@b.c", "Oslo", "0150", 2448);
            && PurchaseEvent(stored).cartTotal == "2448"
            && PurchaseEvent(InitStore(stored, None, None, None))
               == PurchaseRecord("purchase", "", "", "", "0", "evt_1_2")
  {
  }

  /**
   * Reloading the confirmation page as written: the handler pair runs again,
   * the event id is gone but the total reads "0" rather than ''.
   */
  lemma ConfirmationReloadReportsZero(s: Store, pageEmail: Option<string>, pageCity: Option<string>, pageZip: Option<string>)
    ensures var first := ClearPurchase(InitStore(s, pageEmail, pageCity, pageZip));
            PurchaseEvent(InitStore(first, pageEmail, pageCity, pageZip))
            == PurchaseRecord("purchase", InputValue(pageEmail), InputValue(pageCity), InputValue(pageZip), "0", "")
  {
  }

  /**
   * The handler as evidently intended: the confirmation page does not
   * overwrite the purchase snapshot, so the record read after it is the one
   * read before it; other pages write as before.
   */
  function InitStoreFixed(s: Store, onConfirmationPage: bool,
                          email: Option<string>, city: Option<string>, zip: Option<string>): (r: Store)
    ensures onConfirmationPage ==> PurchaseEvent(r) == PurchaseEvent(s) && ClearPurchase(r) == ClearPurchase(s)
    ensures onConfirmationPage ==> r == s
    ensures !onConfirmationPage ==> r == InitStore(s, email, city, zip)
  {
    if onConfirmationPage then s else InitStore(s, email, city, zip)
  }

  /** With the fixed handler the confirmation record carries what checkout stored. */
  lemma FixedConfirmationReportsCheckout(s: Store, id: string, email: string, city: string, zip: string, total: int,
                                         pageEmail: Option<string>, pageCity: Option<string>, pageZip: Option<string>)
    ensures PurchaseEvent(InitStoreFixed(Checkout(s, id, email, city, zip, total), true, pageEmail, pageCity, pageZip))
            == PurchaseRecord("purchase", email, city, zip, ShowInt(total), id)
  {
  }
}
