/**
 * The shopping cart of script.js: a table from item name to a line holding
 * the unit price and the quantity, the two operations that change it
 * (addToCart, removeFromCart) and the two folds over its lines (getCartTotal
 * and the item count of updateCartCount).
 *
 * Prices are whole numbers of the shop's currency unit (the source's numbers
 * restricted to integer values).
 */
module Cart {

  datatype Line = Line(price: int, quantity: int)

  type Cart = map<string, Line>

  /** Every line of the cart has quantity at least 1. */
  predicate WellFormed(c: Cart) {
    forall name :: name in c ==> c[name].quantity >= 1
  }

  /**
   * addToCart(name, price): a present line gets one more unit at its old
   * price; an absent name gets a new line of one unit at the given price.
   */
  function AddLine(c: Cart, name: string, price: int): (r: Cart)
    ensures r.Keys == c.Keys + {name}
    ensures name in c ==> r[name].price == c[name].price && r[name].quantity == c[name].quantity + 1
    ensures name !in c ==> r[name].price == price && r[name].quantity == 1
    ensures forall other :: other in c && other != name ==> r[other] == c[other]
    ensures WellFormed(c) ==> WellFormed(r)
  {
    if name in c then
      c[name := c[name].(quantity := c[name].quantity + 1)]
    else
      c[name := Line(price, 1)]
  }

  /** removeFromCart(name): the whole line goes; an absent name changes nothing. */
  function RemoveLine(c: Cart, name: string): (r: Cart)
    ensures r.Keys == c.Keys - {name}
    ensures forall other :: other in r ==> r[other] == c[other]
    ensures name !in c ==> r == c
    ensures WellFormed(c) ==> WellFormed(r)
  {
    if name in c then c - {name} else c
  }

  /** What one line contributes to the cart total: price times quantity. */
  function Worth(l: Line): int {
    l.price * l.quantity
  }

  /** What one line contributes to the item count: its quantity. */
  function Units(l: Line): int {
    l.quantity
  }

  /**
   * The fold of f over the lines of c. Object.values visits the lines in
   * property order; SumOfRemove shows that the order does not matter.
   */
  ghost function SumOf(c: Cart, f: Line -> int): int
    decreases |c|
  {
    if c == map[] then 0
    else
      var k :| k in c;
      assert |c - {k}| < |c| by { assert (c - {k}).Keys == c.Keys - {k}; }
      f(c[k]) + SumOf(c - {k}, f)
  }

  /** getCartTotal: the sum over the lines of price times quantity. */
  ghost function Total(c: Cart): int {
    SumOf(c, Worth)
  }

  /** The count shown by updateCartCount: the sum of the quantities. */
  ghost function ItemCount(c: Cart): int {
    SumOf(c, Units)
  }

  lemma CardRemove(c: Cart, k: string)
    requires k in c
    ensures |c - {k}| == |c| - 1
  {
    assert (c - {k}).Keys == c.Keys - {k};
  }

  /** The fold can take any line first: its value does not depend on the order. */
  lemma {:induction false} SumOfRemove(c: Cart, f: Line -> int, k: string)
    requires k in c
    ensures SumOf(c, f) == f(c[k]) + SumOf(c - {k}, f)
    decreases |c|
  {
    var j :| j in c && SumOf(c, f) == f(c[j]) + SumOf(c - {j}, f);
    if j != k {
      CardRemove(c, j);
      CardRemove(c, k);
      SumOfRemove(c - {j}, f, k);
      SumOfRemove(c - {k}, f, j);
      assert (c - {j}) - {k} == (c - {k}) - {j};
    }
  }

  /** Replacing or inserting one line changes the fold by that line alone. */
  lemma SumOfUpdate(c: Cart, f: Line -> int, k: string, l: Line)
    ensures SumOf(c[k := l], f) == SumOf(c - {k}, f) + f(l)
  {
    SumOfRemove(c[k := l], f, k);
    assert c[k := l] - {k} == c - {k};
  }

  /** The empty cart has total 0 and item count 0. */
  lemma EmptyCart()
    ensures Total(map[]) == 0 && ItemCount(map[]) == 0
  {
  }

  /** Adding an item raises the count by exactly one. */
  lemma {:induction false} AddLineCount(c: Cart, name: string, price: int)
    ensures ItemCount(AddLine(c, name, price)) == ItemCount(c) + 1
  {
    var r := AddLine(c, name, price);
    SumOfUpdate(c, Units, name, r[name]);
    if name in c {
      SumOfRemove(c, Units, name);
    } else {
      assert c - {name} == c;
    }
  }

  /** One more unit of a line is worth one more unit price. */
  lemma OneMoreUnit(l: Line)
    ensures Worth(l.(quantity := l.quantity + 1)) == Worth(l) + l.price
  {
  }

  /**
   * Adding an item raises the total by one unit price: the line's own price
   * when it was already there, the given price otherwise.
   */
  lemma {:induction false} AddLineTotal(c: Cart, name: string, price: int)
    ensures Total(AddLine(c, name, price)) == Total(c) + (if name in c then c[name].price else price)
  {
    var r := AddLine(c, name, price);
    SumOfUpdate(c, Worth, name, r[name]);
    if name in c {
      SumOfRemove(c, Worth, name);
      OneMoreUnit(c[name]);
    } else {
      assert c - {name} == c;
    }
  }

  /** Removing a line lowers the count by that line's quantity (0 when absent). */
  lemma {:induction false} RemoveLineCount(c: Cart, name: string)
    ensures ItemCount(RemoveLine(c, name)) == ItemCount(c) - (if name in c then c[name].quantity else 0)
  {
    if name in c {
      SumOfRemove(c, Units, name);
    }
  }

  /** Removing a line lowers the total by that line's price times quantity. */
  lemma {:induction false} RemoveLineTotal(c: Cart, name: string)
    ensures Total(RemoveLine(c, name)) == Total(c) - (if name in c then c[name].price * c[name].quantity else 0)
  {
    if name in c {
      SumOfRemove(c, Worth, name);
    }
  }

  /** Removing a name that was just added for the first time restores the cart. */
  lemma RemoveUndoesFreshAdd(c: Cart, name: string, price: int)
    requires name !in c
    ensures RemoveLine(AddLine(c, name, price), name) == c
  {
  }

  /**
   * In a well-formed cart every line holds at least one unit, so the count is
   * at least the number of lines and is 0 exactly when the cart is empty.
   */
  lemma {:induction false} CountCoversLines(c: Cart)
    requires WellFormed(c)
    ensures ItemCount(c) >= |c|
    ensures ItemCount(c) == 0 <==> c == map[]
    decreases |c|
  {
    if c != map[] {
      var k :| k in c;
      SumOfRemove(c, Units, k);
      CardRemove(c, k);
      CountCoversLines(c - {k});
    }
  }

  /** With no negative price, the total is never negative. */
  lemma {:induction false} TotalNonNegative(c: Cart)
    requires WellFormed(c)
    requires forall name :: name in c ==> c[name].price >= 0
    ensures Total(c) >= 0
    decreases |c|
  {
    if c != map[] {
      var k :| k in c;
      SumOfRemove(c, Worth, k);
      CardRemove(c, k);
      TotalNonNegative(c - {k});
    }
  }

  /**
   * Adding ("Widget", 999), ("Widget", 999), ("Gadget", 450) to an empty cart
   * gives two widgets and one gadget: 3 items, total 2448.
   */
  lemma WidgetGadgetScenario()
    ensures var c := AddLine(AddLine(AddLine(map[], "Widget", 999), "Widget", 999), "Gadget", 450);
            && c == map["Widget" := Line(999, 2), "Gadget" := Line(450, 1)]
            && ItemCount(c) == 3 && Total(c) == 2448
            && RemoveLine(c, "Widget") == map["Gadget" := Line(450, 1)]
            && Total(RemoveLine(c, "Widget")) == 450
  {
    var c0: Cart := map[];
    var c1 := AddLine(c0, "Widget", 999);
    var c2 := AddLine(c1, "Widget", 999);
    var c3 := AddLine(c2, "Gadget", 450);
    EmptyCart();
    AddLineCount(c0, "Widget", 999);
    AddLineCount(c1, "Widget", 999);
    AddLineCount(c2, "Gadget", 450);
    AddLineTotal(c0, "Widget", 999);
    AddLineTotal(c1, "Widget", 999);
    AddLineTotal(c2, "Gadget", 450);
    RemoveLineTotal(c3, "Widget");
    assert c3 == map["Widget" := Line(999, 2), "Gadget" := Line(450, 1)];
  }

  /**
   * The executable fold: visits the lines one at a time, in whatever order
   * the map yields them, accumulating f.
   */
  method SumLines(c: Cart, f: Line -> int) returns (s: int)
    ensures s == SumOf(c, f)
  {
    s := 0;
    var rest := c;
    while rest != map[]
      invariant s + SumOf(rest, f) == SumOf(c, f)
      decreases |rest|
    {
      var k :| k in rest;
      SumOfRemove(rest, f, k);
      CardRemove(rest, k);
      s := s + f(rest[k]);
      rest := rest - {k};
    }
  }
}
