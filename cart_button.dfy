/**
 * The floating cart button (components/productCartButton.tsx): shown only to a
 * signed-in, non-admin account; it counts the units in the cart, is disabled at
 * zero, labels itself with that count and opens the drawer when clicked.
 */
module CartButton {
  import opened Wrappers
  import opened JsText
  import opened Records
  import opened ProductCart

  const LABEL_EMPTY := "Carrito"

  /**
   * `items.reduce((acc, item) => acc + item.quantity, 0)`: with every quantity
   * positive, at least one unit per line.
   */
  function ItemsCount(items: seq<CartItem>): (r: int)
    ensures AllPositive(items) ==> r >= |items|
  {
    if items == [] then 0
    else
      assert AllPositive(items) ==> AllPositive(items[..|items| - 1]);
      ItemsCount(items[..|items| - 1]) + items[|items| - 1].quantity
  }

  /** A whole number as a template literal shows it. */
  function NumberText(n: int): string {
    if n < 0 then "-" + DecimalText(-n) else DecimalText(n)
  }

  /**
   * The label: `"Carrito"` at zero, otherwise the count and `producto`, plural above
   * one; so it reads "Carrito" exactly at zero, and ends in "s" exactly above one.
   */
  function Label(count: int): (r: string)
    ensures r == LABEL_EMPTY <==> count == 0
    ensures count != 0 ==> r != [] && (r[|r| - 1] == 's' <==> count > 1)
  {
    if count == 0 then LABEL_EMPTY
    else NumberText(count) + " producto" + (if count > 1 then "s" else "")
  }

  /** What the button renders: its disabled state and its label text. */
  datatype View = View(disabled: bool, text: string)

  /**
   * The component: nothing without an account or for an admin account; when shown,
   * it is disabled exactly when its label is the empty-cart one.
   */
  function Render(account: Option<Account>, items: seq<CartItem>): (r: Option<View>)
    ensures r.Some? <==> account.Some? && !account.value.admin
    ensures r.Some? ==> (r.value.disabled <==> r.value.text == LABEL_EMPTY)
  {
    if account.None? || account.value.admin then None
    else
      var count := ItemsCount(items);
      Some(View(count == 0, Label(count)))
  }

  // ---------------------------------------------------------------------------
  // Properties

  /** With every quantity positive, the count is zero exactly for an empty cart. */
  lemma ItemsCountBounds(items: seq<CartItem>)
    requires AllPositive(items)
    ensures ItemsCount(items) == 0 <==> items == []
  {
  }

  /** The count of two carts laid end to end is the sum of their counts. */
  lemma {:induction false} ItemsCountAppend(a: seq<CartItem>, b: seq<CartItem>)
    ensures ItemsCount(a + b) == ItemsCount(a) + ItemsCount(b)
    decreases |b|
  {
    if b != [] {
      var init := b[..|b| - 1];
      assert (a + b)[..|a + b| - 1] == a + init;
      ItemsCountAppend(a, init);
    } else {
      assert a + b == a;
    }
  }

  /** The count splits around any one line. */
  lemma ItemsCountAround(items: seq<CartItem>, i: int)
    requires 0 <= i < |items|
    ensures ItemsCount(items) == ItemsCount(items[..i]) + items[i].quantity + ItemsCount(items[i + 1..])
  {
    var before, line, after := items[..i], [items[i]], items[i + 1..];
    assert items == before + line + after;
    ItemsCountAppend(before + line, after);
    ItemsCountAppend(before, line);
    assert ItemsCount(line) == items[i].quantity by { assert line[..0] == []; }
  }

  /** For a well-formed cart the button is disabled exactly when the cart has no lines. */
  lemma DisabledIffEmpty(account: Account, items: seq<CartItem>)
    requires !account.admin && WellFormed(items)
    ensures Render(Some(account), items).Some?
    ensures Render(Some(account), items).value.disabled <==> items == []
  {
    ItemsCountBounds(items);
  }

  /** The digits in front of a non-zero label read back as the count, followed by the word. */
  lemma LabelReadsBack(count: nat)
    requires count > 0
    ensures exists k | 0 <= k <= |Label(count)| ::
              StringToNumber(Label(count)[..k]) == Finite(count as real)
              && (Label(count)[k..] == " producto" || Label(count)[k..] == " productos")
  {
    var digits := DecimalText(count);
    var word := if count > 1 then " productos" else " producto";
    var text := Label(count);
    assert text == digits + word;
    DecimalTextRoundTrip(count);
    assert text[..|digits|] == digits && text[|digits|..] == word;
  }

  /** Adding a product with a positive quantity raises the count by that quantity. */
  lemma CountAfterAdd(items: seq<CartItem>, product: ProductoVender, quantity: int)
    requires WellFormed(items) && quantity > 0
    ensures ItemsCount(Added(items, product, quantity)) == ItemsCount(items) + quantity
  {
    if HasLine(items, product.id) {
      var i :| 0 <= i < |items| && items[i].productId == product.id;
      CountAfterBump(items, product, quantity, i);
    } else {
      ItemsCountAppend(items, [NewLine(product, quantity)]);
    }
  }

  /** Adding to the line at `i` raises only that line's quantity, and the count with it. */
  lemma CountAfterBump(items: seq<CartItem>, product: ProductoVender, quantity: int, i: int)
    requires DistinctIds(items) && 0 <= i < |items| && items[i].productId == product.id
    ensures ItemsCount(Added(items, product, quantity)) == ItemsCount(items) + quantity
  {
    AddExisting(items, product, quantity, i);
    ReplaceLineCount(items, Added(items, product, quantity), i);
  }

  /** Two carts that differ only in line `i` differ in count by that line's quantities. */
  lemma ReplaceLineCount(a: seq<CartItem>, b: seq<CartItem>, i: int)
    requires |a| == |b| && 0 <= i < |a|
    requires forall k :: 0 <= k < |a| && k != i ==> a[k] == b[k]
    ensures ItemsCount(b) == ItemsCount(a) - a[i].quantity + b[i].quantity
  {
    assert a[..i] == b[..i];
    var sa, sb := a[i + 1..], b[i + 1..];
    forall k | 0 <= k < |sa| ensures sa[k] == sb[k] {
      assert sa[k] == a[i + 1 + k];
    }
    assert sa == sb;
    ItemsCountAround(a, i);
    ItemsCountAround(b, i);
  }

  /** A click opens the drawer; the cart's lines and the checkout flag are untouched. */
  method Click(cart: Cart)
    modifies cart`isDrawerOpen
    ensures cart.isDrawerOpen
  {
    cart.SetDrawerOpen(true);
  }
}
