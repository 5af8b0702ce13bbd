/**
 * The client-side shopping cart (context/ProductCart.tsx): a list of lines keyed
 * by product id, the drawer and checkout flags, and the derived total.
 *
 * Each React state update is a pure `map`/`filter` over the previous list; those
 * are the functions below, and the `Cart` class replaces its state with them.
 */
module ProductCart {
  import opened Records
  import opened Collections

  /** One cart line (`ProductCartItem`); `unitPrice` is in whole pesos. */
  datatype CartItem = CartItem(
    productId: int,
    name: string,
    codigo: string,
    municipio: string,
    categoria: string,
    presentacion: string,
    unitPrice: int,
    quantity: int)

  /** Some line of the cart is for product `id` (`items.find(...)` succeeds). */
  predicate HasLine(items: seq<CartItem>, id: int) {
    exists k | 0 <= k < |items| :: items[k].productId == id
  }

  /** No two lines are for the same product. */
  predicate DistinctIds(items: seq<CartItem>) {
    forall i, j :: 0 <= i < j < |items| ==> items[i].productId != items[j].productId
  }

  predicate AllPositive(items: seq<CartItem>) {
    forall k :: 0 <= k < |items| ==> items[k].quantity > 0
  }

  /** The cart's invariant: one line per product, every quantity positive. */
  predicate WellFormed(items: seq<CartItem>) {
    DistinctIds(items) && AllPositive(items)
  }

  /** The line a product gets when it first enters the cart. */
  function NewLine(product: ProductoVender, quantity: int): (line: CartItem)
    ensures line.productId == product.id && line.unitPrice == product.precioVenta
    ensures line.name == product.producto && line.codigo == product.codigo
    ensures line.municipio == product.municipio && line.categoria == product.categoria
    ensures line.presentacion == product.presentacion && line.quantity == quantity
  {
    CartItem(product.id, product.producto, product.codigo, product.municipio,
             product.categoria, product.presentacion, product.precioVenta, quantity)
  }

  /** `items.map(...)`: every line for `id` has `delta` added to its quantity. */
  function Bumped(items: seq<CartItem>, id: int, delta: int): (r: seq<CartItem>)
    ensures |r| == |items|
    ensures forall k :: 0 <= k < |items| && items[k].productId == id ==>
              r[k] == items[k].(quantity := items[k].quantity + delta)
    ensures forall k :: 0 <= k < |items| && items[k].productId != id ==> r[k] == items[k]
  {
    seq(|items|, k requires 0 <= k < |items| =>
      if items[k].productId == id then items[k].(quantity := items[k].quantity + delta) else items[k])
  }

  predicate IsPositive(line: CartItem) {
    line.quantity > 0
  }

  /** `filter((item) => item.quantity > 0)`: no line left has a quantity below 1. */
  function KeepPositive(items: seq<CartItem>): (r: seq<CartItem>)
    ensures |r| <= |items| && AllPositive(r)
  {
    var r := Filter(items, IsPositive);
    FilterMembers(items, IsPositive);
    assert forall k :: 0 <= k < |r| ==> r[k] in r;
    r
  }

  /** The lines that are not for product `id`. */
  predicate Other(id: int, line: CartItem) {
    line.productId != id
  }

  /** `filter((item) => item.productId !== id)`: exactly the lines for other products. */
  function Without(items: seq<CartItem>, id: int): (r: seq<CartItem>)
    ensures |r| <= |items|
    ensures forall line :: line in r <==> line in items && line.productId != id
  {
    FilterMembers(items, line => Other(id, line));
    Filter(items, line => Other(id, line))
  }

  /**
   * The list `addProduct` computes from the previous one (once `quantity > 0`): the
   * product has a line afterwards, the existing lines stay in place for the same
   * products, and a line is appended only for a product the cart did not hold.
   */
  function Added(items: seq<CartItem>, product: ProductoVender, quantity: int): (r: seq<CartItem>)
    ensures HasLine(r, product.id)
    ensures |r| == if HasLine(items, product.id) then |items| else |items| + 1
    ensures forall k :: 0 <= k < |items| ==> r[k].productId == items[k].productId
  {
    if HasLine(items, product.id) then Bumped(items, product.id, quantity)
    else
      var r := items + [NewLine(product, quantity)];
      assert r[|items|].productId == product.id;
      r
  }

  /** The list `decrementQuantity` computes: never longer, and every quantity still positive. */
  function Decremented(items: seq<CartItem>, id: int): (r: seq<CartItem>)
    ensures |r| <= |items| && AllPositive(r)
  {
    KeepPositive(Bumped(items, id, -1))
  }

  /** `total`: the left-to-right sum of `unitPrice * quantity`, never negative for non-negative prices and quantities. */
  function Total(items: seq<CartItem>): (r: int)
    ensures (forall k :: 0 <= k < |items| ==> items[k].unitPrice >= 0 && items[k].quantity >= 0) ==> r >= 0
  {
    if items == [] then 0
    else Total(items[..|items| - 1]) + items[|items| - 1].unitPrice * items[|items| - 1].quantity
  }

  // ---------------------------------------------------------------------------
  // Filtering

  /** Filtering a list with distinct ids leaves the ids distinct. */
  lemma {:induction false} FilterDistinct(items: seq<CartItem>, keep: CartItem -> bool)
    requires DistinctIds(items)
    ensures DistinctIds(Filter(items, keep))
  {
    if items != [] {
      var rest := items[1..];
      FilterDistinct(rest, keep);
      FilterMembers(rest, keep);
      var fr := Filter(rest, keep);
      if keep(items[0]) {
        var r := [items[0]] + fr;
        forall i, j | 0 <= i < j < |r| ensures r[i].productId != r[j].productId {
          if i == 0 {
            assert r[j] == fr[j - 1] && fr[j - 1] in rest;
            var m :| 0 <= m < |rest| && rest[m] == r[j];
            assert items[m + 1] == r[j];
          } else {
            assert r[i] == fr[i - 1] && r[j] == fr[j - 1];
          }
        }
      }
    }
  }

  /** Filtering out one product's lines leaves none of them. */
  lemma WithoutHasNoLine(items: seq<CartItem>, id: int)
    ensures !HasLine(Without(items, id), id)
  {
    var r := Without(items, id);
    forall k | 0 <= k < |r| ensures r[k].productId != id {
      assert r[k] in r;
    }
  }

  // ---------------------------------------------------------------------------
  // The total

  lemma {:induction false} TotalAppend(a: seq<CartItem>, b: seq<CartItem>)
    ensures Total(a + b) == Total(a) + Total(b)
    decreases |b|
  {
    if b == [] {
      assert a + b == a;
    } else {
      assert (a + b)[..|a + b| - 1] == a + b[..|b| - 1];
      assert (a + b)[|a + b| - 1] == b[|b| - 1];
      TotalAppend(a, b[..|b| - 1]);
    }
  }

  /** The amount of a single line. */
  lemma TotalSingle(line: CartItem)
    ensures Total([line]) == line.unitPrice * line.quantity
  {
    assert [line][..0] == [];
  }

  /** Splitting a cart around line `i`: the total is that line's amount plus the others'. */
  lemma TotalAround(items: seq<CartItem>, i: int)
    requires 0 <= i < |items|
    ensures Total(items) == Total(items[..i]) + items[i].unitPrice * items[i].quantity + Total(items[i + 1..])
  {
    var before, line, after := items[..i], [items[i]], items[i + 1..];
    assert items == before + line + after;
    TotalAppend(before + line, after);
    TotalAppend(before, line);
    TotalSingle(items[i]);
  }

  // ---------------------------------------------------------------------------
  // Properties of the updates

  /** In a cart with distinct ids, the line for a present id sits at exactly one index. */
  lemma UniqueIndex(items: seq<CartItem>, i: int)
    requires DistinctIds(items) && 0 <= i < |items|
    ensures forall k :: 0 <= k < |items| && k != i ==> items[k].productId != items[i].productId
  {
    forall k | 0 <= k < |items| && k != i ensures items[k].productId != items[i].productId {
      if k < i {} else {}
    }
  }

  /** Distributivity, as its own lemma so the solver meets it without the carts around it. */
  lemma MulDistributes(u: int, a: int, b: int)
    ensures u * (a + b) == u * a + u * b
  {
  }

  /** Two carts that differ only in line `i` differ in total by that line's amounts. */
  lemma ReplaceLineTotal(a: seq<CartItem>, b: seq<CartItem>, i: int)
    requires |a| == |b| && 0 <= i < |a|
    requires forall k :: 0 <= k < |a| && k != i ==> a[k] == b[k]
    ensures Total(b) == Total(a) - a[i].unitPrice * a[i].quantity + b[i].unitPrice * b[i].quantity
  {
    assert a[..i] == b[..i];
    var sa, sb := a[i + 1..], b[i + 1..];
    forall k | 0 <= k < |sa| ensures sa[k] == sb[k] {
      assert sa[k] == a[i + 1 + k];
    }
    assert sa == sb;
    TotalAround(a, i);
    TotalAround(b, i);
  }

  /** Raising one line's quantity by `d` raises the total by that line's price times `d`. */
  lemma BumpLineTotal(a: seq<CartItem>, b: seq<CartItem>, i: int, d: int)
    requires |a| == |b| && 0 <= i < |a|
    requires forall k :: 0 <= k < |a| && k != i ==> a[k] == b[k]
    requires b[i] == a[i].(quantity := a[i].quantity + d)
    ensures Total(b) == Total(a) + a[i].unitPrice * d
  {
    ReplaceLineTotal(a, b, i);
    var u, q := a[i].unitPrice, a[i].quantity;
    assert b[i].unitPrice * b[i].quantity == u * (q + d);
    MulDistributes(u, q, d);
  }

  /**
   * `addProduct` for a product already in the cart adds `quantity` to its line only:
   * same length, same order, every other line unchanged.
   */
  lemma AddExisting(items: seq<CartItem>, product: ProductoVender, quantity: int, i: int)
    requires DistinctIds(items) && 0 <= i < |items| && items[i].productId == product.id
    ensures var r := Added(items, product, quantity);
      && |r| == |items|
      && r[i] == items[i].(quantity := items[i].quantity + quantity)
      && (forall k :: 0 <= k < |items| && k != i ==> r[k] == items[k])
  {
    UniqueIndex(items, i);
  }

  /** ... and the total grows by that line's price times `quantity`. */
  lemma AddExistingTotal(items: seq<CartItem>, product: ProductoVender, quantity: int, i: int)
    requires DistinctIds(items) && 0 <= i < |items| && items[i].productId == product.id
    ensures Total(Added(items, product, quantity)) == Total(items) + items[i].unitPrice * quantity
  {
    AddExisting(items, product, quantity, i);
    BumpLineTotal(items, Added(items, product, quantity), i, quantity);
  }

  /**
   * `addProduct` for a new product appends exactly one line, built from the product
   * and priced at its `precioVenta`; the total grows by that price times `quantity`.
   */
  lemma AddNew(items: seq<CartItem>, product: ProductoVender, quantity: int)
    requires !HasLine(items, product.id)
    ensures var r := Added(items, product, quantity);
      && r == items + [NewLine(product, quantity)]
      && Total(r) == Total(items) + product.precioVenta * quantity
  {
    TotalAppend(items, [NewLine(product, quantity)]);
    TotalSingle(NewLine(product, quantity));
  }

  /** `addProduct` with a positive quantity keeps the cart well formed. */
  lemma AddPreservesWellFormed(items: seq<CartItem>, product: ProductoVender, quantity: int)
    requires WellFormed(items) && quantity > 0
    ensures WellFormed(Added(items, product, quantity))
  {
    var r := Added(items, product, quantity);
    if !HasLine(items, product.id) {
      forall i, j | 0 <= i < j < |r| ensures r[i].productId != r[j].productId {
        if j == |items| {
          assert r[i] == items[i];
        }
      }
    }
  }

  /** `incrementQuantity` adds 1 to the matching line; an absent id leaves the list alone. */
  lemma Increment(items: seq<CartItem>, id: int)
    ensures !HasLine(items, id) ==> Bumped(items, id, 1) == items
    ensures WellFormed(items) ==> WellFormed(Bumped(items, id, 1))
    ensures forall i :: 0 <= i < |items| && items[i].productId == id ==>
              Bumped(items, id, 1)[i].quantity == items[i].quantity + 1
  {
  }

  /** `decrementQuantity` for an id the cart does not hold leaves a well-formed cart alone. */
  lemma DecrementAbsent(items: seq<CartItem>, id: int)
    requires WellFormed(items) && !HasLine(items, id)
    ensures Decremented(items, id) == items
  {
    assert Bumped(items, id, -1) == items;
    FilterKeepsAll(items, IsPositive);
  }

  /**
   * `decrementQuantity` for the line at `i`: a line above 1 loses one unit in place,
   * a line at 1 disappears, and every other line keeps its place and value.
   */
  lemma DecrementAt(items: seq<CartItem>, i: int)
    requires WellFormed(items) && 0 <= i < |items|
    ensures var line := items[i];
      Decremented(items, line.productId) ==
        items[..i] + (if line.quantity > 1 then [line.(quantity := line.quantity - 1)] else []) + items[i + 1..]
  {
    var id := items[i].productId;
    UniqueIndex(items, i);
    var b := Bumped(items, id, -1);
    assert b == items[..i] + [b[i]] + items[i + 1..];
    FilterAppend(items[..i] + [b[i]], items[i + 1..], IsPositive);
    FilterAppend(items[..i], [b[i]], IsPositive);
    FilterKeepsAll(items[..i], IsPositive);
    FilterKeepsAll(items[i + 1..], IsPositive);
    assert Filter([b[i]], IsPositive) == if b[i].quantity > 0 then [b[i]] else [] by {
      assert [b[i]][1..] == [];
    }
  }

  /** `decrementQuantity` keeps the cart well formed. */
  lemma DecrementPreservesWellFormed(items: seq<CartItem>, id: int)
    requires WellFormed(items)
    ensures WellFormed(Decremented(items, id))
  {
    var b := Bumped(items, id, -1);
    FilterDistinct(b, IsPositive);
    FilterMembers(b, IsPositive);
    var r := Decremented(items, id);
    forall k | 0 <= k < |r| ensures r[k].quantity > 0 {
      assert r[k] in r;
    }
  }

  /** `removeProduct` for a present id removes exactly that line; the others keep their order. */
  lemma RemoveAt(items: seq<CartItem>, i: int)
    requires DistinctIds(items) && 0 <= i < |items|
    ensures Without(items, items[i].productId) == items[..i] + items[i + 1..]
  {
    var id := items[i].productId;
    forall k | 0 <= k < |items| && k != i ensures Other(id, items[k]) {
      if k < i {
        assert items[k].productId != items[i].productId;
      }
    }
    FilterDropsOne(items, i, line => Other(id, line));
  }

  /** ... and takes that line's amount off the total. */
  lemma RemoveAtTotal(items: seq<CartItem>, i: int)
    requires DistinctIds(items) && 0 <= i < |items|
    ensures Total(Without(items, items[i].productId)) == Total(items) - items[i].unitPrice * items[i].quantity
  {
    RemoveAt(items, i);
    TotalAround(items, i);
    TotalAppend(items[..i], items[i + 1..]);
  }

  /**
   * `removeProduct` keeps the cart well formed and leaves no line for `id`;
   * an absent id changes nothing.
   */
  lemma RemovePreservesWellFormed(items: seq<CartItem>, id: int)
    requires WellFormed(items)
    ensures WellFormed(Without(items, id))
    ensures !HasLine(Without(items, id), id)
    ensures !HasLine(items, id) ==> Without(items, id) == items
  {
    var keep := line => Other(id, line);
    FilterDistinct(items, keep);
    FilterMembers(items, keep);
    WithoutHasNoLine(items, id);
    var r := Without(items, id);
    forall k | 0 <= k < |r| ensures r[k].quantity > 0 {
      assert r[k] in r;
    }
    if !HasLine(items, id) {
      FilterKeepsAll(items, keep);
    }
  }

  // ---------------------------------------------------------------------------
  // The cart provider's state

  class Cart {
    var items: seq<CartItem>
    var isDrawerOpen: bool
    var isCheckoutOpen: bool

    ghost predicate Valid()
      reads this
    {
      WellFormed(items)
    }

    /** The provider's initial state: an empty cart, both panels closed. */
    constructor ()
      ensures Valid() && items == [] && !isDrawerOpen && !isCheckoutOpen
    {
      items := [];
      isDrawerOpen := false;
      isCheckoutOpen := false;
    }

    /** `addProduct`: a non-positive quantity is ignored; otherwise the product is added and the drawer opens. */
    method AddProduct(product: ProductoVender, quantity: int)
      requires Valid()
      modifies this
      ensures Valid()
      ensures quantity <= 0 ==> items == old(items) && isDrawerOpen == old(isDrawerOpen)
      ensures quantity > 0 ==> items == Added(old(items), product, quantity) && isDrawerOpen
      ensures isCheckoutOpen == old(isCheckoutOpen)
    {
      if quantity <= 0 {
        return;
      }
      AddPreservesWellFormed(items, product, quantity);
      items := Added(items, product, quantity);
      isDrawerOpen := true;
    }

    /** `incrementQuantity`. */
    method IncrementQuantity(id: int)
      requires Valid()
      modifies this`items
      ensures Valid()
      ensures items == Bumped(old(items), id, 1)
    {
      items := Bumped(items, id, 1);
    }

    /** `decrementQuantity`. */
    method DecrementQuantity(id: int)
      requires Valid()
      modifies this`items
      ensures Valid()
      ensures items == Decremented(old(items), id)
    {
      DecrementPreservesWellFormed(items, id);
      items := Decremented(items, id);
    }

    /** `removeProduct`. */
    method RemoveProduct(id: int)
      requires Valid()
      modifies this`items
      ensures Valid()
      ensures items == Without(old(items), id)
    {
      RemovePreservesWellFormed(items, id);
      items := Without(items, id);
    }

    /** `clear`. */
    method Clear()
      modifies this`items
      ensures Valid() && items == [] && Total(items) == 0
    {
      items := [];
    }

    /** `setDrawerOpen`. */
    method SetDrawerOpen(open: bool)
      modifies this`isDrawerOpen
      ensures isDrawerOpen == open
    {
      isDrawerOpen := open;
    }

    /** `setCheckoutOpen`. */
    method SetCheckoutOpen(open: bool)
      modifies this`isCheckoutOpen
      ensures isCheckoutOpen == open
    {
      isCheckoutOpen := open;
    }
  }
}
