/**
 * The home page's product catalog and carousels (pages/index.tsx): the search,
 * municipio, categoria and price filters over the product list, the option lists
 * for the two selects, and the wrap-around slide index of a carousel.
 */
module HomeCatalog {
  import opened Wrappers
  import opened JsText
  import opened Records
  import opened Collections

  /** The select value that turns a filter off. */
  const ALL := "todos"

  /** The filter inputs, as the text the user typed or picked. */
  datatype Filters = Filters(search: string, municipio: string, categoria: string, precioMin: string, precioMax: string)

  const Unfiltered := Filters("", ALL, ALL, "", "")

  /** An empty normalised search matches everything; otherwise the name or the code must contain it. */
  predicate MatchesSearch(p: ProductoVender, search: string) {
    var q := ToLower(Trim(search));
    |q| == 0 || Includes(ToLower(p.producto), q) || Includes(ToLower(p.codigo), q)
  }

  predicate MatchesChoice(value: string, choice: string) {
    choice == ALL || value == choice
  }

  /** A lower bound that is NaN or not positive is ignored. */
  predicate AboveMin(price: int, min: JsNumber) {
    min.NaN? || min.value <= 0.0 || price as real >= min.value
  }

  /** An upper bound that is NaN or not positive is ignored. */
  predicate BelowMax(price: int, max: JsNumber) {
    max.NaN? || max.value <= 0.0 || price as real <= max.value
  }

  /** The predicate `filteredProductos` keeps a product by. */
  predicate Matches(p: ProductoVender, f: Filters) {
    && MatchesSearch(p, f.search)
    && MatchesChoice(p.municipio, f.municipio)
    && MatchesChoice(p.categoria, f.categoria)
    && AboveMin(p.precioVenta, StringToNumber(f.precioMin))
    && BelowMax(p.precioVenta, StringToNumber(f.precioMax))
  }

  /** `filteredProductos`: exactly the listed products that match, in list order. */
  function FilterProductos(ps: seq<ProductoVender>, f: Filters): (r: seq<ProductoVender>)
    ensures |r| <= |ps|
    ensures forall p :: p in r <==> p in ps && Matches(p, f)
  {
    FilterMembers(ps, (p: ProductoVender) => Matches(p, f));
    Filter(ps, (p: ProductoVender) => Matches(p, f))
  }

  // ---------------------------------------------------------------------------
  // The filter

  /** Filtering distributes over concatenation, so the kept products stay in list order. */
  lemma FilterProductosAppend(ps: seq<ProductoVender>, qs: seq<ProductoVender>, f: Filters)
    ensures FilterProductos(ps + qs, f) == FilterProductos(ps, f) + FilterProductos(qs, f)
  {
    FilterAppend(ps, qs, (p: ProductoVender) => Matches(p, f));
  }

  /** An empty or whitespace-only search matches every product. */
  lemma BlankSearch(p: ProductoVender, search: string)
    requires forall k :: 0 <= k < |search| ==> IsJsSpace(search[k])
    ensures MatchesSearch(p, search)
  {
    TrimAllSpace(search);
  }

  /** With the initial filter values every product is listed. */
  lemma UnfilteredListsAll(ps: seq<ProductoVender>)
    ensures FilterProductos(ps, Unfiltered) == ps
  {
    forall k | 0 <= k < |ps| ensures Matches(ps[k], Unfiltered) {
      var p := ps[k];
      BlankSearch(p, "");
      EmptyBoundsIgnored(p.precioVenta);
    }
    FilterKeepsAll(ps, (p: ProductoVender) => Matches(p, Unfiltered));
  }

  /**
   * A search that is not blank matches exactly the products whose lowercased name
   * or code contains the trimmed, lowercased search.
   */
  lemma SearchContains(p: ProductoVender, search: string)
    requires Trim(search) != []
    ensures MatchesSearch(p, search) <==>
              var q := ToLower(Trim(search));
              Includes(ToLower(p.producto), q) || Includes(ToLower(p.codigo), q)
  {
  }

  /**
   * Picking a municipio narrows the list shown with "todos" to that municipio's
   * products; "todos" itself adds nothing back that the other filters removed.
   */
  lemma ChoosingMunicipio(ps: seq<ProductoVender>, f: Filters, choice: string)
    requires choice != ALL
    ensures forall p :: p in FilterProductos(ps, f.(municipio := choice)) <==>
              p in FilterProductos(ps, f.(municipio := ALL)) && p.municipio == choice
  {
  }

  /** An empty bound field reads as 0 and is ignored. */
  lemma EmptyBoundsIgnored(price: int)
    ensures AboveMin(price, StringToNumber("")) && BelowMax(price, StringToNumber(""))
  {
  }

  /** A bound typed as a positive whole number compares against the sale price. */
  lemma DigitBounds(price: int, min: string, max: string)
    requires min != [] && AllDigits(min) && DigitsValue(min) > 0
    requires max != [] && AllDigits(max) && DigitsValue(max) > 0
    ensures AboveMin(price, StringToNumber(min)) <==> price >= DigitsValue(min)
    ensures BelowMax(price, StringToNumber(max)) <==> price <= DigitsValue(max)
  {
    DigitsToNumber(min);
    DigitsToNumber(max);
  }

  /** Text that is not a number, such as "abc", leaves the bound off. */
  lemma NaNBoundIgnored(price: int, bound: string)
    requires StringToNumber(bound) == NaN
    ensures AboveMin(price, StringToNumber(bound)) && BelowMax(price, StringToNumber(bound))
  {
  }

  // ---------------------------------------------------------------------------
  // The option lists

  /** `.filter(Boolean)` on strings: drops the empty ones. */
  function NonEmpty(xs: seq<string>): (r: seq<string>)
    ensures forall x :: x in r <==> x in xs && x != []
    decreases |xs|
  {
    if xs == [] then []
    else (if xs[0] != [] then [xs[0]] else []) + NonEmpty(xs[1..])
  }

  predicate Sorted(xs: seq<string>) {
    forall i, j :: 0 <= i < j < |xs| ==> StringLessEq(xs[i], xs[j])
  }

  /** Inserts `x` into a sorted list before the first element it does not exceed; nothing else is added or lost. */
  function Insert(x: string, xs: seq<string>): (r: seq<string>)
    ensures multiset(r) == multiset(xs) + multiset{x}
    decreases |xs|
  {
    if xs == [] then [x]
    else if StringLessEq(x, xs[0]) then [x] + xs
    else
      assert xs == [xs[0]] + xs[1..];
      [xs[0]] + Insert(x, xs[1..])
  }

  /** `.sort()` with the default comparison: a permutation of its input. */
  function Sort(xs: seq<string>): (r: seq<string>)
    ensures multiset(r) == multiset(xs)
    decreases |xs|
  {
    if xs == [] then []
    else
      assert xs == [xs[0]] + xs[1..];
      Insert(xs[0], Sort(xs[1..]))
  }

  lemma {:induction false} InsertSpec(x: string, xs: seq<string>)
    requires Sorted(xs)
    ensures Sorted(Insert(x, xs))
    ensures |Insert(x, xs)| == |xs| + 1
    ensures forall y :: y in Insert(x, xs) <==> y == x || y in xs
    decreases |xs|
  {
    if xs != [] {
      if StringLessEq(x, xs[0]) {
        InsertFirst(x, xs);
      } else {
        UnitsLessEqTotal(Utf16Units(x), Utf16Units(xs[0]));
        InsertSpec(x, xs[1..]);
        InsertLater(x, xs, Insert(x, xs[1..]));
      }
    }
  }

  /** A value no greater than the head of a sorted list goes in front of it. */
  lemma InsertFirst(x: string, xs: seq<string>)
    requires Sorted(xs) && xs != [] && StringLessEq(x, xs[0])
    ensures Sorted([x] + xs)
  {
    forall j | 0 <= j < |xs| ensures StringLessEq(x, xs[j]) {
      if j > 0 {
        UnitsLessEqTransitive(Utf16Units(x), Utf16Units(xs[0]), Utf16Units(xs[j]));
      }
    }
  }

  /** A value above the head goes into the sorted tail, behind the head. */
  lemma InsertLater(x: string, xs: seq<string>, r: seq<string>)
    requires Sorted(xs) && xs != [] && StringLessEq(xs[0], x)
    requires Sorted(r) && forall y :: y in r <==> y == x || y in xs[1..]
    ensures Sorted([xs[0]] + r)
  {
    forall y | y in r ensures StringLessEq(xs[0], y) {
      if y != x {
        var j :| 0 <= j < |xs[1..]| && xs[1..][j] == y;
        assert xs[j + 1] == y;
      }
    }
  }

  /** The sorted list is in order and holds the same values, as many. */
  lemma SortSpec(xs: seq<string>)
    ensures Sorted(Sort(xs))
    ensures |Sort(xs)| == |xs|
    ensures forall y :: y in Sort(xs) <==> y in xs
    ensures Distinct(xs) ==> Distinct(Sort(xs))
  {
    SortSorted(xs);
    SortMembers(xs);
    if Distinct(xs) {
      SortDistinct(xs);
    }
  }

  lemma {:induction false} SortSorted(xs: seq<string>)
    ensures Sorted(Sort(xs))
    decreases |xs|
  {
    if xs != [] {
      SortSorted(xs[1..]);
      InsertSpec(xs[0], Sort(xs[1..]));
    }
  }

  /** Being a permutation, the sorted list has the input's length and members. */
  lemma SortMembers(xs: seq<string>)
    ensures |Sort(xs)| == |xs|
    ensures forall y :: y in Sort(xs) <==> y in xs
  {
    var r := Sort(xs);
    assert |r| == |multiset(r)| == |multiset(xs)| == |xs|;
    forall y
      ensures y in r <==> y in xs
    {
      assert y in r <==> y in multiset(r);
      assert y in xs <==> y in multiset(xs);
    }
  }

  lemma {:induction false} SortDistinct(xs: seq<string>)
    requires Distinct(xs)
    ensures Distinct(Sort(xs))
    decreases |xs|
  {
    if xs != [] {
      SortDistinct(xs[1..]);
      SortMembers(xs[1..]);
      SortStepDistinct(xs, Sort(xs[1..]));
    }
  }

  /** The head of a repeat-free list is not among the sorted rest, so inserting it keeps the result repeat-free. */
  lemma SortStepDistinct(xs: seq<string>, rest: seq<string>)
    requires xs != [] && Distinct(xs) && rest == Sort(xs[1..])
    requires Distinct(rest) && forall y :: y in rest <==> y in xs[1..]
    ensures Distinct(Sort(xs))
  {
    assert xs[0] !in xs[1..] by {
      forall j | 0 <= j < |xs[1..]| ensures xs[1..][j] != xs[0] {
        assert xs[1..][j] == xs[j + 1];
      }
    }
    InsertDistinct(xs[0], rest);
  }

  lemma {:induction false} InsertDistinct(x: string, xs: seq<string>)
    requires Distinct(xs) && x !in xs
    ensures Distinct(Insert(x, xs))
    decreases |xs|
  {
    if xs != [] && !StringLessEq(x, xs[0]) {
      InsertDistinct(x, xs[1..]);
      InsertMembers(x, xs[1..]);
      assert xs[0] !in xs[1..] by {
        forall j | 0 <= j < |xs[1..]| ensures xs[1..][j] != xs[0] {
          assert xs[1..][j] == xs[j + 1];
        }
      }
      var r := Insert(x, xs[1..]);
      assert Insert(x, xs) == [xs[0]] + r;
      forall i, j | 0 <= i < j < |r| + 1 ensures ([xs[0]] + r)[i] != ([xs[0]] + r)[j] {
        if i == 0 {
          assert ([xs[0]] + r)[j] == r[j - 1];
          assert r[j - 1] in r;
        }
      }
    }
  }

  lemma {:induction false} InsertMembers(x: string, xs: seq<string>)
    ensures forall y :: y in Insert(x, xs) <==> y == x || y in xs
    decreases |xs|
  {
    if xs != [] && !StringLessEq(x, xs[0]) {
      InsertMembers(x, xs[1..]);
    }
  }

  /**
   * `Array.from(new Set(values.filter(Boolean))).sort()`: sorted, without repeats,
   * and holding exactly the non-empty values.
   */
  function Options(values: seq<string>): (r: seq<string>)
    ensures Sorted(r) && Distinct(r)
    ensures forall s :: s in r <==> s in values && s != []
  {
    DedupSpec(NonEmpty(values));
    SortSpec(Dedup(NonEmpty(values)));
    Sort(Dedup(NonEmpty(values)))
  }

  function Municipios(ps: seq<ProductoVender>): seq<string> {
    Options(seq(|ps|, k requires 0 <= k < |ps| => ps[k].municipio))
  }

  function Categorias(ps: seq<ProductoVender>): seq<string> {
    Options(seq(|ps|, k requires 0 <= k < |ps| => ps[k].categoria))
  }

  lemma MunicipiosSpec(ps: seq<ProductoVender>)
    ensures Sorted(Municipios(ps)) && Distinct(Municipios(ps))
    ensures forall s :: s in Municipios(ps) <==> s != [] && exists k :: 0 <= k < |ps| && ps[k].municipio == s
  {
    var values := seq(|ps|, k requires 0 <= k < |ps| => ps[k].municipio);
    forall s ensures s in values <==> exists k :: 0 <= k < |ps| && ps[k].municipio == s {
      if s in values {
        var k :| 0 <= k < |values| && values[k] == s;
        assert ps[k].municipio == s;
      }
      if exists k :: 0 <= k < |ps| && ps[k].municipio == s {
        var k :| 0 <= k < |ps| && ps[k].municipio == s;
        assert values[k] == s;
      }
    }
  }

  lemma CategoriasSpec(ps: seq<ProductoVender>)
    ensures Sorted(Categorias(ps)) && Distinct(Categorias(ps))
    ensures forall s :: s in Categorias(ps) <==> s != [] && exists k :: 0 <= k < |ps| && ps[k].categoria == s
  {
    var values := seq(|ps|, k requires 0 <= k < |ps| => ps[k].categoria);
    forall s ensures s in values <==> exists k :: 0 <= k < |ps| && ps[k].categoria == s {
      if s in values {
        var k :| 0 <= k < |values| && values[k] == s;
        assert ps[k].categoria == s;
      }
      if exists k :: 0 <= k < |ps| && ps[k].categoria == s {
        var k :| 0 <= k < |ps| && ps[k].categoria == s;
        assert values[k] == s;
      }
    }
  }

  // ---------------------------------------------------------------------------
  // The carousel

  /**
   * `prevSlide` over `count` slides (`list?.length || 0`): the first slide goes to
   * the last, so an index in range stays in range.
   */
  function PrevIndex(index: int, count: nat): (r: int)
    ensures 0 <= index < count ==> 0 <= r < count
  {
    if index == 0 then count - 1 else index - 1
  }

  /** `nextSlide`: the last slide goes to the first, so an index in range stays in range. */
  function NextIndex(index: int, count: nat): (r: int)
    ensures 0 <= index < count ==> 0 <= r < count
  {
    if index == count - 1 then 0 else index + 1
  }

  /** On a non-empty list both moves keep an index in range, wrapping at the ends. */
  lemma SlidesStayInRange(index: int, count: nat)
    requires count > 0 && 0 <= index < count
    ensures 0 <= PrevIndex(index, count) < count && 0 <= NextIndex(index, count) < count
    ensures index == 0 ==> PrevIndex(index, count) == count - 1
    ensures index == count - 1 ==> NextIndex(index, count) == 0
  {
  }

  /** Each move undoes the other. */
  lemma PrevNextInverse(index: int, count: nat)
    requires count > 0 && 0 <= index < count
    ensures PrevIndex(NextIndex(index, count), count) == index
    ensures NextIndex(PrevIndex(index, count), count) == index
  {
  }

  /** `nextSlide` applied `k` times, as the 5-second interval does. */
  function NextTimes(index: int, count: nat, k: nat): int
    decreases k
  {
    if k == 0 then index else NextIndex(NextTimes(index, count, k - 1), count)
  }

  /** From an in-range index, `k` moves forward land on `(index + k) % count`. */
  lemma {:induction false} NextTimesModulo(index: int, count: nat, k: nat)
    requires count > 0 && 0 <= index < count
    ensures NextTimes(index, count, k) == (index + k) % count
    decreases k
  {
    if k > 0 {
      NextTimesModulo(index, count, k - 1);
      NextOfRemainder(index + k - 1, count);
    }
  }

  /** One move forward from `a % count` lands on `(a + 1) % count`. */
  lemma NextOfRemainder(a: int, count: nat)
    requires count > 0
    ensures NextIndex(a % count, count) == (a + 1) % count
  {
    var m := a % count;
    var q := a / count;
    assert a == q * count + m;
    if m == count - 1 {
      ModOfMultiple(a + 1, q + 1, count);
    } else {
      ModOfRemainder(a + 1, q, m + 1, count);
    }
  }

  lemma ModOfMultiple(a: int, q: int, count: nat)
    requires count > 0 && a == q * count
    ensures a % count == 0
  {
    ModOfRemainder(a, q, 0, count);
  }

  lemma ModOfRemainder(a: int, q: int, r: int, count: nat)
    requires count > 0 && 0 <= r < count && a == q * count + r
    ensures a % count == r
  {
    var q' := a / count;
    MulSub(q, q', count);
    SmallMultiple(q - q', count, a % count - r);
  }

  /** Distributivity over a difference, kept apart so the modulo proof above stays small. */
  lemma MulSub(q: int, q': int, count: int)
    ensures (q - q') * count == q * count - q' * count
  {
  }

  /** The only multiple of `count` strictly between `-count` and `count` is 0. */
  lemma SmallMultiple(d: int, count: int, m: int)
    requires count > 0 && m == d * count && -count < m < count
    ensures d == 0
  {
    if d > 0 {
      MulAtLeast(d, count);
    } else if d < 0 {
      MulAtLeast(-d, count);
      MulSub(0, d, count);
    }
  }

  /** A positive multiple of `count` is at least `count`; `SmallMultiple` rests on it. */
  lemma {:induction false} MulAtLeast(d: int, count: nat)
    requires d >= 1
    ensures d * count >= count
    decreases d
  {
    if d > 1 {
      MulAtLeast(d - 1, count);
      assert d * count == (d - 1) * count + count;
    }
  }

  /** On an empty list, or once the index is past the end, `nextSlide` only counts up. */
  lemma NextPastEnd(index: int, count: nat)
    requires index >= count
    ensures NextIndex(index, count) == index + 1
  {
  }

  /** One carousel's `currentIndex` state. */
  class Carousel {
    var currentIndex: int

    constructor ()
      ensures currentIndex == 0
    {
      currentIndex := 0;
    }

    method PrevSlide(count: nat)
      modifies this
      ensures currentIndex == PrevIndex(old(currentIndex), count)
      ensures count > 0 && 0 <= old(currentIndex) < count ==> 0 <= currentIndex < count
    {
      var isFirstSlide := currentIndex == 0;
      currentIndex := if isFirstSlide then count - 1 else currentIndex - 1;
    }

    /** Also what each tick of the 5-second interval does. */
    method NextSlide(count: nat)
      modifies this
      ensures currentIndex == NextIndex(old(currentIndex), count)
      ensures count > 0 && 0 <= old(currentIndex) < count ==> 0 <= currentIndex < count
    {
      var isLastSlide := currentIndex == count - 1;
      currentIndex := if isLastSlide then 0 else currentIndex + 1;
    }

    method GoToSlide(slideIndex: int)
      modifies this
      ensures currentIndex == slideIndex
    {
      currentIndex := slideIndex;
    }
  }
}
