/**
 * The product catalog and what is computed from it: the filtered card grid of
 * `renderProducts` and the selected-products list of `updateSelectedProductsList`
 * and the generate-routine handler.
 */
module Catalog {
  import opened Wrappers
  import opened Text
  import opened Seqs
  import opened Selection

  /** Integers a JavaScript number holds exactly (`Number.MAX_SAFE_INTEGER`). */
  const MaxSafeInteger: int := 9007199254740991
  type SafeInt = n: int | -MaxSafeInteger <= n <= MaxSafeInteger

  /** A product id as the catalog file gives it: a string or a number. */
  datatype ProductId = StrId(s: string) | NumId(n: SafeInt)

  /** `String(id)`: the key under which an id is stored in the selection. */
  function IdString(id: ProductId): (r: string)
    ensures id.StrId? ==> r == id.s
    ensures id.NumId? ==> r != [] && (r[0] == '-' <==> id.n < 0)
  {
    match id
    case StrId(s) => s
    case NumId(n) => IntToDecimal(n)
  }

  /** A number and its decimal text are the same selection key. */
  lemma NumberAndTextSameKey(n: SafeInt)
    ensures IdString(NumId(n)) == IdString(StrId(IntToDecimal(n)))
  {
  }

  /** Two numeric ids share a selection key only when they are the same number. */
  lemma NumericIdsDistinct(m: SafeInt, n: SafeInt)
    requires IdString(NumId(m)) == IdString(NumId(n))
    ensures m == n
  {
    IntToDecimalInjective(m, n);
  }

  datatype Product = Product(
    id: ProductId,
    name: string,
    brand: string,
    category: string,
    description: Option<string>,
    image: string)

  /** `(name + " " + brand + " " + (description || "")).toLowerCase()` */
  function SearchText(p: Product): string {
    Lower(p.name + " " + p.brand + " " + p.description.GetOr(""))
  }

  /**
   * The search term: the search box's value trimmed and lowered, or "" when there is
   * no search box (`None`) or it is empty.
   */
  function NormalizedSearch(input: Option<string>): string {
    match input
    case None => ""
    case Some(v) => if v == "" then "" else Lower(Trim(v))
  }

  /** The filter predicate of `renderProducts`. */
  predicate MatchesFilters(p: Product, category: string, search: string) {
    && (category == "" || p.category == category)
    && (search == "" || Includes(SearchText(p), search))
  }

  /** The products `renderProducts` shows for a category choice and a search box value. */
  function FilterProducts(catalog: seq<Product>, category: string, input: Option<string>): (r: seq<Product>)
    ensures |r| <= |catalog|
    ensures forall p :: p in r ==> p in catalog
  {
    var search := NormalizedSearch(input);
    Filter(catalog, (p: Product) => MatchesFilters(p, category, search))
  }

  /**
   * A product is shown exactly when it is in the catalog, the category is unset or equal
   * to its own, and the search term is empty or occurs in its lowered name, brand and
   * description; shown products keep their catalog multiplicity.
   */
  lemma FilterProductsExact(catalog: seq<Product>, category: string, input: Option<string>, p: Product)
    ensures var search := NormalizedSearch(input);
      && (p in FilterProducts(catalog, category, input) <==>
            && p in catalog
            && (category == "" || p.category == category)
            && (search == "" || exists i :: OccursAt(SearchText(p), search, i)))
      && multiset(FilterProducts(catalog, category, input))[p] ==
           if p in FilterProducts(catalog, category, input) then multiset(catalog)[p] else 0
  {
    var search := NormalizedSearch(input);
    FilterCount(catalog, (p: Product) => MatchesFilters(p, category, search), p);
  }

  /** Shown products appear in catalog order: filtering distributes over splitting the catalog. */
  lemma FilterProductsOrder(front: seq<Product>, back: seq<Product>, category: string, input: Option<string>)
    ensures FilterProducts(front + back, category, input)
         == FilterProducts(front, category, input) + FilterProducts(back, category, input)
  {
    var search := NormalizedSearch(input);
    FilterAppend(front, back, (p: Product) => MatchesFilters(p, category, search));
  }

  /** With no category and no search text, the whole catalog is shown. */
  lemma NoFiltersShowAll(catalog: seq<Product>, input: Option<string>)
    requires input == None || input == Some("")
    ensures FilterProducts(catalog, "", input) == catalog
  {
    FilterKeepsAll(catalog, (p: Product) => MatchesFilters(p, "", ""));
  }

  /** Search ignores letter case: inputs that lower to the same text show the same products. */
  lemma SearchIgnoresCase(catalog: seq<Product>, category: string, a: string, b: string)
    requires Lower(a) == Lower(b)
    ensures FilterProducts(catalog, category, Some(a)) == FilterProducts(catalog, category, Some(b))
  {
    assert NormalizedSearch(Some(a)) == NormalizedSearch(Some(b)) by {
      TrimLowerCommute(a);
      TrimLowerCommute(b);
      assert a == "" <==> b == "";
    }
  }

  /** Whitespace around the search text is ignored. */
  lemma SearchIgnoresSurroundingSpace(catalog: seq<Product>, category: string, w1: string, a: string, w2: string)
    requires AllWhitespace(w1) && AllWhitespace(w2)
    ensures FilterProducts(catalog, category, Some(w1 + a + w2)) == FilterProducts(catalog, category, Some(a))
  {
    TrimSurrounded(w1, a, w2);
    assert Trim(w1 + [] + w2) == Trim([]) by {
      TrimSurrounded(w1, [], w2);
    }
    assert a == "" ==> w1 + a + w2 == w1 + [] + w2;
  }

  /** One card of the product grid: the product and whether it is marked `selected`. */
  datatype Card = Card(product: Product, selected: bool)

  /** The grid `renderProducts` writes: the "no products match" placeholder, or the cards. */
  datatype Grid = NoMatch | Cards(cards: seq<Card>)

  function RenderGrid(catalog: seq<Product>, category: string, input: Option<string>, selection: seq<string>): (g: Grid)
    ensures g == NoMatch <==> FilterProducts(catalog, category, input) == []
    ensures g.Cards? ==>
      var shown := FilterProducts(catalog, category, input);
      && |g.cards| == |shown|
      && forall i :: 0 <= i < |shown| ==>
           g.cards[i].product == shown[i] && (g.cards[i].selected <==> IdString(shown[i].id) in selection)
  {
    var shown := FilterProducts(catalog, category, input);
    if shown == [] then NoMatch
    else Cards(seq(|shown|, i requires 0 <= i < |shown| => Card(shown[i], IdString(shown[i].id) in selection)))
  }

  /** Toggling an id flips the mark of exactly the shown cards whose id string it is. */
  lemma ToggleFlipsItsCards(catalog: seq<Product>, category: string, input: Option<string>, selection: seq<string>, key: string)
    ensures var before := RenderGrid(catalog, category, input, selection);
      var after := RenderGrid(catalog, category, input, Toggled(selection, key));
      && (before.NoMatch? <==> after.NoMatch?)
      && (before.Cards? ==>
            && |after.cards| == |before.cards|
            && forall i :: 0 <= i < |before.cards| ==>
                 && after.cards[i].product == before.cards[i].product
                 && (after.cards[i].selected != before.cards[i].selected <==> IdString(before.cards[i].product.id) == key))
  {
  }

  /** Toggling an id twice draws the same grid as before. */
  lemma ToggleTwiceSameGrid(catalog: seq<Product>, category: string, input: Option<string>, selection: seq<string>, key: string)
    ensures RenderGrid(catalog, category, input, Toggled(Toggled(selection, key), key))
         == RenderGrid(catalog, category, input, selection)
  {
  }

  /** The catalog products whose id is in the selection, in catalog order, as `updateSelectedProductsList` and the generate-routine handler compute them. */
  function SelectedProducts(catalog: seq<Product>, selection: seq<string>): (r: seq<Product>)
    ensures |r| <= |catalog|
    ensures forall p :: p in r ==> p in catalog && IdString(p.id) in selection
  {
    Filter(catalog, (p: Product) => IdString(p.id) in selection)
  }

  /** A product is listed exactly when it is in the catalog and its id string is selected. */
  lemma SelectedProductsExact(catalog: seq<Product>, selection: seq<string>, p: Product)
    ensures p in SelectedProducts(catalog, selection) <==> p in catalog && IdString(p.id) in selection
  {
  }

  /** The list depends only on which ids are selected, not on the order they were picked in. */
  lemma SelectedProductsByMembership(catalog: seq<Product>, s1: seq<string>, s2: seq<string>)
    requires forall x :: x in s1 <==> x in s2
    ensures SelectedProducts(catalog, s1) == SelectedProducts(catalog, s2)
  {
    FilterCongruent(catalog, (p: Product) => IdString(p.id) in s1, (p: Product) => IdString(p.id) in s2);
  }

  /** Toggling an id twice lists the same selected products as before. */
  lemma ToggleTwiceSameSelectedList(catalog: seq<Product>, selection: seq<string>, key: string)
    ensures SelectedProducts(catalog, Toggled(Toggled(selection, key), key)) == SelectedProducts(catalog, selection)
  {
    forall y | true
      ensures y in Toggled(Toggled(selection, key), key) <==> y in selection
    {
      ToggleTwiceMembership(selection, key, y);
    }
    SelectedProductsByMembership(catalog, Toggled(Toggled(selection, key), key), selection);
  }

  /** Selected ids that name no catalog product are ignored. */
  lemma StaleIdsIgnored(catalog: seq<Product>, selection: seq<string>)
    ensures var known := Filter(selection, x => exists p :: p in catalog && IdString(p.id) == x);
      SelectedProducts(catalog, selection) == SelectedProducts(catalog, known)
  {
    var known := Filter(selection, x => exists p :: p in catalog && IdString(p.id) == x);
    FilterCongruent(catalog, (p: Product) => IdString(p.id) in selection, (p: Product) => IdString(p.id) in known);
  }

  /** What `updateSelectedProductsList` shows: the "no products selected" placeholder, or the items. */
  datatype SelectedList = NothingSelected | Items(products: seq<Product>)

  function RenderSelectedList(catalog: seq<Product>, selection: seq<string>): (v: SelectedList)
    ensures v == NothingSelected <==> forall p :: p in catalog ==> IdString(p.id) !in selection
    ensures v.Items? ==> v.products == SelectedProducts(catalog, selection)
  {
    var selected := SelectedProducts(catalog, selection);
    if selected == [] then NothingSelected
    else
      assert selected[0] in selected;
      Items(selected)
  }

  /** The fields of a selected product that go into the routine prompt. */
  datatype Summary = Summary(name: string, brand: string, category: string, description: Option<string>)

  function Summaries(products: seq<Product>): (r: seq<Summary>)
    ensures |r| == |products|
    ensures forall i :: 0 <= i < |r| ==>
      var p := products[i];
      r[i] == Summary(p.name, p.brand, p.category, p.description)
  {
    seq(|products|, i requires 0 <= i < |products| =>
      Summary(products[i].name, products[i].brand, products[i].category, products[i].description))
  }
}
