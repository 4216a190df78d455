/**
 * The home page's logic: the banner carousel's index arithmetic, the
 * category grid (twelve fixed entries, then up to four from the API), the
 * category filter passed to `getProducts`, and which product section shows.
 */
module HomePage {
  import opened Wrappers
  import opened Text
  import opened Entities
  import opened Catalog

  /** `bannerSlides.length` */
  const SlideCount := 3

  /** JavaScript's `a % n` for `n > 0`: the remainder takes the sign of `a`. */
  function JsRemainder(a: int, n: int): (r: int)
    requires n > 0
    ensures a >= 0 ==> 0 <= r < n
    ensures a < 0 ==> -n < r <= 0
    ensures 0 <= a < n ==> r == a
    ensures n <= a < 2 * n ==> r == a - n
  {
    RemainderInRange(a, n);
    if a >= 0 then a % n else -((-a) % n)
  }

  /** Dafny's `%` on an operand less than twice the divisor. */
  lemma RemainderInRange(a: int, n: int)
    requires n > 0
    ensures 0 <= a < n ==> a % n == a
    ensures n <= a < 2 * n ==> a % n == a - n
  {
    if 0 <= a < 2 * n {
      var q, r := a / n, a % n;
      assert a == q * n + r;
    }
  }

  /** `(prev + 1) % n`, the auto-advance and the right arrow. */
  function NextSlide(prev: int, n: int): (next: int)
    requires n > 0
    ensures 0 <= prev < n ==> 0 <= next < n
    ensures 0 <= prev < n - 1 ==> next == prev + 1
    ensures prev == n - 1 ==> next == 0
  {
    JsRemainder(prev + 1, n)
  }

  /** `(prev - 1 + n) % n`, the left arrow. */
  function PrevSlide(prev: int, n: int): (p: int)
    requires n > 0
    ensures 0 <= prev < n ==> 0 <= p < n
    ensures 0 < prev < n ==> p == prev - 1
    ensures prev == 0 ==> p == n - 1
  {
    JsRemainder(prev - 1 + n, n)
  }

  /** On a valid index the two arrows undo each other. */
  lemma SlidesAreInverse(i: int, n: int)
    requires n > 0 && 0 <= i < n
    ensures PrevSlide(NextSlide(i, n), n) == i
    ensures NextSlide(PrevSlide(i, n), n) == i
  {
  }

  /** The slide shown after `k` auto-advances from slide `i`. */
  function Advance(i: int, n: int, k: nat): (j: int)
    requires n > 0
    ensures 0 <= i < n ==> 0 <= j < n
  {
    if k == 0 then i else NextSlide(Advance(i, n, k - 1), n)
  }

  /** Up to `n` advances from a valid slide move `k` slides on, wrapping past the last one. */
  lemma {:induction false} AdvanceWraps(i: int, n: int, k: nat)
    requires n > 0 && 0 <= i < n && k <= n
    ensures Advance(i, n, k) == if i + k < n then i + k else i + k - n
  {
    if k > 0 {
      AdvanceWraps(i, n, k - 1);
    }
  }

  /** The auto-advance is back at its slide after `n` steps, and reaches every slide `j` before that. */
  lemma CarouselCycles(i: int, j: int, n: int)
    requires n > 0 && 0 <= i < n && 0 <= j < n
    ensures Advance(i, n, n) == i
    ensures Advance(i, n, if j >= i then j - i else j - i + n) == j
  {
    AdvanceWraps(i, n, n);
    AdvanceWraps(i, n, if j >= i then j - i else j - i + n);
  }

  /** A card of the category grid; `id` is `None` for the fixed entries. */
  datatype GridEntry = GridEntry(name: string, icon: string, id: Option<int>)

  /** The twelve fixed cards, in order. */
  const StaticCategories: seq<GridEntry> := [
    GridEntry("Electronics", "📱", None),
    GridEntry("Books", "📚", None),
    GridEntry("Gifts", "🎁", None),
    GridEntry("Photos", "📸", None),
    GridEntry("Accessories", "💍", None),
    GridEntry("Home Decor", "🏠", None),
    GridEntry("Fashion", "👕", None),
    GridEntry("Sports", "⚽", None),
    GridEntry("Beauty", "💄", None),
    GridEntry("Toys", "🧸", None),
    GridEntry("Groceries", "🛒", None),
    GridEntry("Stationery", "✏️", None)
  ]

  const ApiCategoryIcon := "📦"

  /** `categories.slice(0, 4).map(cat => ({...cat, icon: '📦', ...}))` */
  function ApiEntries(categories: seq<Category>): (entries: seq<GridEntry>)
    ensures |entries| == if |categories| < 4 then |categories| else 4
    ensures forall i :: 0 <= i < |entries| ==>
              entries[i] == GridEntry(categories[i].name, ApiCategoryIcon, Some(categories[i].id))
  {
    var shown := if |categories| < 4 then categories else categories[..4];
    seq(|shown|, i requires 0 <= i < |shown| => GridEntry(shown[i].name, ApiCategoryIcon, Some(shown[i].id)))
  }

  /** `[...staticCategories, ...apiCategories]` */
  function CategoryGrid(categories: seq<Category>): (grid: seq<GridEntry>)
    ensures |grid| == 12 + (if |categories| < 4 then |categories| else 4)
    ensures grid[..12] == StaticCategories
    ensures forall i :: 12 <= i < |grid| ==>
              grid[i].name == categories[i - 12].name && grid[i].id == Some(categories[i - 12].id)
  {
    StaticCategories + ApiEntries(categories)
  }

  /** A fifth API category and later ones never reach the grid. */
  lemma GridIgnoresLaterCategories(categories: seq<Category>, more: seq<Category>)
    requires |categories| >= 4
    ensures CategoryGrid(categories + more) == CategoryGrid(categories)
  {
    assert (categories + more)[..4] == categories[..4];
  }

  /** Offline, the grid ends with the four seed categories, three of them repeating a fixed card's name. */
  lemma OfflineGrid()
    ensures |CategoryGrid(SeedCategories)| == 16
    ensures CategoryGrid(SeedCategories)[12].name == StaticCategories[0].name == "Electronics"
    ensures CategoryGrid(SeedCategories)[15].name == "Home & Kitchen"
  {
  }

  /** `selectedCategory || undefined`: `null` and 0 both mean no filter. */
  function ProductsFilter(selected: Option<int>): (filter: Option<int>)
    ensures filter.Some? <==> Filters(selected)
    ensures filter.Some? ==> filter == selected
  {
    if selected.Some? && selected.value != 0 then selected else None
  }

  /**
   * The page's `|| undefined` changes nothing downstream: the request uses
   * the same cache entry and, offline, the same seed products.
   */
  lemma ProductsFilterAgreesWithApi(selected: Option<int>)
    ensures ProductsCacheKey(ProductsFilter(selected)) == ProductsCacheKey(selected)
    ensures FallbackProducts(ProductsFilter(selected)) == FallbackProducts(selected)
  {
  }

  /** "View All Products": the selection becomes `null`, which requests the unfiltered list. */
  function ViewAll(selected: Option<int>): (next: Option<int>)
    ensures next == None
    ensures ProductsCacheKey(ProductsFilter(next)) == AllProductsKey
  {
    None
  }

  /** The section under the heading: a spinner, the fixed showcase, or the API products. */
  datatype ProductSection = Spinner | Showcase | ProductGrid(products: seq<Product>)

  function ProductSectionFor(isLoadingProducts: bool, products: seq<Product>): (s: ProductSection)
    ensures isLoadingProducts ==> s == Spinner
    ensures !isLoadingProducts && products == [] ==> s == Showcase
    ensures !isLoadingProducts && products != [] ==> s == ProductGrid(products)
  {
    if isLoadingProducts then Spinner
    else if |products| == 0 then Showcase
    else ProductGrid(products)
  }

  /** `categories.find(c => c.id === id)` */
  function FindCategory(categories: seq<Category>, id: int): (r: Option<Category>)
    ensures r.Some? ==> exists i :: 0 <= i < |categories| && categories[i] == r.value && r.value.id == id &&
                          forall j :: 0 <= j < i ==> categories[j].id != id
    ensures r.None? ==> forall c :: c in categories ==> c.id != id
  {
    if categories == [] then None
    else if categories[0].id == id then Some(categories[0])
    else FindCategory(categories[1..], id)
  }

  /**
   * The products heading: the selected category's name, `undefined` when it
   * is not among the loaded categories, or "Featured Products" with no selection.
   */
  function ProductsHeading(categories: seq<Category>, selected: Option<int>): (h: string)
    ensures !Filters(selected) ==> h == "Featured Products"
    ensures Filters(selected) && FindCategory(categories, selected.value).Some? ==>
              h == FindCategory(categories, selected.value).value.name + " Products"
    ensures Filters(selected) && FindCategory(categories, selected.value).None? ==> h == "undefined Products"
  {
    if !Filters(selected) then "Featured Products"
    else
      match FindCategory(categories, selected.value)
      case Some(c) => c.name + " Products"
      case None => "undefined Products"
  }
}
