/**
 * The catalog reads' pure parts: the seed data substituted when the API is
 * unreachable, the cache key a read uses, the category filter of the seed
 * products, and `getProduct`, which never touches the cache.
 */
module Catalog {
  import opened Wrappers
  import opened Text
  import opened Entities
  import opened Http

  /** A response body as the catalog reads see it: `null`, another falsy value, or a list. */
  datatype Data = NullValue | FalsyValue | CategoryList(categories: seq<Category>) | ProductList(products: seq<Product>)

  predicate IsTruthy(d: Data) {
    d.CategoryList? || d.ProductList?
  }

  /** The four categories `getCategories` substitutes. */
  const SeedCategories: seq<Category> := [
    Category(1, "Electronics", "Latest smartphones, laptops, and gadgets"),
    Category(2, "Books", "Educational and entertainment books"),
    Category(3, "Fashion", "Clothing and accessories for all ages"),
    Category(4, "Home & Kitchen", "Everything for your home and kitchen")
  ]

  /** The eight products `getProducts` substitutes (before filtering). */
  const SeedProducts: seq<Product> := [
    Product(1, "Samsung Galaxy M14 5G", 14999, 1, "Electronics"),
    Product(2, "Dell Inspiron Laptop", 45999, 1, "Electronics"),
    Product(3, "Python Programming Book", 599, 2, "Books"),
    Product(4, "Cotton T-Shirt", 299, 3, "Fashion"),
    Product(5, "Stainless Steel Water Bottle", 399, 4, "Home & Kitchen"),
    Product(6, "Wireless Bluetooth Headphones", 2499, 1, "Electronics"),
    Product(7, "JavaScript Guide Book", 799, 2, "Books"),
    Product(8, "Non-Stick Cookware Set", 1999, 4, "Home & Kitchen")
  ]

  /** The shorter list `getProduct` searches: a copy of the first three seed products. */
  const SingleProductSeed: seq<Product> := [
    Product(1, "Samsung Galaxy M14 5G", 14999, 1, "Electronics"),
    Product(2, "Dell Inspiron Laptop", 45999, 1, "Electronics"),
    Product(3, "Python Programming Book", 599, 2, "Books")
  ]

  const CategoriesKey := "categories"
  const AllProductsKey := "products_all"
  const CategoryKeyPrefix := "products_category_"

  /** `categoryId` is truthy: given and not 0. */
  predicate Filters(categoryId: Option<int>) {
    categoryId.Some? && categoryId.value != 0
  }

  /** The cache key `getProducts(categoryId)` uses. */
  function ProductsCacheKey(categoryId: Option<int>): (key: string)
    ensures key == AllProductsKey <==> !Filters(categoryId)
    ensures Filters(categoryId) ==> |key| > |CategoryKeyPrefix| && key[..|CategoryKeyPrefix|] == CategoryKeyPrefix
  {
    if Filters(categoryId) then CategoryKeyPrefix + IntToString(categoryId.value) else AllProductsKey
  }

  /**
   * Two different category filters never share a cache entry, no filter shares
   * one with the unfiltered list, and none with the categories.
   */
  lemma ProductsCacheKeysDistinct(a: Option<int>, b: Option<int>)
    requires Filters(a) && Filters(b) && a.value != b.value
    ensures ProductsCacheKey(a) != ProductsCacheKey(b)
    ensures ProductsCacheKey(a) != AllProductsKey && ProductsCacheKey(a) != CategoriesKey
  {
    var pa, pb := IntToString(a.value), IntToString(b.value);
    IntToStringInjective(a.value, b.value);
    assert (CategoryKeyPrefix + pa)[|CategoryKeyPrefix|..] == pa;
    assert (CategoryKeyPrefix + pb)[|CategoryKeyPrefix|..] == pb;
    assert |ProductsCacheKey(a)| > |AllProductsKey| > |CategoriesKey|;
  }

  /** Category 0 is no filter: it reads the unfiltered list's entry. */
  lemma CategoryZeroIsUnfiltered()
    ensures ProductsCacheKey(Some(0)) == ProductsCacheKey(None) == AllProductsKey
  {
  }

  /** `products.filter(p => p.category === c)` */
  function FilterByCategory(products: seq<Product>, c: int): (r: seq<Product>)
    ensures |r| <= |products|
  {
    if products == [] then []
    else if products[0].category == c then [products[0]] + FilterByCategory(products[1..], c)
    else FilterByCategory(products[1..], c)
  }

  /** The filter keeps exactly the products of category `c`. */
  lemma {:induction false} FilterByCategoryMembers(products: seq<Product>, c: int)
    ensures forall p :: p in FilterByCategory(products, c) <==> p in products && p.category == c
  {
    if products != [] {
      FilterByCategoryMembers(products[1..], c);
      assert products == [products[0]] + products[1..];
    }
  }

  /** Filtering keeps the order of the list: it distributes over concatenation. */
  lemma {:induction false} FilterKeepsOrder(xs: seq<Product>, ys: seq<Product>, c: int)
    ensures FilterByCategory(xs + ys, c) == FilterByCategory(xs, c) + FilterByCategory(ys, c)
  {
    if xs != [] {
      assert (xs + ys)[1..] == xs[1..] + ys;
      FilterKeepsOrder(xs[1..], ys, c);
    } else {
      assert xs + ys == ys;
    }
  }

  /** The product list `getProducts(categoryId)` substitutes when the request fails. */
  function FallbackProducts(categoryId: Option<int>): (r: seq<Product>)
    ensures Filters(categoryId) ==> forall p :: p in r ==> p.category == categoryId.value
    ensures Filters(categoryId) ==> forall p :: p in SeedProducts && p.category == categoryId.value ==> p in r
    ensures !Filters(categoryId) ==> r == SeedProducts
  {
    if Filters(categoryId) then
      FilterByCategoryMembers(SeedProducts, categoryId.value);
      FilterByCategory(SeedProducts, categoryId.value)
    else
      SeedProducts
  }

  function Ids(products: seq<Product>): (ids: seq<int>)
    ensures |ids| == |products|
    ensures forall i :: 0 <= i < |products| ==> ids[i] == products[i].id
  {
    if products == [] then [] else [products[0].id] + Ids(products[1..])
  }

  /** `products.find(p => p.id === id)`: the first product with that id. */
  function FindProduct(products: seq<Product>, id: int): (r: Option<Product>)
    ensures r.Some? ==> exists i :: 0 <= i < |products| && products[i] == r.value && r.value.id == id &&
                          forall j :: 0 <= j < i ==> products[j].id != id
    ensures r.None? ==> forall p :: p in products ==> p.id != id
  {
    if products == [] then None
    else if products[0].id == id then Some(products[0])
    else FindProduct(products[1..], id)
  }

  /**
   * `getProduct(id)`: the server's product, or on any failure the matching
   * product of the short seed, or else the error "Product not found".
   */
  function GetProduct(id: int, outcome: Outcome<Product>): (r: Result<Product, ApiError>)
    ensures outcome.Ok? ==> r == Success(outcome.value)
    ensures !outcome.Ok? && r.Success? ==> r.value in SingleProductSeed && r.value.id == id
    ensures !outcome.Ok? && r.Failure? ==> r.error.message == "Product not found"
  {
    match outcome
    case Ok(p) => Success(p)
    case _ =>
      match FindProduct(SingleProductSeed, id)
      case Some(p) => Success(p)
      case None => Failure(ApiError("Product not found"))
  }

  /**
   * Offline, only ids 1 to 3 are found one at a time, although ids 4 to 8 are
   * listed by the offline `getProducts`.
   */
  lemma SingleProductFallbackIds(id: int, outcome: Outcome<Product>)
    requires !outcome.Ok?
    ensures GetProduct(id, outcome).Success? <==> 1 <= id <= 3
    ensures 4 <= id <= 8 ==> exists p :: p in FallbackProducts(None) && p.id == id
  {
    if 1 <= id <= 3 {
      assert SingleProductSeed[id - 1].id == id;
    }
    if 4 <= id <= 8 {
      assert SeedProducts[id - 1].id == id;
    }
  }
}
