/**
 * `ApiService`'s response cache and the catalog reads that go through it:
 * a process-wide map from cache key to (data, timestamp) with a fixed
 * five-minute time-to-live, read by `getCategories` and `getProducts`, and
 * written with the server's answer or, when the request fails, with seed
 * data. Also the admin statistics read, which falls back to fixed figures.
 */
module Api {
  import opened Wrappers
  import opened Entities
  import opened Http
  import opened Catalog

  /** `CACHE_DURATION`: five minutes, in milliseconds. */
  const CacheDuration := 5 * 60 * 1000

  datatype CacheEntry = CacheEntry(data: Data, timestamp: int)

  /** `getCachedData` finds the entry for `key` at time `now` younger than the time-to-live. */
  predicate Fresh(cache: map<string, CacheEntry>, key: string, now: int) {
    key in cache && now - cache[key].timestamp < CacheDuration
  }

  /** A read short-circuits: the entry is fresh and its data is truthy. */
  predicate Hit(cache: map<string, CacheEntry>, key: string, now: int) {
    Fresh(cache, key, now) && IsTruthy(cache[key].data)
  }

  /** An entry written at `written` is served exactly while less than five minutes have passed. */
  lemma EntryLifetime(cache: map<string, CacheEntry>, key: string, data: Data, written: int, now: int)
    ensures Fresh(cache[key := CacheEntry(data, written)], key, now) <==> now - written < 300000
  {
  }

  class ApiService {
    /** `ApiService.cache` */
    var cache: map<string, CacheEntry>

    constructor ()
      ensures cache == map[]
    {
      cache := map[];
    }

    /** `getCachedData(key)` at time `now`: the stored data while fresh, otherwise `undefined`. */
    method GetCachedData(key: string, now: int) returns (r: Option<Data>)
      ensures r.Some? <==> Fresh(cache, key, now)
      ensures r.Some? ==> r.value == cache[key].data
    {
      if key in cache && now - cache[key].timestamp < CacheDuration {
        r := Some(cache[key].data);
      } else {
        r := None;
      }
    }

    /** `setCachedData(key, data)` at time `now`: replaces that key's entry, and no other. */
    method SetCachedData(key: string, data: Data, now: int)
      modifies this
      ensures cache == old(cache)[key := CacheEntry(data, now)]
      ensures forall k :: k != key ==> (k in cache <==> k in old(cache)) && (k in cache ==> cache[k] == old(cache)[k])
    {
      cache := cache[key := CacheEntry(data, now)];
    }

    /**
     * `getCategories()` looking the cache up at time `now`, the request
     * answering `outcome`: a hit returns the cached list and fetches nothing;
     * otherwise the server's answer, or on any failure the four seed
     * categories, is cached and returned. `setCachedData` reads the clock
     * again once the request has settled, at time `written`.
     */
    method GetCategories(now: int, outcome: Outcome<Data>, written: int) returns (r: Data)
      requires now <= written
      modifies this
      ensures old(Hit(cache, CategoriesKey, now)) ==> r == old(cache)[CategoriesKey].data && cache == old(cache)
      ensures !old(Hit(cache, CategoriesKey, now)) ==>
                && r == (if outcome.Ok? then outcome.value else CategoryList(SeedCategories))
                && cache == old(cache)[CategoriesKey := CacheEntry(r, written)]
    {
      var cached := GetCachedData(CategoriesKey, now);
      if cached.Some? && IsTruthy(cached.value) {
        return cached.value;
      }
      if outcome.Ok? {
        r := outcome.value;
      } else {
        r := CategoryList(SeedCategories);
      }
      SetCachedData(CategoriesKey, r, written);
    }

    /**
     * `getProducts(categoryId)`, looking up at time `now` and writing at time
     * `written`: the same read-through under the key
     * `ProductsCacheKey(categoryId)`; on failure the seed products of that
     * category (all eight when there is no filter) are cached and returned.
     */
    method GetProducts(categoryId: Option<int>, now: int, outcome: Outcome<Data>, written: int) returns (r: Data)
      requires now <= written
      modifies this
      ensures old(Hit(cache, ProductsCacheKey(categoryId), now)) ==>
                r == old(cache)[ProductsCacheKey(categoryId)].data && cache == old(cache)
      ensures !old(Hit(cache, ProductsCacheKey(categoryId), now)) ==>
                && r == (if outcome.Ok? then outcome.value else ProductList(FallbackProducts(categoryId)))
                && cache == old(cache)[ProductsCacheKey(categoryId) := CacheEntry(r, written)]
    {
      var key := ProductsCacheKey(categoryId);
      var cached := GetCachedData(key, now);
      if cached.Some? && IsTruthy(cached.value) {
        return cached.value;
      }
      if outcome.Ok? {
        r := outcome.value;
      } else {
        r := ProductList(FallbackProducts(categoryId));
      }
      SetCachedData(key, r, written);
    }
  }

  /** A set value is served one millisecond before the time-to-live and is gone at it. */
  method TimeToLiveScenario(key: string, data: Data, written: int) returns (before: Option<Data>, at: Option<Data>)
    ensures before == Some(data)
    ensures at == None
  {
    var api := new ApiService();
    api.SetCachedData(key, data, written);
    before := api.GetCachedData(key, written + CacheDuration - 1);
    at := api.GetCachedData(key, written + CacheDuration);
  }

  /**
   * The entry is stamped when the request settles, not when the lookup ran:
   * a lookup at 0 whose request fails at 30000 still serves the seed
   * categories at 310000, more than five minutes after the lookup.
   */
  method LateWriteScenario() returns (served: Option<Data>)
    ensures served == Some(CategoryList(SeedCategories))
  {
    var api := new ApiService();
    var _ := api.GetCategories(0, NetworkError("Failed to fetch"), 30000);
    served := api.GetCachedData(CategoriesKey, 310000);
  }

  /** The offline Electronics listing is products 1, 2 and 6, in that order. */
  lemma ElectronicsFallback()
    ensures Ids(FilterByCategory(SeedProducts, 1)) == [1, 2, 6]
  {
  }

  /**
   * With the API unreachable and an empty cache: the four seed categories,
   * the eight seed products, then the three Electronics products.
   */
  method OfflineScenario(now: int) returns (categories: Data, all: Data, electronics: Data)
    ensures categories == CategoryList(SeedCategories) && |categories.categories| == 4
    ensures all.ProductList? && |all.products| == 8
    ensures electronics.ProductList? && Ids(electronics.products) == [1, 2, 6]
  {
    var offline := NetworkError("Failed to fetch");
    var api := new ApiService();
    categories := api.GetCategories(now, offline, now);
    all := api.GetProducts(None, now, offline, now);
    ProductsCacheKeysDistinct(Some(1), Some(2));
    electronics := api.GetProducts(Some(1), now, offline, now);
    assert electronics.products == FilterByCategory(SeedProducts, 1);
    ElectronicsFallback();
  }

  /** An order as the dashboard statistics list it. */
  datatype RecentOrder = RecentOrder(
    id: int,
    customerName: string,
    totalAmount: int,
    orderStatus: string,
    paymentStatus: string,
    createdAt: string)

  datatype DashboardStats = DashboardStats(
    totalOrders: int,
    pendingPayments: int,
    verifiedPayments: int,
    totalProducts: int,
    lowStockProducts: int,
    totalRevenue: int,
    recentOrders: seq<RecentOrder>)

  /** The figures `getAdminDashboardStats` substitutes when its request fails. */
  const MockStats := DashboardStats(47, 12, 35, 8, 2, 125000, [
    RecentOrder(1001, "Rajesh Kumar", 1250, "payment_verified", "verified", "2024-01-15T10:30:00Z"),
    RecentOrder(1002, "Priya Sharma", 850, "pending_payment", "pending", "2024-01-14T14:20:00Z"),
    RecentOrder(1003, "Amit Singh", 650, "payment_verified", "verified", "2024-01-13T09:15:00Z")
  ])

  /**
   * `getAdminDashboardStats()`: an authenticated read of the statistics
   * whose failures (a non-2xx status, a failed `fetch`) are replaced by
   * `MockStats`. A 2xx body that is not JSON would reject past the catch,
   * because `response.json()` is returned without `await`; `outcome` has no
   * such case, so the model does not produce that rejection.
   */
  function GetAdminDashboardStats(token: Option<string>, outcome: Outcome<DashboardStats>): (s: DashboardStats)
    ensures outcome.Ok? ==> s == outcome.value
    ensures !outcome.Ok? ==> s == MockStats
  {
    var sent := Authenticated(token, outcome, "Failed to fetch dashboard stats");
    if sent.result.Success? then sent.result.value else MockStats
  }
}
