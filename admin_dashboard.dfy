/**
 * The admin dashboard page: the client-side guard that admits staff and
 * superusers only, the statistics load with its error handling, the
 * transformation of the statistics for display, and logout.
 */
module AdminDashboardPage {
  import opened Wrappers
  import opened Text
  import opened Entities
  import opened Http
  import opened Auth
  import opened Storage
  import opened Session
  import opened Api

  const AdminLoginPath := "/admin-login"
  const LoadFailedMessage := "Failed to load dashboard data. Please try again."

  /**
   * The guard of `checkAuthAndLoadData`: a logged-in session whose stored
   * user is an object flagged staff or superuser. A stored value that is not
   * an object has neither flag.
   */
  function Admitted(items: map<string, string>, codec: JsonCodec): (admit: bool)
    ensures admit <==>
              && IsLoggedIn(items, codec)
              && GetCurrentUser(items, codec).Record?
              && (GetCurrentUser(items, codec).user.isStaff || GetCurrentUser(items, codec).user.isSuperuser)
  {
    if !IsLoggedIn(items, codec) then false
    else
      var current := GetCurrentUser(items, codec);
      if !Truthy(current) then false
      else if !(current.Record? && current.user.isStaff) && !(current.Record? && current.user.isSuperuser) then false
      else true
  }

  /** After `logout` the guard refuses entry. */
  lemma LogoutRevokesAdmin(items: map<string, string>, codec: JsonCodec)
    ensures !Admitted(items - SessionKeys, codec)
  {
    LoggedOutAfterLogout(items, codec);
  }

  /**
   * With the API unreachable, the demo session the login fallback builds
   * passes the guard exactly when the identifier is `admin` in any letter case.
   */
  lemma OfflineLoginGuard(items: map<string, string>, codec: JsonCodec, identifier: string, outcome: Outcome<AuthResponse>)
    requires !outcome.Ok?
    requires RoundTrips(codec, Record(Login(Credentials(identifier, ""), outcome).user))
    ensures var r := Login(Credentials(identifier, ""), outcome);
            (Admitted(items[UserKey := codec.stringify(Record(r.user))][AccessTokenKey := r.tokens.access], codec)
             <==> IsAdminLogin(identifier))
  {
    var r := Login(Credentials(identifier, ""), outcome);
    assert r.tokens == MockTokens;
    LoggedInAfterPersist(items, codec, r.user, r.tokens.access);
  }

  /** An order of the recent-orders table, as the page keeps it. */
  datatype ShownOrder = ShownOrder(id: int, customerName: string, totalAmount: int, paymentStatus: string, createdAt: string)

  datatype ShownStats = ShownStats(
    totalOrders: int,
    pendingPayments: int,
    verifiedPayments: int,
    totalProducts: int,
    lowStockProducts: int,
    totalRevenue: int,
    recentOrders: seq<ShownOrder>)

  /** `recent_orders.map(...)`: one row per order, in order, keeping the five displayed fields. */
  function ShowOrders(orders: seq<RecentOrder>): (rows: seq<ShownOrder>)
    ensures |rows| == |orders|
    ensures forall i :: 0 <= i < |orders| ==>
              && rows[i].id == orders[i].id && rows[i].customerName == orders[i].customerName
              && rows[i].totalAmount == orders[i].totalAmount && rows[i].paymentStatus == orders[i].paymentStatus
              && rows[i].createdAt == orders[i].createdAt
  {
    if orders == [] then []
    else
      var o := orders[0];
      [ShownOrder(o.id, o.customerName, o.totalAmount, o.paymentStatus, o.createdAt)] + ShowOrders(orders[1..])
  }

  /** The displayed rows of two order lists placed end to end are the two tables placed end to end. */
  lemma {:induction false} ShowOrdersAppend(xs: seq<RecentOrder>, ys: seq<RecentOrder>)
    ensures ShowOrders(xs + ys) == ShowOrders(xs) + ShowOrders(ys)
  {
    if xs == [] {
      assert xs + ys == ys;
    } else {
      assert (xs + ys)[1..] == xs[1..] + ys;
      ShowOrdersAppend(xs[1..], ys);
    }
  }

  /** The `setStats` argument: every figure copied, the orders reduced to displayed rows. */
  function Show(d: DashboardStats): (s: ShownStats)
    ensures s.totalOrders == d.totalOrders && s.pendingPayments == d.pendingPayments
    ensures s.verifiedPayments == d.verifiedPayments && s.totalProducts == d.totalProducts
    ensures s.lowStockProducts == d.lowStockProducts && s.totalRevenue == d.totalRevenue
    ensures s.recentOrders == ShowOrders(d.recentOrders)
  {
    ShownStats(d.totalOrders, d.pendingPayments, d.verifiedPayments, d.totalProducts,
               d.lowStockProducts, d.totalRevenue, ShowOrders(d.recentOrders))
  }

  /** "Healthy Stock": the products that are not low on stock. */
  function HealthyStock(s: ShownStats): (n: int)
    ensures n + s.lowStockProducts == s.totalProducts
  {
    s.totalProducts - s.lowStockProducts
  }

  /** "Pending Amount": a flat 500 rupees per pending payment. */
  function PendingAmount(s: ShownStats): (amount: int)
    ensures amount == 500 * s.pendingPayments
  {
    s.pendingPayments * 500
  }

  /** Each further pending payment adds exactly 500 rupees to the pending amount. */
  lemma PendingAmountPerPayment(s: ShownStats, t: ShownStats)
    requires t.pendingPayments == s.pendingPayments + 1
    ensures PendingAmount(t) == PendingAmount(s) + 500
  {
  }

  /** With the fallback figures the page shows 6 healthy products and a pending amount of 6000. */
  lemma MockFigures()
    ensures HealthyStock(Show(MockStats)) == 6 && PendingAmount(Show(MockStats)) == 6000
    ensures |Show(MockStats).recentOrders| == 3
  {
  }

  /**
   * What the statistics load produces: the statistics object, or the
   * message of an error raised on the way (a body without `recent_orders`,
   * say).
   */
  datatype StatsLoad = Loaded(stats: DashboardStats) | Thrown(message: string)

  /** An error whose message mentions 401 or 403 is read as a lost session. */
  function RedirectsOnError(message: string): (r: bool)
    ensures r <==> (exists i :: OccursAt(message, "401", i)) || (exists i :: OccursAt(message, "403", i))
  {
    Contains(message, "401") || Contains(message, "403")
  }

  class AdminDashboardPage {
    var stats: Option<ShownStats>
    var loading: bool
    var error: Option<string>
    /** The `router.push` targets, in order. */
    var navigation: seq<string>

    constructor ()
      ensures stats == None && loading && error == None && navigation == []
    {
      stats := None;
      loading := true;
      error := None;
      navigation := [];
    }

    /** `checkAuthAndLoadData`: the guard, then the statistics load. */
    method CheckAuthAndLoadData(store: LocalStorage, codec: JsonCodec, load: StatsLoad)
      modifies this`stats, this`loading, this`error, this`navigation
      ensures !Admitted(store.items, codec) ==>
                && navigation == old(navigation) + [AdminLoginPath]
                && stats == old(stats) && loading == old(loading) && error == old(error)
      ensures Admitted(store.items, codec) && load.Loaded? ==>
                stats == Some(Show(load.stats)) && error == None && navigation == old(navigation) && !loading
      ensures Admitted(store.items, codec) && load.Thrown? ==>
                && stats == old(stats) && !loading
                && (RedirectsOnError(load.message) ==> navigation == old(navigation) + [AdminLoginPath] && error == None)
                && (!RedirectsOnError(load.message) ==> navigation == old(navigation) && error == Some(LoadFailedMessage))
    {
      if !Admitted(store.items, codec) {
        navigation := navigation + [AdminLoginPath];
        return;
      }
      LoadDashboardStats(load);
    }

    /**
     * `loadDashboardStats`: shows the transformed statistics; an error that
     * mentions 401 or 403 sends the admin to the login page, any other error
     * shows the fixed failure message.
     */
    method LoadDashboardStats(load: StatsLoad)
      modifies this`stats, this`loading, this`error, this`navigation
      ensures !loading
      ensures load.Loaded? ==> stats == Some(Show(load.stats)) && error == None && navigation == old(navigation)
      ensures load.Thrown? ==> stats == old(stats)
      ensures load.Thrown? && RedirectsOnError(load.message) ==>
                navigation == old(navigation) + [AdminLoginPath] && error == None
      ensures load.Thrown? && !RedirectsOnError(load.message) ==>
                navigation == old(navigation) && error == Some(LoadFailedMessage)
    {
      loading := true;
      error := None;
      match load {
        case Loaded(d) =>
          stats := Some(Show(d));
        case Thrown(message) =>
          if message != "" && (Contains(message, "401") || Contains(message, "403")) {
            navigation := navigation + [AdminLoginPath];
          } else {
            error := Some(LoadFailedMessage);
          }
      }
      loading := false;
    }

    /** `handleLogout`: `ApiService.logout()`, then the admin login page. */
    method HandleLogout(store: LocalStorage)
      modifies store, this`navigation
      ensures store.items == old(store.items) - SessionKeys
      ensures navigation == old(navigation) + [AdminLoginPath]
    {
      Logout(store);
      navigation := navigation + [AdminLoginPath];
    }
  }

  /**
   * A 401 or 403 from the statistics endpoint never reaches the page's
   * redirect: `getAdminDashboardStats` replaces it with the fallback
   * figures, which the admin then sees.
   */
  method RejectedStatsScenario(token: Option<string>, status: int, body: ErrorBody)
    returns (shown: Option<ShownStats>, navigation: seq<string>, error: Option<string>)
    ensures shown == Some(Show(MockStats)) && navigation == [] && error == None
  {
    var page := new AdminDashboardPage();
    page.LoadDashboardStats(Loaded(GetAdminDashboardStats(token, HttpError(status, body))));
    shown, navigation, error := page.stats, page.navigation, page.error;
  }
}
