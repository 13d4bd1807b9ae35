/** The dashboard statistics of `getDashboardStats` in
    `src/services/admin.service.js`: once the four listings have arrived,
    the counters, the revenue over orders that were not cancelled and the
    five most recent orders; any failure gives all-zero statistics. */
module AdminStats {
  import opened Common
  import opened Text

  /** An order as the listing returns it. Amounts are integer cents, 0 for
      a missing field (both are falsy); `userName` is `user?.name`. */
  datatype StatsOrder = StatsOrder(
    id: string,
    userName: Option<string>,
    totalAmount: int,
    total: int,
    status: string,
    createdAt: string)

  /** One row of `recentOrders`. */
  datatype RecentOrder = RecentOrder(id: string, customer: string, total: int, status: string, date: string)

  datatype DashboardStats = DashboardStats(
    totalProducts: int,
    totalCategories: nat,
    totalCustomers: int,
    totalOrders: nat,
    pendingOrders: nat,
    revenue: int,
    recentOrders: seq<RecentOrder>)

  /** A paged listing body: its `total` (0 when absent) and the length of
      its item array, if it has one. */
  datatype Listing = Listing(total: int, itemCount: Option<nat>)

  /** The categories body: an array, or something else. */
  datatype CategoriesBody = CategoryArray(count: nat) | NotAnArray

  /** The orders body: an object whose `orders` field may be missing, or a
      bare array. */
  datatype OrdersBody = OrdersObject(orders: Option<seq<StatsOrder>>) | OrdersArray(list: seq<StatsOrder>)

  /** What the four parallel requests produced. */
  datatype Fetches =
    | Fetched(products: Listing, categories: CategoriesBody, users: Listing, orders: OrdersBody)
    | FetchFailed

  const PendingStatus := "pending"
  const CancelledStatus := "cancelled"
  const DefaultCustomer := "Cliente"
  const RecentLimit := 5

  /** The values the error path returns. */
  const ZeroStats := DashboardStats(0, 0, 0, 0, 0, 0, [])

  /** `x.total || x.items?.length || 0`. */
  function ListingTotal(l: Listing): (n: int)
    ensures l.total != 0 ==> n == l.total
    ensures l.total == 0 ==> n == l.itemCount.GetOr(0)
  {
    if l.total != 0 then l.total else l.itemCount.GetOr(0)
  }

  /** `order.totalAmount || order.total || 0`. */
  function OrderAmount(o: StatsOrder): (n: int)
    ensures o.totalAmount != 0 ==> n == o.totalAmount
    ensures o.totalAmount == 0 ==> n == o.total
  {
    if o.totalAmount != 0 then o.totalAmount else o.total
  }

  predicate IsPending(o: StatsOrder) { o.status == PendingStatus }

  predicate NotCancelled(o: StatsOrder) { o.status != CancelledStatus }

  /** `ordersList.filter(o => o.status === 'pending').length`. */
  function PendingOrders(list: seq<StatsOrder>): (n: nat)
    ensures n <= |list|
    ensures n == Count(IsPending, list)
  {
    FilterLengthIsCount(IsPending, list);
    |Filter(IsPending, list)|
  }

  /** The revenue: the amounts of the orders not cancelled, added up left to
      right as `reduce` does. */
  function Revenue(list: seq<StatsOrder>): (n: int)
    ensures n == SumOf(OrderAmount, Filter(NotCancelled, list))
  {
    FoldSumIsSum(OrderAmount, 0, Filter(NotCancelled, list));
    FoldSum(OrderAmount, 0, Filter(NotCancelled, list))
  }

  /** A cancelled order contributes nothing: the amount it would add. */
  function CountedAmount(o: StatsOrder): int {
    if NotCancelled(o) then OrderAmount(o) else 0
  }

  /** The revenue equals the sum over all orders with cancelled ones
      counted as zero. */
  lemma {:induction false} RevenueIsMaskedSum(list: seq<StatsOrder>)
    ensures Revenue(list) == SumOf(CountedAmount, list)
  {
    if list != [] {
      RevenueIsMaskedSum(list[1..]);
    }
  }

  /** Appending a cancelled order leaves the revenue unchanged; appending
      any other adds its amount. */
  lemma RevenueAppend(list: seq<StatsOrder>, o: StatsOrder)
    ensures NotCancelled(o) ==> Revenue(list + [o]) == Revenue(list) + OrderAmount(o)
    ensures !NotCancelled(o) ==> Revenue(list + [o]) == Revenue(list)
  {
    RevenueIsMaskedSum(list + [o]);
    RevenueIsMaskedSum(list);
    SumOfAppend(CountedAmount, list, [o]);
  }

  /** With non-negative amounts the revenue is non-negative. */
  lemma RevenueNonNegative(list: seq<StatsOrder>)
    requires forall i :: 0 <= i < |list| ==> OrderAmount(list[i]) >= 0
    ensures Revenue(list) >= 0
  {
    RevenueIsMaskedSum(list);
    SumOfNonNegative(CountedAmount, list);
  }

  /** One row of `recentOrders`. */
  function Summarize(o: StatsOrder): (r: RecentOrder)
    ensures r.id == o.id && r.status == o.status && r.date == o.createdAt
    ensures r.total == OrderAmount(o)
    ensures r.customer == OrElse(o.userName.GetOr(""), DefaultCustomer) && r.customer != ""
  {
    RecentOrder(o.id, OrElse(o.userName.GetOr(""), DefaultCustomer), OrderAmount(o), o.status, o.createdAt)
  }

  /** `ordersList.slice(0, 5).map(...)`. */
  function RecentOrders(list: seq<StatsOrder>): (r: seq<RecentOrder>)
    ensures |r| == Min(RecentLimit, |list|)
    ensures forall i :: 0 <= i < |r| ==> r[i] == Summarize(list[i])
  {
    var head := list[..Min(RecentLimit, |list|)];
    seq(|head|, i requires 0 <= i < |head| => Summarize(head[i]))
  }

  /** The statistics of a successful fetch whose order list is `list`. */
  function StatsOf(products: Listing, categories: CategoriesBody, users: Listing, list: seq<StatsOrder>): (r: DashboardStats)
    ensures r.totalProducts == ListingTotal(products) && r.totalCustomers == ListingTotal(users)
    ensures r.totalCategories == (if categories.CategoryArray? then categories.count else 0)
    ensures r.totalOrders == |list|
    ensures r.pendingOrders == Count(IsPending, list) <= r.totalOrders
    ensures r.revenue == SumOf(OrderAmount, Filter(NotCancelled, list))
    ensures r.recentOrders == RecentOrders(list)
  {
    DashboardStats(
      ListingTotal(products),
      if categories.CategoryArray? then categories.count else 0,
      ListingTotal(users),
      |list|,
      PendingOrders(list),
      Revenue(list),
      RecentOrders(list))
  }

  /** `getDashboardStats`. The order list is `orders.orders || orders`: an
      object without an `orders` array has no `filter`, so computing the
      pending count throws and the error path answers. */
  function GetDashboardStats(f: Fetches): (r: DashboardStats)
    ensures f.FetchFailed? ==> r == ZeroStats
    ensures f.Fetched? && f.orders.OrdersObject? && f.orders.orders.None? ==> r == ZeroStats
    ensures f.Fetched? && f.orders.OrdersObject? && f.orders.orders.Some? ==>
              r == StatsOf(f.products, f.categories, f.users, f.orders.orders.value)
    ensures f.Fetched? && f.orders.OrdersArray? ==> r == StatsOf(f.products, f.categories, f.users, f.orders.list)
  {
    match f
    case FetchFailed => ZeroStats
    case Fetched(products, categories, users, orders) =>
      match orders
      case OrdersObject(None) => ZeroStats
      case OrdersObject(Some(list)) => StatsOf(products, categories, users, list)
      case OrdersArray(list) => StatsOf(products, categories, users, list)
  }

  /** Whatever arrives, the pending count never exceeds the order count and
      the recent list has at most five rows. */
  lemma StatsBounds(f: Fetches)
    ensures GetDashboardStats(f).pendingOrders <= GetDashboardStats(f).totalOrders
    ensures |GetDashboardStats(f).recentOrders| <= RecentLimit
    ensures |GetDashboardStats(f).recentOrders| <= GetDashboardStats(f).totalOrders
  {
  }
}
