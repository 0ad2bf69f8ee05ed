/**
  The dashboard page: what it derives from the order context before rendering it — the
  recent orders, the issue count, the item labels, the avatar initials, the refresh button,
  the alerts, and the guard that shows a spinner (and redirects) without a signed-in user.
  The page also carries its own copy of the status badge.
*/
module Dashboard {
  import opened Wrappers
  import opened Services
  import Decimal
  import Api
  import StatusBadge
  import OrderProvider

  // ---------------------------------------------------------------------------------------
  // The page's own status badge

  function LocalBadgeColor(status: string): StatusBadge.Color {
    if status == Api.DELIVERED then StatusBadge.Success
    else if status == Api.IN_TRANSIT then StatusBadge.Info
    else if status == Api.DELAYED then StatusBadge.Warning
    else if status == Api.FAILED then StatusBadge.Error
    else if status == Api.OUT_FOR_DELIVERY then StatusBadge.Primary
    else if status == StatusBadge.PROCESSING then StatusBadge.Secondary
    else StatusBadge.Default
  }

  function LocalBadgeIcon(status: string): StatusBadge.Icon {
    if status == Api.DELIVERED then StatusBadge.DeliveredIcon
    else if status == Api.IN_TRANSIT then StatusBadge.ShippingIcon
    else if status == Api.DELAYED then StatusBadge.WarningIcon
    else if status == Api.FAILED then StatusBadge.WarningIcon
    else if status == Api.OUT_FOR_DELIVERY then StatusBadge.NavigationIcon
    else if status == StatusBadge.PROCESSING then StatusBadge.PendingIcon
    else StatusBadge.InventoryIcon
  }

  function LocalBadge(status: string): (chip: StatusBadge.Chip)
    ensures chip.text == status
    ensures chip.icon == StatusBadge.IconOfColor(chip.color)
  {
    StatusBadge.Chip(status, LocalBadgeColor(status), LocalBadgeIcon(status))
  }

  /** The copy renders the same chip as the shared component for every string. */
  lemma LocalBadgeAgrees(status: string)
    ensures LocalBadge(status) == StatusBadge.Badge(status)
  {
  }

  // ---------------------------------------------------------------------------------------
  // Derived values

  const RECENT_COUNT := 5

  /** `orders.slice(0, 5)`: the first five orders, or all of them when there are fewer. */
  function RecentOrders<T>(orders: seq<T>): (r: seq<T>)
    ensures |r| == if |orders| < RECENT_COUNT then |orders| else RECENT_COUNT
    ensures r <= orders
  {
    if |orders| <= RECENT_COUNT then orders else orders[..RECENT_COUNT]
  }

  /** `x || 0` on a counter that may be missing: 0 is falsy, so only a non-zero number survives. */
  function OrZero(x: Option<int>): (n: int)
    ensures n == x.GetOr(0)
  {
    if x.Some? && x.value != 0 then x.value else 0
  }

  /** `(dashboardStats?.delayed || 0) + (dashboardStats?.failed || 0)`. */
  function Issues(stats: Option<DashboardStats>): (n: int)
    ensures stats.None? ==> n == 0
    ensures stats.Some? ==> n == stats.value.delayed.GetOr(0) + stats.value.failed.GetOr(0)
  {
    (if stats.Some? then OrZero(stats.value.delayed) else 0) + (if stats.Some? then OrZero(stats.value.failed) else 0)
  }

  /** The issues card takes the warning tint exactly when the issue count is positive. */
  predicate IssuesHighlighted(stats: Option<DashboardStats>) {
    Issues(stats) > 0
  }

  /** Counters as the backend reports them: never negative. */
  predicate CountsNonNegative(stats: DashboardStats) {
    stats.delayed.GetOr(0) >= 0 && stats.failed.GetOr(0) >= 0
  }

  /** With non-negative counters the card is highlighted iff some shipment is delayed or failed. */
  lemma HighlightedIffIssue(stats: Option<DashboardStats>)
    requires stats.Some? ==> CountsNonNegative(stats.value)
    ensures IssuesHighlighted(stats) <==>
      stats.Some? && (stats.value.delayed.GetOr(0) > 0 || stats.value.failed.GetOr(0) > 0)
  {
  }

  /** `items_count === 1 ? 'item' : 'items'`. */
  function ItemLabel(count: int): (s: string)
    ensures s == "item" <==> count == 1
    ensures s == "items" <==> count != 1
  {
    if count == 1 then "item" else "items"
  }

  /** The items cell: the count in decimal, a space, the label. */
  function ItemsText(count: int): (s: string)
    ensures var k := |Decimal.IntToString(count)|;
      && |s| == k + 1 + |ItemLabel(count)|
      && s[..k] == Decimal.IntToString(count) && s[k] == ' ' && s[k + 1..] == ItemLabel(count)
  {
    Decimal.IntToString(count) + " " + ItemLabel(count)
  }

  /** The count can be read back from the items cell, up to its first space. */
  lemma ItemsTextReadsBack(count: int)
    ensures var s := ItemsText(count); var k := |Decimal.IntToString(count)|;
      && k < |s| && s[k] == ' '
      && Decimal.ParseInt(s[..k]) == Some(count)
      && s[k + 1..] == ItemLabel(count)
  {
    var s := ItemsText(count);
    var k := |Decimal.IntToString(count)|;
    assert s[..k] == Decimal.IntToString(count);
    Decimal.IntRoundTrip(count);
  }

  /** `toUpperCase` on one character, for the ASCII letters. */
  function UpperChar(c: char): (u: char)
    ensures !('a' <= u <= 'z')
    ensures 'a' <= c <= 'z' || u == c
  {
    if 'a' <= c <= 'z' then (c as int - 'a' as int + 'A' as int) as char else c
  }

  function ToUpper(s: string): (r: string)
    ensures |r| == |s|
    ensures forall i :: 0 <= i < |s| ==> r[i] == UpperChar(s[i])
    decreases |s|
  {
    if s == [] then [] else [UpperChar(s[0])] + ToUpper(s[1..])
  }

  /** `username.substring(0, 2).toUpperCase()`: the first two characters (fewer if short), upper-cased. */
  function Initials(username: string): (r: string)
    ensures |r| == if |username| < 2 then |username| else 2
    ensures forall i :: 0 <= i < |r| ==> r[i] == UpperChar(username[i])
    ensures forall i :: 0 <= i < |r| ==> !('a' <= r[i] <= 'z')
  {
    ToUpper(if |username| < 2 then username else username[..2])
  }

  // ---------------------------------------------------------------------------------------
  // The page

  /** The effect that sends a signed-out visitor back to "/" once the session is known. */
  function RedirectTarget(isUserLoading: bool, user: Option<OrderProvider.User>): (r: Option<string>)
    ensures r.Some? <==> !isUserLoading && user.None?
    ensures r.Some? ==> r.value == "/"
  {
    if !isUserLoading && user.None? then Some("/") else None
  }

  /** `disabled={isLoadingOrders || isLoadingDashboard}`. */
  predicate RefreshDisabled(orders: OrderProvider.Resource<seq<OrderListItem>>,
                            dashboard: OrderProvider.Resource<Option<DashboardStats>>) {
    orders.loading || dashboard.loading
  }

  /** `{error && <Alert>prefix + error</Alert>}`: shown only for a non-empty error. */
  function Alert(prefix: string, error: Option<string>): (r: Option<string>)
    ensures r.Some? <==> OrderProvider.Truthy(error)
    ensures r.Some? ==> r.value == prefix + error.value
  {
    if OrderProvider.Truthy(error) then Some(prefix + error.value) else None
  }

  /** What the page shows once a user is signed in. */
  datatype PageView = PageView(
    refreshDisabled: bool,
    progressBar: bool,
    dashboardAlert: Option<string>,
    ordersAlert: Option<string>,
    initials: Option<string>,
    issues: int,
    issuesHighlighted: bool,
    recentOrders: seq<OrderListItem>,
    itemsTexts: seq<string>)

  datatype Screen = Spinner | Page(view: PageView)

  /** The page for the session and the context's three resources. */
  function Render(isUserLoading: bool, user: Option<OrderProvider.User>,
                  customer: OrderProvider.Resource<Option<Customer>>,
                  orders: OrderProvider.Resource<seq<OrderListItem>>,
                  dashboard: OrderProvider.Resource<Option<DashboardStats>>): (screen: Screen)
    ensures screen.Spinner? <==> isUserLoading || user.None?
    ensures RedirectTarget(isUserLoading, user).Some? ==> screen.Spinner?
    ensures screen.Page? ==>
      && |screen.view.recentOrders| <= RECENT_COUNT
      && screen.view.recentOrders <= orders.data
      && screen.view.recentOrders == RecentOrders(orders.data)
      && |screen.view.itemsTexts| == |screen.view.recentOrders|
      && (forall i :: 0 <= i < |screen.view.itemsTexts| ==>
            screen.view.itemsTexts[i] == ItemsText(screen.view.recentOrders[i].itemsCount))
      && (screen.view.refreshDisabled <==> orders.loading || dashboard.loading)
      && (screen.view.progressBar <==> orders.loading || dashboard.loading)
      && screen.view.dashboardAlert == Alert("Dashboard Error: ", dashboard.error)
      && screen.view.ordersAlert == Alert("Orders Error: ", orders.error)
      && (screen.view.initials.Some? <==> customer.data.Some?)
      && (customer.data.Some? ==> screen.view.initials == Some(Initials(customer.data.value.username)))
      && screen.view.issues == Issues(dashboard.data)
      && (screen.view.issuesHighlighted <==> screen.view.issues > 0)
  {
    if isUserLoading || user.None? then Spinner
    else
      var recent := RecentOrders(orders.data);
      Page(PageView(
        RefreshDisabled(orders, dashboard),
        dashboard.loading || orders.loading,
        Alert("Dashboard Error: ", dashboard.error),
        Alert("Orders Error: ", orders.error),
        if customer.data.Some? then Some(Initials(customer.data.value.username)) else None,
        Issues(dashboard.data),
        IssuesHighlighted(dashboard.data),
        recent,
        seq(|recent|, i requires 0 <= i < |recent| => ItemsText(recent[i].itemsCount))))
  }

  /** `handleRefresh`: both refreshes, the customer untouched. */
  method HandleRefresh(provider: OrderProvider.Provider,
                       ordersOutcome: Fetch<seq<OrderListItem>>,
                       dashboardOutcome: Fetch<DashboardStats>)
    modifies provider`orders, provider`dashboard
    ensures var go := OrderProvider.LoadUsername(provider.user).Some?;
      && provider.orders == (if go then OrderProvider.Load(old(provider.orders), ordersOutcome, OrderProvider.AsIs, OrderProvider.ORDERS_FAILURE)
                             else old(provider.orders))
      && provider.dashboard == (if go then OrderProvider.Load(old(provider.dashboard), dashboardOutcome, OrderProvider.Present, OrderProvider.DASHBOARD_FAILURE)
                                else old(provider.dashboard))
  {
    provider.RefreshOrders(ordersOutcome);
    provider.RefreshDashboard(dashboardOutcome);
  }
}
