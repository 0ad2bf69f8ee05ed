/**
  The shapes the frontend's API client hands to the order context: one customer, the order
  list, the dashboard statistics, and the `{data, error}` envelope of every response.
  The HTTP calls themselves are not modelled.
*/
module Services {
  import opened Wrappers

  datatype Customer = Customer(customerId: string, username: string, email: Option<string>)

  datatype OrderListItem = OrderListItem(
    orderId: string,
    orderDate: string,
    status: string,
    items: seq<string>,
    itemsCount: int)

  /** Dashboard counters; a counter absent from the response body is None. */
  datatype DashboardStats = DashboardStats(
    totalOrders: Option<int>,
    totalShipments: Option<int>,
    inTransit: Option<int>,
    delayed: Option<int>,
    delivered: Option<int>,
    failed: Option<int>,
    outForDelivery: Option<int>,
    byRegion: map<string, int>)

  /** `ApiResponse<T>`: `data` and `error`, either of which may be null. */
  datatype ApiResponse<T> = ApiResponse(data: Option<T>, error: Option<string>)

  /** What awaiting a client call gives the caller: a response, or an exception it throws. */
  datatype Fetch<T> = Responded(response: ApiResponse<T>) | Threw
}
