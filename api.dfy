/**
  The read endpoints of the backend: one customer, a customer's orders with a status derived
  from their shipments, one order with its shipments and items, and one shipment.
  The ORM returns the rows of a filter in an order it does not specify; each method picks an
  order (`Enumerate`) and returns it as a ghost sequence of keys so that its contract can say
  which row each entry came from.
*/
module Api {
  import opened Wrappers
  import opened Models

  /** `get_object_or_404` found no row with that key. */
  datatype ApiError = NotFound

  datatype CustomerView = CustomerView(customerId: string, username: string, email: Option<string>)

  datatype ItemView = ItemView(itemName: string, quantity: int)

  datatype ShipmentView = ShipmentView(
    shipmentId: string,
    trackingNumber: string,
    warehouseId: string,
    fulfillmentRegion: string,
    zipCode: string,
    addressId: string,
    fulfillmentType: string,
    shipDate: Date,
    estimatedDelivery: Date,
    actualDeliveryDate: Option<Date>,
    currentStatus: string,
    lastScanLocation: string,
    scanTimestamp: Option<DateTime>,
    deliveryAttemptStatus: Option<string>,
    deliveryFailureStatus: Option<string>,
    items: seq<ItemView>)

  datatype OrderView = OrderView(orderId: string, orderDate: Date, customerId: string, shipments: seq<ShipmentView>)

  datatype OrderListEntry = OrderListEntry(orderId: string, orderDate: Date, status: string)

  const FAILED := "Failed"
  const DELAYED := "Delayed"
  const IN_TRANSIT := "In Transit"
  const OUT_FOR_DELIVERY := "Out for Delivery"
  const DELIVERED := "Delivered"
  const UNKNOWN := "Unknown"

  /** The six values `list_customer_orders` can report. */
  const ORDER_STATUSES: set<string> := {FAILED, DELAYED, IN_TRANSIT, OUT_FOR_DELIVERY, DELIVERED, UNKNOWN}

  // ---------------------------------------------------------------------------------------
  // Status aggregation

  /** The "worst status wins" rule of `list_customer_orders` over one order's shipment statuses. */
  function OrderStatus(statuses: seq<string>): (r: string)
    ensures r in ORDER_STATUSES
    ensures r == DELIVERED <==> |statuses| > 0 && forall i :: 0 <= i < |statuses| ==> statuses[i] == DELIVERED
  {
    if |statuses| == 0 then UNKNOWN
    else if FAILED in statuses then FAILED
    else if DELAYED in statuses then DELAYED
    else if IN_TRANSIT in statuses then IN_TRANSIT
    else if OUT_FOR_DELIVERY in statuses then OUT_FOR_DELIVERY
    else if forall i :: 0 <= i < |statuses| ==> statuses[i] == DELIVERED then DELIVERED
    else UNKNOWN
  }

  lemma FailedWins(statuses: seq<string>)
    requires FAILED in statuses
    ensures OrderStatus(statuses) == FAILED
  {
  }

  lemma PriorityBelowFailed(statuses: seq<string>)
    requires FAILED !in statuses
    ensures DELAYED in statuses ==> OrderStatus(statuses) == DELAYED
    ensures DELAYED !in statuses && IN_TRANSIT in statuses ==> OrderStatus(statuses) == IN_TRANSIT
    ensures DELAYED !in statuses && IN_TRANSIT !in statuses && OUT_FOR_DELIVERY in statuses
            ==> OrderStatus(statuses) == OUT_FOR_DELIVERY
  {
  }

  /** "Unknown" exactly when there is no shipment, or no ranked status and not all delivered. */
  lemma UnknownExactly(statuses: seq<string>)
    ensures OrderStatus(statuses) == UNKNOWN <==>
      |statuses| == 0 ||
      (&& FAILED !in statuses && DELAYED !in statuses && IN_TRANSIT !in statuses && OUT_FOR_DELIVERY !in statuses
       && exists i :: 0 <= i < |statuses| && statuses[i] != DELIVERED)
  {
  }

  lemma UnknownExamples()
    ensures OrderStatus([]) == UNKNOWN
    ensures OrderStatus(["Processing"]) == UNKNOWN
    ensures OrderStatus(["Processing", DELIVERED]) == UNKNOWN
    ensures OrderStatus([DELIVERED, OUT_FOR_DELIVERY, DELAYED]) == DELAYED
  {
    assert ["Processing", DELIVERED][0] != DELIVERED;
    assert [DELIVERED, OUT_FOR_DELIVERY, DELAYED][2] == DELAYED;
  }

  /** The rank of a status in the worst-wins order; 0 for everything else. */
  function Severity(status: string): (n: nat)
    ensures n <= 4
  {
    if status == FAILED then 4
    else if status == DELAYED then 3
    else if status == IN_TRANSIT then 2
    else if status == OUT_FOR_DELIVERY then 1
    else 0
  }

  /** The highest rank among the statuses. */
  function MaxSeverity(statuses: seq<string>): (n: nat)
    ensures n <= 4
    decreases |statuses|
  {
    if statuses == [] then 0
    else var rest := MaxSeverity(statuses[1..]);
      if Severity(statuses[0]) > rest then Severity(statuses[0]) else rest
  }

  function StatusOfSeverity(n: nat): string
    requires 1 <= n <= 4
  {
    if n == 4 then FAILED else if n == 3 then DELAYED else if n == 2 then IN_TRANSIT else OUT_FOR_DELIVERY
  }

  lemma {:induction false} MaxSeverityIsMaximum(statuses: seq<string>)
    ensures forall i :: 0 <= i < |statuses| ==> Severity(statuses[i]) <= MaxSeverity(statuses)
    ensures MaxSeverity(statuses) == 0 || exists i :: 0 <= i < |statuses| && Severity(statuses[i]) == MaxSeverity(statuses)
    decreases |statuses|
  {
    if statuses != [] {
      MaxSeverityIsMaximum(statuses[1..]);
      var rest := statuses[1..];
      forall i | 0 <= i < |statuses| ensures Severity(statuses[i]) <= MaxSeverity(statuses) {
        if i > 0 { assert statuses[i] == rest[i - 1]; }
      }
      if MaxSeverity(statuses) != 0 && Severity(statuses[0]) <= MaxSeverity(rest) {
        var j :| 0 <= j < |rest| && Severity(rest[j]) == MaxSeverity(rest);
        assert statuses[j + 1] == rest[j];
      }
    }
  }

  /**
    The chain of `if/elif` tests is "the most severe status present wins": the reported status
    is the one of highest rank, and only when no ranked status occurs does it fall back to
    "Delivered" (all delivered) or "Unknown".
  */
  lemma WorstStatusWins(statuses: seq<string>)
    ensures OrderStatus(statuses) ==
      if MaxSeverity(statuses) > 0 then StatusOfSeverity(MaxSeverity(statuses))
      else if |statuses| > 0 && forall i :: 0 <= i < |statuses| ==> statuses[i] == DELIVERED then DELIVERED
      else UNKNOWN
  {
    if MaxSeverity(statuses) > 0 {
      RankedStatusWins(statuses);
    } else {
      UnrankedStatuses(statuses);
    }
  }

  lemma RankedStatusWins(statuses: seq<string>)
    requires MaxSeverity(statuses) > 0
    ensures OrderStatus(statuses) == StatusOfSeverity(MaxSeverity(statuses))
  {
    var m := MaxSeverity(statuses);
    MaxSeverityIsMaximum(statuses);
    SeverityRanks();
    var j :| 0 <= j < |statuses| && Severity(statuses[j]) == m;
    SeverityNames(statuses[j]);
    assert StatusOfSeverity(m) in statuses;
    if m < 4 { AbsentAbove(statuses, FAILED); }
    if m < 3 { AbsentAbove(statuses, DELAYED); }
    if m < 2 { AbsentAbove(statuses, IN_TRANSIT); }
  }

  lemma UnrankedStatuses(statuses: seq<string>)
    requires MaxSeverity(statuses) == 0
    ensures OrderStatus(statuses) ==
      if |statuses| > 0 && forall i :: 0 <= i < |statuses| ==> statuses[i] == DELIVERED then DELIVERED else UNKNOWN
  {
    SeverityRanks();
    AbsentAbove(statuses, FAILED);
    AbsentAbove(statuses, DELAYED);
    AbsentAbove(statuses, IN_TRANSIT);
    AbsentAbove(statuses, OUT_FOR_DELIVERY);
  }

  /** The ranks of the four ranked statuses. */
  lemma SeverityRanks()
    ensures Severity(FAILED) == 4 && Severity(DELAYED) == 3 && Severity(IN_TRANSIT) == 2 && Severity(OUT_FOR_DELIVERY) == 1
  {
  }

  /** A ranked status is the one its rank names. */
  lemma SeverityNames(status: string)
    ensures Severity(status) > 0 ==> status == StatusOfSeverity(Severity(status))
  {
  }

  /** A status ranked above every status present does not occur. */
  lemma AbsentAbove(statuses: seq<string>, status: string)
    ensures Severity(status) > MaxSeverity(statuses) ==> status !in statuses
  {
    if status in statuses {
      MaxSeverityIsMaximum(statuses);
      var i :| 0 <= i < |statuses| && statuses[i] == status;
    }
  }

  /** The aggregation over the set of statuses present, the form in which the database supplies them. */
  function StatusOfSet(present: set<string>): string {
    if FAILED in present then FAILED
    else if DELAYED in present then DELAYED
    else if IN_TRANSIT in present then IN_TRANSIT
    else if OUT_FOR_DELIVERY in present then OUT_FOR_DELIVERY
    else if present == {DELIVERED} then DELIVERED
    else UNKNOWN
  }

  /** The rule depends only on which statuses occur, not on their order or multiplicity. */
  lemma OrderStatusBySet(statuses: seq<string>)
    ensures OrderStatus(statuses) == StatusOfSet(set s | s in statuses)
  {
    var present := set s | s in statuses;
    if |statuses| == 0 {
      assert present == {};
    } else if forall i :: 0 <= i < |statuses| ==> statuses[i] == DELIVERED {
      assert statuses[0] in present;
      assert present == {DELIVERED};
    } else {
      var i :| 0 <= i < |statuses| && statuses[i] != DELIVERED;
      assert statuses[i] in present && statuses[i] != DELIVERED;
    }
  }

  // ---------------------------------------------------------------------------------------
  // Query helpers

  ghost predicate Distinct<T(!new)>(xs: seq<T>) {
    forall i, j :: 0 <= i < j < |xs| ==> xs[i] != xs[j]
  }

  /** `xs` lists every element of `s` exactly once. */
  ghost predicate Enumerates<T(!new)>(xs: seq<T>, s: set<T>) {
    && Distinct(xs)
    && (forall i :: 0 <= i < |xs| ==> xs[i] in s)
    && (forall x :: x in s ==> x in xs)
  }

  /** Iterating a queryset: every matching row once, in an order the ORM chooses. */
  method Enumerate<T(==, !new)>(s: set<T>) returns (xs: seq<T>)
    ensures Enumerates(xs, s) && |xs| == |s|
  {
    xs := [];
    var rest := s;
    while rest != {}
      invariant rest <= s
      invariant Distinct(xs)
      invariant forall i :: 0 <= i < |xs| ==> xs[i] in s && xs[i] !in rest
      invariant forall x :: x in s ==> x in xs || x in rest
      invariant |xs| + |rest| == |s|
      decreases |rest|
    {
      var x :| x in rest;
      xs := xs + [x];
      rest := rest - {x};
    }
  }

  /** `Order.objects.filter(customer=...)` */
  function OrdersOf(db: Db, customerId: string): set<string> {
    set o | o in db.orders && db.orders[o].customerId == customerId
  }

  /** `Shipment.objects.filter(order=...)` */
  function ShipmentsOf(db: Db, orderId: string): set<string> {
    set s | s in db.shipments && db.shipments[s].orderId == orderId
  }

  /** `ShipmentItem.objects.filter(shipment=...)` */
  function ItemsOf(db: Db, shipmentId: string): set<nat> {
    set i | i in db.items && db.items[i].shipmentId == shipmentId
  }

  /** The statuses present among an order's shipments. */
  function StatusSet(db: Db, orderId: string): set<string> {
    set s | s in db.shipments && db.shipments[s].orderId == orderId :: db.shipments[s].currentStatus
  }

  // ---------------------------------------------------------------------------------------
  // Projections

  function ItemViewOf(item: ShipmentItem): ItemView {
    ItemView(item.itemName, item.quantity)
  }

  /** The items with the given ids, projected to (name, quantity), in that order. */
  function ItemViews(db: Db, ids: seq<nat>): (vs: seq<ItemView>)
    requires forall k :: 0 <= k < |ids| ==> ids[k] in db.items
    ensures |vs| == |ids|
  {
    seq(|ids|, k requires 0 <= k < |ids| => ItemViewOf(db.items[ids[k]]))
  }

  function ShipmentViewOf(s: Shipment, items: seq<ItemView>): ShipmentView {
    ShipmentView(s.shipmentId, s.trackingNumber, s.warehouseId, s.fulfillmentRegion, s.zipCode,
      s.addressId, s.fulfillmentType, s.shipDate, s.estimatedDelivery, s.actualDeliveryDate,
      s.currentStatus, s.lastScanLocation, s.scanTimestamp, s.deliveryAttemptStatus,
      s.deliveryFailureStatus, items)
  }

  /** `view` is shipment `sid` with exactly its items, listed in the order `itemIds`. */
  ghost predicate IsShipmentView(db: Db, sid: string, itemIds: seq<nat>, view: ShipmentView) {
    && sid in db.shipments
    && Enumerates(itemIds, ItemsOf(db, sid))
    && view == ShipmentViewOf(db.shipments[sid], ItemViews(db, itemIds))
  }

  // ---------------------------------------------------------------------------------------
  // Endpoints

  /** `GET /customers/{customer_id}` */
  function GetCustomer(db: Db, customerId: string): (r: Result<CustomerView, ApiError>)
    ensures r.Ok? <==> customerId in db.customers
    ensures r.Ok? ==> var c := db.customers[customerId];
      r.value == CustomerView(c.customerId, c.username, c.email)
  {
    if customerId !in db.customers then Err(NotFound)
    else var c := db.customers[customerId]; Ok(CustomerView(c.customerId, c.username, c.email))
  }

  /** The statuses of an order's shipments, one per shipment, in query order `shipmentIds`. */
  method CollectStatuses(db: Db, orderId: string) returns (statuses: seq<string>, ghost shipmentIds: seq<string>)
    ensures Enumerates(shipmentIds, ShipmentsOf(db, orderId))
    ensures |statuses| == |shipmentIds|
    ensures forall k :: 0 <= k < |statuses| ==> statuses[k] == db.shipments[shipmentIds[k]].currentStatus
    ensures forall s :: s in statuses <==> s in StatusSet(db, orderId)
  {
    var ids := Enumerate(ShipmentsOf(db, orderId));
    shipmentIds := ids;
    statuses := [];
    for k := 0 to |ids|
      invariant |statuses| == k
      invariant forall j :: 0 <= j < k ==> statuses[j] == db.shipments[ids[j]].currentStatus
    {
      statuses := statuses + [db.shipments[ids[k]].currentStatus];
    }
    forall s | s in statuses ensures s in StatusSet(db, orderId) {
      var k :| 0 <= k < |statuses| && statuses[k] == s;
      assert ids[k] in ShipmentsOf(db, orderId);
    }
    forall s | s in StatusSet(db, orderId) ensures s in statuses {
      var sid :| sid in db.shipments && db.shipments[sid].orderId == orderId && db.shipments[sid].currentStatus == s;
      assert sid in ids;
      var k :| 0 <= k < |ids| && ids[k] == sid;
      assert statuses[k] == s;
    }
  }

  /**
    `GET /customers/{customer_id}/orders`: 404 for an unknown customer; otherwise one entry
    per order of the customer, in query order, with the order's id and date and the status
    aggregated from its shipments.
  */
  method ListCustomerOrders(db: Db, customerId: string)
    returns (r: Result<seq<OrderListEntry>, ApiError>, ghost orderIds: seq<string>)
    ensures r.Err? <==> customerId !in db.customers
    ensures r.Ok? ==>
      && Enumerates(orderIds, OrdersOf(db, customerId))
      && |r.value| == |orderIds|
      && forall k :: 0 <= k < |orderIds| ==>
           r.value[k] == OrderListEntry(db.orders[orderIds[k]].orderId, db.orders[orderIds[k]].orderDate, StatusOfSet(StatusSet(db, orderIds[k])))
  {
    orderIds := [];
    if customerId !in db.customers {
      return Err(NotFound), orderIds;
    }
    var ids := Enumerate(OrdersOf(db, customerId));
    orderIds := ids;
    var result: seq<OrderListEntry> := [];
    for k := 0 to |ids|
      invariant |result| == k
      invariant forall j :: 0 <= j < k ==>
        result[j] == OrderListEntry(db.orders[ids[j]].orderId, db.orders[ids[j]].orderDate, StatusOfSet(StatusSet(db, ids[j])))
    {
      var order := db.orders[ids[k]];
      var statuses, _ := CollectStatuses(db, ids[k]);
      var status := OrderStatus(statuses);
      OrderStatusBySet(statuses);
      assert (set s | s in statuses) == StatusSet(db, ids[k]);
      result := result + [OrderListEntry(order.orderId, order.orderDate, status)];
    }
    r := Ok(result);
  }

  /** The items of one shipment, projected, in query order `itemIds`. */
  method CollectItems(db: Db, shipmentId: string) returns (items: seq<ItemView>, ghost itemIds: seq<nat>)
    ensures Enumerates(itemIds, ItemsOf(db, shipmentId))
    ensures items == ItemViews(db, itemIds)
  {
    var ids := Enumerate(ItemsOf(db, shipmentId));
    itemIds := ids;
    items := [];
    for k := 0 to |ids|
      invariant |items| == k
      invariant forall j :: 0 <= j < k ==> items[j] == ItemViewOf(db.items[ids[j]])
    {
      var item := db.items[ids[k]];
      items := items + [ItemView(item.itemName, item.quantity)];
    }
  }

  /** `GET /shipments/{shipment_id}`: 404 for an unknown shipment, else the shipment with exactly its items. */
  method GetShipment(db: Db, shipmentId: string) returns (r: Result<ShipmentView, ApiError>, ghost itemIds: seq<nat>)
    ensures r.Err? <==> shipmentId !in db.shipments
    ensures r.Ok? ==> IsShipmentView(db, shipmentId, itemIds, r.value)
    ensures r.Ok? ==> |r.value.items| == |ItemsOf(db, shipmentId)|
  {
    itemIds := [];
    if shipmentId !in db.shipments {
      return Err(NotFound), itemIds;
    }
    var shipment := db.shipments[shipmentId];
    var items;
    items, itemIds := CollectItems(db, shipmentId);
    EnumeratesSize(itemIds, ItemsOf(db, shipmentId));
    r := Ok(ShipmentViewOf(shipment, items));
  }

  /**
    `GET /orders/{order_id}`: 404 for an unknown order; otherwise the order's id, date and
    owning customer's id, and exactly its shipments, each with exactly its items.
  */
  method GetOrder(db: Db, orderId: string)
    returns (r: Result<OrderView, ApiError>, ghost shipmentIds: seq<string>, ghost itemIds: seq<seq<nat>>)
    ensures r.Err? <==> orderId !in db.orders
    ensures r.Ok? ==>
      && r.value.orderId == db.orders[orderId].orderId
      && r.value.orderDate == db.orders[orderId].orderDate
      && r.value.customerId == db.orders[orderId].customerId
      && Enumerates(shipmentIds, ShipmentsOf(db, orderId))
      && |r.value.shipments| == |shipmentIds| == |itemIds|
      && forall k :: 0 <= k < |shipmentIds| ==> IsShipmentView(db, shipmentIds[k], itemIds[k], r.value.shipments[k])
  {
    shipmentIds, itemIds := [], [];
    if orderId !in db.orders {
      return Err(NotFound), shipmentIds, itemIds;
    }
    var order := db.orders[orderId];
    var ids := Enumerate(ShipmentsOf(db, orderId));
    shipmentIds := ids;
    var shipmentData: seq<ShipmentView> := [];
    for k := 0 to |ids|
      invariant |shipmentData| == k == |itemIds|
      invariant forall j :: 0 <= j < k ==> IsShipmentView(db, ids[j], itemIds[j], shipmentData[j])
    {
      var shipment := db.shipments[ids[k]];
      var items, these := CollectItems(db, ids[k]);
      itemIds := itemIds + [these];
      shipmentData := shipmentData + [ShipmentViewOf(shipment, items)];
    }
    r := Ok(OrderView(order.orderId, order.orderDate, order.customerId, shipmentData));
  }

  lemma {:induction false} EnumeratesSize<T(!new)>(xs: seq<T>, s: set<T>)
    requires Enumerates(xs, s)
    ensures |xs| == |s|
    decreases |xs|
  {
    if xs != [] {
      var rest := xs[1..];
      assert Enumerates(rest, s - {xs[0]}) by {
        forall x ensures x in rest <==> x in s - {xs[0]} {
          if x in rest {
            var j :| 0 <= j < |rest| && rest[j] == x;
            assert xs[j + 1] == x;
          }
          if x in s - {xs[0]} {
            var j :| 0 <= j < |xs| && xs[j] == x;
            assert j != 0;
            assert rest[j - 1] == x;
          }
        }
      }
      EnumeratesSize(rest, s - {xs[0]});
    } else {
      assert s == {};
    }
  }
}
