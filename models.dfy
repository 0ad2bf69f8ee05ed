/**
  The four tables of the backend (Customer, Order, Shipment, ShipmentItem), the constraints
  the database enforces on them, the cascade that `on_delete=CASCADE` causes, and the
  `__str__` formats.
*/
module Models {
  import opened Wrappers
  import Decimal

  /** A calendar date as `strptime(...).date()` yields it; calendar validity is not modelled. */
  datatype Date = Date(year: int, month: int, day: int)

  /** A timestamp as `strptime(..., '%Y-%m-%d %H:%M:%S')` yields it. */
  datatype DateTime = DateTime(date: Date, hour: int, minute: int, second: int)

  /** A customer; `auth0_id` and `email` are nullable, the rest required. */
  datatype Customer = Customer(
    customerId: string,
    username: string,
    auth0Id: Option<string>,
    email: Option<string>)

  /** An order; `customerId` is the foreign key to its Customer. */
  datatype Order = Order(orderId: string, customerId: string, orderDate: Date)

  /** A shipment; `orderId` is the foreign key to its Order. */
  datatype Shipment = Shipment(
    shipmentId: string,
    orderId: string,
    trackingNumber: string,
    warehouseId: string,
    fulfillmentRegion: string,
    zipCode: string,
    addressId: string,
    fulfillmentType: string,
    shipDate: Date,
    estimatedDelivery: Date,
    actualDeliveryDate: Option<Date>,
    currentStatus: string,
    lastScanLocation: string,
    scanTimestamp: Option<DateTime>,
    deliveryAttemptStatus: Option<string>,
    deliveryFailureStatus: Option<string>)

  /** A line item; `shipmentId` is the foreign key to its Shipment. */
  datatype ShipmentItem = ShipmentItem(shipmentId: string, itemName: string, quantity: int)

  /**
    The database. Customers, orders and shipments are keyed by their primary key; items by
    their auto-increment id, `nextItemId` being the next id the sequence hands out.
  */
  datatype Db = Db(
    customers: map<string, Customer>,
    orders: map<string, Order>,
    shipments: map<string, Shipment>,
    items: map<nat, ShipmentItem>,
    nextItemId: nat)

  const EMPTY_DB := Db(map[], map[], map[], map[], 1)

  /** Every record is stored under its own primary key, so no two records share one. */
  ghost predicate PrimaryKeys(db: Db) {
    && (forall c :: c in db.customers ==> db.customers[c].customerId == c)
    && (forall o :: o in db.orders ==> db.orders[o].orderId == o)
    && (forall s :: s in db.shipments ==> db.shipments[s].shipmentId == s)
    && (forall i :: i in db.items ==> i < db.nextItemId)
  }

  /** `username` is unique across customers. */
  ghost predicate UniqueUsernames(customers: map<string, Customer>) {
    forall a, b :: a in customers && b in customers && customers[a].username == customers[b].username ==> a == b
  }

  /** Every order has its customer, every shipment its order, every item its shipment. */
  ghost predicate ForeignKeys(db: Db) {
    && (forall o :: o in db.orders ==> db.orders[o].customerId in db.customers)
    && (forall s :: s in db.shipments ==> db.shipments[s].orderId in db.orders)
    && (forall i :: i in db.items ==> db.items[i].shipmentId in db.shipments)
  }

  /**
    The constraints the database enforces on every committed state. In particular every item
    leads, through its shipment and that shipment's order, to a stored customer.
  */
  ghost predicate Valid(db: Db): (b: bool)
    ensures b ==> forall i :: i in db.items ==>
      && db.items[i].shipmentId in db.shipments
      && db.shipments[db.items[i].shipmentId].orderId in db.orders
      && db.orders[db.shipments[db.items[i].shipmentId].orderId].customerId in db.customers
  {
    PrimaryKeys(db) && UniqueUsernames(db.customers) && ForeignKeys(db)
  }

  /** The customer that owns an order, a shipment or an item, by following foreign keys. */
  predicate OrderOwnedBy(db: Db, o: string, customerId: string) {
    o in db.orders && db.orders[o].customerId == customerId
  }

  predicate ShipmentOwnedBy(db: Db, s: string, customerId: string) {
    s in db.shipments && OrderOwnedBy(db, db.shipments[s].orderId, customerId)
  }

  predicate ItemOwnedBy(db: Db, i: nat, customerId: string) {
    i in db.items && ShipmentOwnedBy(db, db.items[i].shipmentId, customerId)
  }

  /** `customer.delete()`: the customer goes, and CASCADE takes its orders, their shipments and their items. */
  function DeleteCustomer(db: Db, customerId: string): (r: Db)
    ensures r.customers.Keys == db.customers.Keys - {customerId}
    ensures forall o :: o in r.orders ==> o in db.orders && r.orders[o].customerId != customerId
    ensures forall s :: s in r.shipments ==> s in db.shipments && r.shipments[s] == db.shipments[s]
    ensures forall i :: i in r.items ==> i in db.items && r.items[i] == db.items[i]
    ensures r.nextItemId == db.nextItemId
  {
    var orders := map o | o in db.orders && !OrderOwnedBy(db, o, customerId) :: db.orders[o];
    var shipments := map s | s in db.shipments && !ShipmentOwnedBy(db, s, customerId) :: db.shipments[s];
    var items := map i | i in db.items && !ItemOwnedBy(db, i, customerId) :: db.items[i];
    Db(db.customers - {customerId}, orders, shipments, items, db.nextItemId)
  }

  /**
    Deleting a customer keeps every other record as it was and leaves no dangling foreign
    key: the cascade takes everything that pointed, directly or not, at the customer.
  */
  lemma CascadeDelete(db: Db, customerId: string)
    requires Valid(db)
    ensures var r := DeleteCustomer(db, customerId);
      && Valid(r)
      && (forall c :: c in r.customers ==> c in db.customers && r.customers[c] == db.customers[c])
      && (forall o :: o in r.orders ==> o in db.orders && r.orders[o] == db.orders[o])
      && (forall s :: s in r.shipments ==> s in db.shipments && r.shipments[s] == db.shipments[s])
      && (forall i :: i in r.items ==> i in db.items && r.items[i] == db.items[i])
  {
    DeleteKeepsForeignKeys(db, customerId);
  }

  /** No record left behind by the cascade points at a deleted one. */
  lemma DeleteKeepsForeignKeys(db: Db, customerId: string)
    requires ForeignKeys(db)
    ensures ForeignKeys(DeleteCustomer(db, customerId))
  {
    var r := DeleteCustomer(db, customerId);
    forall o | o in r.orders ensures r.orders[o].customerId in r.customers {
      assert r.orders[o] == db.orders[o];
    }
    forall s | s in r.shipments ensures r.shipments[s].orderId in r.orders {
      assert r.shipments[s] == db.shipments[s];
    }
    forall i | i in r.items ensures r.items[i].shipmentId in r.shipments {
      assert r.items[i] == db.items[i];
    }
  }

  /**
    Deleting a customer removes exactly that customer, the orders it placed, the shipments of
    those orders and the items of those shipments, and nothing else.
  */
  lemma CascadeDeleteRemoves(db: Db, customerId: string)
    requires Valid(db)
    ensures var r := DeleteCustomer(db, customerId);
      && (forall c :: c in r.customers <==> c in db.customers && c != customerId)
      && (forall o :: o in r.orders <==> o in db.orders && db.orders[o].customerId != customerId)
      && (forall s :: s in r.shipments <==>
            s in db.shipments && db.orders[db.shipments[s].orderId].customerId != customerId)
      && (forall i :: i in r.items <==>
            i in db.items && db.orders[db.shipments[db.items[i].shipmentId].orderId].customerId != customerId)
  {
  }

  /** `Customer.__str__`: "username (customer_id)". */
  function CustomerStr(c: Customer): (s: string)
    ensures |s| == |c.username| + |c.customerId| + 3
    ensures s[..|c.username|] == c.username
    ensures s[|c.username|..|c.username| + 2] == " ("
    ensures s[|c.username| + 2..|s| - 1] == c.customerId
    ensures s[|s| - 1] == ')'
  {
    c.username + " (" + c.customerId + ")"
  }

  /** `Order.__str__` is the order id. */
  function OrderStr(o: Order): (s: string)
    ensures s == o.orderId
  {
    o.orderId
  }

  /** `Shipment.__str__` is the shipment id. */
  function ShipmentStr(s: Shipment): (t: string)
    ensures t == s.shipmentId
  {
    s.shipmentId
  }

  /** In a valid database the text of a stored order or shipment is its key, so it names one record. */
  lemma StrIsKey(db: Db, o: string, o': string, s: string, s': string)
    requires Valid(db)
    requires o in db.orders && o' in db.orders && s in db.shipments && s' in db.shipments
    ensures OrderStr(db.orders[o]) == o
    ensures OrderStr(db.orders[o]) == OrderStr(db.orders[o']) ==> o == o'
    ensures ShipmentStr(db.shipments[s]) == s
    ensures ShipmentStr(db.shipments[s]) == ShipmentStr(db.shipments[s']) ==> s == s'
  {
  }

  /** `ShipmentItem.__str__`: "item_name (quantity)", the quantity printed as Python's `str(int)`. */
  function ItemStr(i: ShipmentItem): (s: string)
    ensures |s| == |i.itemName| + 2 + |Decimal.IntToString(i.quantity)| + 1
    ensures s[..|i.itemName|] == i.itemName
    ensures s[|i.itemName|..|i.itemName| + 2] == " ("
    ensures s[|s| - 1] == ')'
  {
    i.itemName + " (" + Decimal.IntToString(i.quantity) + ")"
  }

  /** The quantity can be read back from the text between the item name's " (" and the final ")". */
  lemma ItemStrQuantity(i: ShipmentItem)
    ensures var s := ItemStr(i);
      && |s| > |i.itemName| + 2
      && s[..|i.itemName|] == i.itemName
      && s[|s| - 1] == ')'
      && Decimal.ParseInt(s[|i.itemName| + 2..|s| - 1]) == Some(i.quantity)
  {
    var s := ItemStr(i);
    assert s[|i.itemName| + 2..|s| - 1] == Decimal.IntToString(i.quantity);
    Decimal.IntRoundTrip(i.quantity);
  }
}
