/**
  The `import_data` management command: customers from one CSV file, then orders,
  shipments and items from another, each file in one transaction.

  Rows are given as sequences of records (the CSV reading is not modelled), `strptime` is an
  abstract parser supplied in `Parsers`, and a raised exception is an `Err` result. Because
  each import runs under `transaction.atomic`, an `Err` leaves the database as it was: the
  methods take the database as a value and hand back a new one only on success.
*/
module ImportData {
  import opened Wrappers
  import opened Models
  import Decimal

  /** A row of the customer file (columns "Customer ID", "Username"). */
  datatype CustomerRow = CustomerRow(customerId: string, username: string)

  /** A row of the order file, one cell per column the command reads. */
  datatype OrderRow = OrderRow(
    customerId: string,
    orderId: string,
    orderDate: string,
    shipmentId: string,
    trackingNumber: string,
    warehouseId: string,
    fulfillmentRegion: string,
    zipCode: string,
    addressId: string,
    fulfillmentType: string,
    shipDate: string,
    estimatedDelivery: string,
    actualDeliveryDate: string,
    currentStatus: string,
    lastScanLocation: string,
    scanTimestamp: string,
    deliveryAttemptStatus: string,
    deliveryFailureStatus: string,
    packageItems: string,
    quantity: string)

  /** `strptime` with '%Y-%m-%d' and with '%Y-%m-%d %H:%M:%S'; None where it raises ValueError. */
  datatype Parsers = Parsers(date: string -> Option<Date>, timestamp: string -> Option<DateTime>)

  /** The exceptions that abort an import (and roll back its transaction). */
  datatype ImportError =
    | ValueError(column: string, cell: string)       // strptime or int() rejected a cell
    | DuplicateKey(column: string, key: string)      // IntegrityError: primary key or unique value taken
    | NotNull(column: string)                        // IntegrityError: None in a required column
    | MissingForeignKey(column: string, key: string) // IntegrityError: reference to a row that does not exist

  // =======================================================================================
  // import_customers

  datatype CustomerImport = CustomerImport(db: Db, count: nat)

  /** The record `Customer.objects.create(customer_id=..., username=...)` inserts. */
  function NewCustomer(row: CustomerRow): Customer {
    Customer(row.customerId, row.username, None, None)
  }

  predicate UsernameTaken(customers: map<string, Customer>, username: string) {
    exists c :: c in customers && customers[c].username == username
  }

  /** One iteration of the loop of `import_customers`. */
  function CustomerStep(st: CustomerImport, row: CustomerRow): Result<CustomerImport, ImportError> {
    if row.customerId in st.db.customers then Err(DuplicateKey("customer_id", row.customerId))
    else if UsernameTaken(st.db.customers, row.username) then Err(DuplicateKey("username", row.username))
    else Ok(CustomerImport(st.db.(customers := st.db.customers[row.customerId := NewCustomer(row)]), st.count + 1))
  }

  function CustomersFrom(st: CustomerImport, rows: seq<CustomerRow>): Result<CustomerImport, ImportError>
    decreases |rows|
  {
    if rows == [] then Ok(st)
    else match CustomerStep(st, rows[0])
      case Err(e) => Err(e)
      case Ok(next) => CustomersFrom(next, rows[1..])
  }

  /** What `import_customers` does to `db` with the rows of the customer file. */
  function ImportCustomersSpec(db: Db, rows: seq<CustomerRow>): Result<CustomerImport, ImportError> {
    CustomersFrom(CustomerImport(db, 0), rows)
  }

  /** The rows can all be inserted: fresh, pairwise different ids and usernames. */
  ghost predicate CustomersInsertable(db: Db, rows: seq<CustomerRow>) {
    && (forall i :: 0 <= i < |rows| ==>
          rows[i].customerId !in db.customers && !UsernameTaken(db.customers, rows[i].username))
    && (forall i, j :: 0 <= i < j < |rows| ==>
          rows[i].customerId != rows[j].customerId && rows[i].username != rows[j].username)
  }

  function CustomerIds(rows: seq<CustomerRow>): set<string> {
    set r | r in rows :: r.customerId
  }

  /** `import_customers`: the loop, row by row, raising at the first row that cannot be inserted. */
  method ImportCustomers(db: Db, rows: seq<CustomerRow>) returns (res: Result<CustomerImport, ImportError>)
    ensures res == ImportCustomersSpec(db, rows)
  {
    var customers := db.customers;
    var count := 0;
    for i := 0 to |rows|
      invariant ImportCustomersSpec(db, rows) == CustomersFrom(CustomerImport(db.(customers := customers), count), rows[i..])
    {
      var row := rows[i];
      assert rows[i..][0] == row && rows[i..][1..] == rows[i + 1..];
      if row.customerId in customers {
        return Err(DuplicateKey("customer_id", row.customerId));
      }
      if UsernameTaken(customers, row.username) {
        return Err(DuplicateKey("username", row.username));
      }
      customers := customers[row.customerId := NewCustomer(row)];
      count := count + 1;
    }
    assert rows[|rows|..] == [];
    res := Ok(CustomerImport(db.(customers := customers), count));
  }

  /**
    What `import_customers` does: one Customer per row and a count equal to the number of
    rows, or, when some row's id or username is already taken, an IntegrityError and no
    change at all.
  */
  lemma ImportCustomersEffect(db: Db, rows: seq<CustomerRow>)
    ensures var res := ImportCustomersSpec(db, rows);
      && (res.Err? <==> !CustomersInsertable(db, rows))
      && (res.Ok? ==>
        && res.value.count == |rows|
        && res.value.db == db.(customers := res.value.db.customers)
        && res.value.db.customers.Keys == db.customers.Keys + CustomerIds(rows)
        && (forall c :: c in db.customers ==> res.value.db.customers[c] == db.customers[c])
        && (forall i :: 0 <= i < |rows| ==> res.value.db.customers[rows[i].customerId] == NewCustomer(rows[i]))
        && (Valid(db) ==> Valid(res.value.db)))
  {
    assert rows[..0] == [] && rows[0..] == rows && rows[..|rows|] == rows;
    assert CustomerIds([]) == {};
    CustomersFoldInv(db, rows, 0, db.customers);
  }

  /** From the invariant after `i` rows, the rest of the fold ends as the whole file allows. */
  lemma {:induction false} CustomersFoldInv(db: Db, rows: seq<CustomerRow>, i: nat, customers: map<string, Customer>)
    requires i <= |rows| && CustomersInv(db, rows, i, customers)
    ensures var r := CustomersFrom(CustomerImport(db.(customers := customers), i), rows[i..]);
      && (r.Err? <==> !CustomersInsertable(db, rows))
      && (r.Ok? ==> r.value.count == |rows| && r.value.db == db.(customers := r.value.db.customers)
                    && CustomersInv(db, rows, |rows|, r.value.db.customers))
    decreases |rows| - i
  {
    var st := CustomerImport(db.(customers := customers), i);
    if i == |rows| {
      assert rows[i..] == [] && rows[..i] == rows;
      assert CustomersInsertable(db, rows);
    } else {
      var row := rows[i];
      assert rows[i..][0] == row && rows[i..][1..] == rows[i + 1..];
      if row.customerId in customers || UsernameTaken(customers, row.username) {
        assert CustomerStep(st, row).Err?;
        assert CustomersFrom(st, rows[i..]).Err?;
        ShowNotInsertable(db, rows, i, customers);
      } else {
        var next := customers[row.customerId := NewCustomer(row)];
        assert CustomerStep(st, row) == Ok(CustomerImport(db.(customers := next), i + 1));
        assert CustomersFrom(st, rows[i..]) == CustomersFrom(CustomerImport(db.(customers := next), i + 1), rows[i + 1..]);
        InsertKeepsInv(db, rows, i, customers);
        CustomersFoldInv(db, rows, i + 1, next);
      }
    }
  }

  /** The loop invariant of `import_customers` after the first `i` rows. */
  ghost predicate CustomersInv(db: Db, rows: seq<CustomerRow>, i: nat, customers: map<string, Customer>)
    requires i <= |rows|
  {
    && CustomersInsertable(db, rows[..i])
    && CustomersStored(db, rows, i, customers)
    && (Valid(db) ==> Valid(db.(customers := customers)))
  }

  /** The customers after the first `i` rows: the old ones unchanged, one new one per row. */
  ghost predicate CustomersStored(db: Db, rows: seq<CustomerRow>, i: nat, customers: map<string, Customer>)
    requires i <= |rows|
  {
    && customers.Keys == db.customers.Keys + CustomerIds(rows[..i])
    && (forall c :: c in db.customers ==> customers[c] == db.customers[c])
    && (forall j :: 0 <= j < i ==> customers[rows[j].customerId] == NewCustomer(rows[j]))
  }

  lemma InsertKeepsInv(db: Db, rows: seq<CustomerRow>, i: nat, customers: map<string, Customer>)
    requires i < |rows| && CustomersInv(db, rows, i, customers)
    requires rows[i].customerId !in customers && !UsernameTaken(customers, rows[i].username)
    ensures CustomersInv(db, rows, i + 1, customers[rows[i].customerId := NewCustomer(rows[i])])
  {
    ShowStillInsertable(db, rows, i, customers);
    InsertKeepsStored(db, rows, i, customers);
    if Valid(db) {
      InsertKeepsValid(db.(customers := customers), rows[i]);
    }
  }

  lemma InsertKeepsStored(db: Db, rows: seq<CustomerRow>, i: nat, customers: map<string, Customer>)
    requires i < |rows| && CustomersStored(db, rows, i, customers)
    requires rows[i].customerId !in customers
    ensures CustomersStored(db, rows, i + 1, customers[rows[i].customerId := NewCustomer(rows[i])])
  {
    var row := rows[i];
    var next := customers[row.customerId := NewCustomer(row)];
    assert rows[..i + 1] == rows[..i] + [row];
    assert CustomerIds(rows[..i + 1]) == CustomerIds(rows[..i]) + {row.customerId};
    forall j | 0 <= j < i + 1 ensures next[rows[j].customerId] == NewCustomer(rows[j]) {
      if j < i {
        assert rows[j] in rows[..i];
      }
    }
  }

  /** Inserting a customer whose id and username are free keeps the constraints. */
  lemma InsertKeepsValid(db: Db, row: CustomerRow)
    requires Valid(db)
    requires row.customerId !in db.customers && !UsernameTaken(db.customers, row.username)
    ensures Valid(db.(customers := db.customers[row.customerId := NewCustomer(row)]))
  {
    var next := db.customers[row.customerId := NewCustomer(row)];
    assert forall c :: c in db.customers ==> db.customers[c].username != row.username;
    forall a, b | a in next && b in next && next[a].username == next[b].username ensures a == b {
      if a != row.customerId && b != row.customerId {
        assert db.customers[a].username == db.customers[b].username;
      }
    }
  }

  /** A row whose id or username is taken at its turn makes the whole file not insertable. */
  lemma ShowNotInsertable(db: Db, rows: seq<CustomerRow>, i: nat, customers: map<string, Customer>)
    requires i < |rows|
    requires CustomersStored(db, rows, i, customers)
    requires rows[i].customerId in customers || UsernameTaken(customers, rows[i].username)
    ensures !CustomersInsertable(db, rows)
  {
    if rows[i].customerId in customers && rows[i].customerId !in db.customers {
      var r :| r in rows[..i] && r.customerId == rows[i].customerId;
      var j :| 0 <= j < i && rows[..i][j] == r;
      assert rows[j].customerId == rows[i].customerId;
    } else if rows[i].customerId !in customers {
      var c :| c in customers && customers[c].username == rows[i].username;
      if c !in db.customers {
        var r :| r in rows[..i] && r.customerId == c;
        var j :| 0 <= j < i && rows[..i][j] == r;
        assert rows[j].username == rows[i].username;
      }
    }
  }

  /** A row that passes both checks keeps the prefix insertable and the usernames unique. */
  lemma ShowStillInsertable(db: Db, rows: seq<CustomerRow>, i: nat, customers: map<string, Customer>)
    requires i < |rows|
    requires CustomersInsertable(db, rows[..i])
    requires CustomersStored(db, rows, i, customers)
    requires rows[i].customerId !in customers && !UsernameTaken(customers, rows[i].username)
    ensures CustomersInsertable(db, rows[..i + 1])
  {
    var row := rows[i];
    var pre, all := rows[..i], rows[..i + 1];
    forall c | c in db.customers ensures db.customers[c].username != row.username {
      assert customers[c] == db.customers[c];
    }
    forall j | 0 <= j < i ensures rows[j].customerId != row.customerId && rows[j].username != row.username {
      assert rows[j] == pre[j] && rows[j] in pre;
      assert rows[j].customerId in customers;
      assert customers[rows[j].customerId].username == rows[j].username;
    }
    forall k | 0 <= k < i + 1
      ensures all[k].customerId !in db.customers && !UsernameTaken(db.customers, all[k].username)
    {
      if k < i { assert all[k] == pre[k]; }
    }
    forall k, l | 0 <= k < l < i + 1
      ensures all[k].customerId != all[l].customerId && all[k].username != all[l].username
    {
      assert all[k] == rows[k] && all[l] == rows[l];
      if l < i { assert all[k] == pre[k] && all[l] == pre[l]; }
    }
  }

  // =======================================================================================
  // import_orders: cell parsing

  /** A date cell: empty gives None, anything else goes through strptime. */
  function DateCell(column: string, cell: string, p: Parsers): (r: Result<Option<Date>, ImportError>)
    ensures cell == "" ==> r == Ok(None)
    ensures cell != "" ==> (r.Ok? <==> p.date(cell).Some?)
    ensures cell != "" && r.Ok? ==> r.value == p.date(cell)
  {
    if cell == "" then Ok(None)
    else match p.date(cell)
      case Some(d) => Ok(Some(d))
      case None => Err(ValueError(column, cell))
  }

  /** The "Scan Timestamp" cell: empty gives None, anything else goes through strptime. */
  function TimestampCell(cell: string, p: Parsers): (r: Result<Option<DateTime>, ImportError>)
    ensures cell == "" ==> r == Ok(None)
    ensures cell != "" ==> (r.Ok? <==> p.timestamp(cell).Some?)
    ensures cell != "" && r.Ok? ==> r.value == p.timestamp(cell)
  {
    if cell == "" then Ok(None)
    else match p.timestamp(cell)
      case Some(t) => Ok(Some(t))
      case None => Err(ValueError("Scan Timestamp", cell))
  }

  /** Python's `cell or None` on a string: the empty string becomes None. */
  function EmptyToNone(cell: string): (r: Option<string>)
    ensures r.None? <==> cell == ""
    ensures r.Some? ==> r.value == cell
  {
    if cell == "" then None else Some(cell)
  }

  /**
    The Shipment a row introduces. The four date cells are parsed first; a None in the
    required `ship_date` or `estimated_delivery` column is then refused by the insert.
  */
  function BuildShipment(row: OrderRow, p: Parsers): (r: Result<Shipment, ImportError>)
    ensures r.Ok? <==>
      && row.shipDate != "" && p.date(row.shipDate).Some?
      && row.estimatedDelivery != "" && p.date(row.estimatedDelivery).Some?
      && (row.actualDeliveryDate == "" || p.date(row.actualDeliveryDate).Some?)
      && (row.scanTimestamp == "" || p.timestamp(row.scanTimestamp).Some?)
    ensures row.shipDate == "" || row.estimatedDelivery == "" ==> r.Err?
    ensures r.Err? ==> r.error.ValueError? || r.error.NotNull?
    ensures (&& row.shipDate == ""
             && (row.actualDeliveryDate == "" || p.date(row.actualDeliveryDate).Some?)
             && (row.scanTimestamp == "" || p.timestamp(row.scanTimestamp).Some?)
             && (row.estimatedDelivery == "" || p.date(row.estimatedDelivery).Some?)) ==>
      r == Err(NotNull("ship_date"))
    ensures r.Ok? ==> r.value.shipmentId == row.shipmentId && r.value.orderId == row.orderId
    ensures r.Ok? ==> Some(r.value.shipDate) == p.date(row.shipDate)
    ensures r.Ok? ==> Some(r.value.estimatedDelivery) == p.date(row.estimatedDelivery)
    ensures r.Ok? ==> r.value.actualDeliveryDate == (if row.actualDeliveryDate == "" then None else p.date(row.actualDeliveryDate))
    ensures r.Ok? ==> r.value.scanTimestamp == (if row.scanTimestamp == "" then None else p.timestamp(row.scanTimestamp))
    ensures r.Ok? ==>
      && r.value.trackingNumber == row.trackingNumber && r.value.warehouseId == row.warehouseId
      && r.value.fulfillmentRegion == row.fulfillmentRegion && r.value.zipCode == row.zipCode
      && r.value.addressId == row.addressId && r.value.fulfillmentType == row.fulfillmentType
      && r.value.currentStatus == row.currentStatus && r.value.lastScanLocation == row.lastScanLocation
    ensures r.Ok? ==> r.value.deliveryAttemptStatus == EmptyToNone(row.deliveryAttemptStatus)
    ensures r.Ok? ==> r.value.deliveryFailureStatus == EmptyToNone(row.deliveryFailureStatus)
  {
    match DateCell("Ship Date", row.shipDate, p)
    case Err(e) => Err(e)
    case Ok(shipDate) =>
      match DateCell("Estimated Delivery", row.estimatedDelivery, p)
      case Err(e) => Err(e)
      case Ok(estimated) =>
        match DateCell("Actual Delivery Date", row.actualDeliveryDate, p)
        case Err(e) => Err(e)
        case Ok(actual) =>
          match TimestampCell(row.scanTimestamp, p)
          case Err(e) => Err(e)
          case Ok(scan) =>
            if shipDate.None? then Err(NotNull("ship_date"))
            else if estimated.None? then Err(NotNull("estimated_delivery"))
            else Ok(Shipment(row.shipmentId, row.orderId, row.trackingNumber, row.warehouseId,
              row.fulfillmentRegion, row.zipCode, row.addressId, row.fulfillmentType,
              shipDate.value, estimated.value, actual, row.currentStatus, row.lastScanLocation,
              scan, EmptyToNone(row.deliveryAttemptStatus), EmptyToNone(row.deliveryFailureStatus)))
  }

  /** The ShipmentItem a row introduces; `int(row['Quantity'])` may raise. */
  function BuildItem(row: OrderRow): (r: Result<ShipmentItem, ImportError>)
    ensures r.Ok? <==> Decimal.ParseInt(row.quantity).Some?
    ensures r.Ok? ==> r.value == ShipmentItem(row.shipmentId, row.packageItems, Decimal.ParseInt(row.quantity).value)
  {
    match Decimal.ParseInt(row.quantity)
    case Some(q) => Ok(ShipmentItem(row.shipmentId, row.packageItems, q))
    case None => Err(ValueError("Quantity", row.quantity))
  }

  // =======================================================================================
  // import_orders: the loop as a fold

  /** The loop state: the database, the two "already processed" sets and the three counters. */
  datatype OrdersImport = OrdersImport(
    db: Db,
    processedOrders: set<string>,
    processedShipments: set<string>,
    ordersCount: nat,
    shipmentsCount: nat,
    itemsCount: nat)

  /** `get_or_create` the row's order, unless its order id was processed already. */
  function OrderPart(st: OrdersImport, row: OrderRow, p: Parsers): (r: Result<OrdersImport, ImportError>)
    ensures r.Ok? ==> r.value.processedOrders == st.processedOrders + {row.orderId}
    ensures r.Ok? ==> r.value.db == st.db.(orders := r.value.db.orders)
    ensures r.Ok? ==> r.value.processedShipments == st.processedShipments
    ensures r.Ok? ==> r.value.shipmentsCount == st.shipmentsCount && r.value.itemsCount == st.itemsCount
    ensures r.Err? ==> row.orderId !in st.processedOrders
  {
    if row.orderId in st.processedOrders then Ok(st)
    else match p.date(row.orderDate)   // the defaults are evaluated even when the order exists
      case None => Err(ValueError("Order Date", row.orderDate))
      case Some(d) =>
        if row.orderId in st.db.orders then
          Ok(st.(processedOrders := st.processedOrders + {row.orderId}))
        else if row.customerId !in st.db.customers then
          Err(MissingForeignKey("customer_id", row.customerId))
        else
          Ok(st.(db := st.db.(orders := st.db.orders[row.orderId := Order(row.orderId, row.customerId, d)]),
                 processedOrders := st.processedOrders + {row.orderId},
                 ordersCount := st.ordersCount + 1))
  }

  /** Create the row's shipment and its one item, unless its shipment id was processed already. */
  function ShipmentPart(st: OrdersImport, row: OrderRow, p: Parsers): (r: Result<OrdersImport, ImportError>)
    ensures r.Ok? ==> r.value.processedShipments == st.processedShipments + {row.shipmentId}
    ensures r.Ok? ==> r.value.db.customers == st.db.customers && r.value.db.orders == st.db.orders
    ensures r.Ok? ==> r.value.processedOrders == st.processedOrders && r.value.ordersCount == st.ordersCount
    ensures r.Err? ==> row.shipmentId !in st.processedShipments
  {
    if row.shipmentId in st.processedShipments then Ok(st)
    else match BuildShipment(row, p)
      case Err(e) => Err(e)
      case Ok(shipment) =>
        if row.shipmentId in st.db.shipments then Err(DuplicateKey("shipment_id", row.shipmentId))
        else match BuildItem(row)
          case Err(e) => Err(e)
          case Ok(item) =>
            Ok(st.(db := st.db.(shipments := st.db.shipments[row.shipmentId := shipment],
                                items := st.db.items[st.db.nextItemId := item],
                                nextItemId := st.db.nextItemId + 1),
                   processedShipments := st.processedShipments + {row.shipmentId},
                   shipmentsCount := st.shipmentsCount + 1,
                   itemsCount := st.itemsCount + 1))
  }

  /** One iteration of the loop of `import_orders`. */
  function OrderStep(st: OrdersImport, row: OrderRow, p: Parsers): Result<OrdersImport, ImportError> {
    match OrderPart(st, row, p)
    case Err(e) => Err(e)
    case Ok(next) => ShipmentPart(next, row, p)
  }

  function OrdersFrom(st: OrdersImport, rows: seq<OrderRow>, p: Parsers): Result<OrdersImport, ImportError>
    decreases |rows|
  {
    if rows == [] then Ok(st)
    else match OrderStep(st, rows[0], p)
      case Err(e) => Err(e)
      case Ok(next) => OrdersFrom(next, rows[1..], p)
  }

  /** What `import_orders` does to `db` with the rows of the order file. */
  function ImportOrdersSpec(db: Db, rows: seq<OrderRow>, p: Parsers): Result<OrdersImport, ImportError> {
    OrdersFrom(OrdersImport(db, {}, {}, 0, 0, 0), rows, p)
  }

  // =======================================================================================
  // import_orders: what the rows determine

  function OrderIds(rows: seq<OrderRow>): set<string> {
    set r | r in rows :: r.orderId
  }

  function ShipmentIds(rows: seq<OrderRow>): set<string> {
    set r | r in rows :: r.shipmentId
  }

  lemma OrderIdsSnoc(rows: seq<OrderRow>, row: OrderRow)
    ensures OrderIds(rows + [row]) == OrderIds(rows) + {row.orderId}
  {
    assert forall r :: r in rows + [row] <==> r in rows || r == row;
  }

  lemma ShipmentIdsSnoc(rows: seq<OrderRow>, row: OrderRow)
    ensures ShipmentIds(rows + [row]) == ShipmentIds(rows) + {row.shipmentId}
  {
    assert forall r :: r in rows + [row] <==> r in rows || r == row;
  }

  lemma OrderIdsCons(rows: seq<OrderRow>)
    requires rows != []
    ensures OrderIds(rows) == {rows[0].orderId} + OrderIds(rows[1..])
  {
    assert rows == [rows[0]] + rows[1..];
    assert forall r :: r in rows <==> r == rows[0] || r in rows[1..];
  }

  lemma ShipmentIdsCons(rows: seq<OrderRow>)
    requires rows != []
    ensures ShipmentIds(rows) == {rows[0].shipmentId} + ShipmentIds(rows[1..])
  {
    assert rows == [rows[0]] + rows[1..];
    assert forall r :: r in rows <==> r == rows[0] || r in rows[1..];
  }

  /** The first row that names order `o`, if any: the one whose cells `get_or_create` uses. */
  function FirstWithOrder(rows: seq<OrderRow>, o: string): Option<OrderRow>
    decreases |rows|
  {
    if rows == [] then None
    else match FirstWithOrder(rows[..|rows| - 1], o)
      case Some(r) => Some(r)
      case None => if rows[|rows| - 1].orderId == o then Some(rows[|rows| - 1]) else None
  }

  /** The first row that names shipment `s`, if any: the one that creates it. */
  function FirstWithShipment(rows: seq<OrderRow>, s: string): Option<OrderRow>
    decreases |rows|
  {
    if rows == [] then None
    else match FirstWithShipment(rows[..|rows| - 1], s)
      case Some(r) => Some(r)
      case None => if rows[|rows| - 1].shipmentId == s then Some(rows[|rows| - 1]) else None
  }

  /** There is a first row for exactly the ids the file names, and it names that id. */
  lemma {:induction false} FirstWithFound(rows: seq<OrderRow>, id: string)
    ensures FirstWithOrder(rows, id).Some? <==> id in OrderIds(rows)
    ensures FirstWithOrder(rows, id).Some? ==> FirstWithOrder(rows, id).value in rows && FirstWithOrder(rows, id).value.orderId == id
    ensures FirstWithShipment(rows, id).Some? <==> id in ShipmentIds(rows)
    ensures FirstWithShipment(rows, id).Some? ==> FirstWithShipment(rows, id).value in rows && FirstWithShipment(rows, id).value.shipmentId == id
    decreases |rows|
  {
    if rows != [] {
      var init := rows[..|rows| - 1];
      assert rows == init + [rows[|rows| - 1]];
      FirstWithFound(init, id);
      OrderIdsSnoc(init, rows[|rows| - 1]);
      ShipmentIdsSnoc(init, rows[|rows| - 1]);
    }
  }

  /** The order `row` was created from: its id, its customer and its parsed date. */
  ghost predicate OrderFromRow(first: Option<OrderRow>, order: Order, p: Parsers) {
    && first.Some?
    && order.customerId == first.value.customerId
    && p.date(first.value.orderDate) == Some(order.orderDate)
  }

  /** The shipment `row` was created from. */
  ghost predicate ShipmentFromRow(first: Option<OrderRow>, shipment: Shipment, p: Parsers) {
    first.Some? && BuildShipment(first.value, p) == Ok(shipment)
  }

  /** The number of orders the rows create: first mentions of an order id that is not stored yet. */
  function NewOrderCount(db: Db, rows: seq<OrderRow>): nat
    decreases |rows|
  {
    if rows == [] then 0
    else
      var init := rows[..|rows| - 1];
      var last := rows[|rows| - 1];
      NewOrderCount(db, init) + (if last.orderId in OrderIds(init) || last.orderId in db.orders then 0 else 1)
  }

  /** That number is the number of order ids of the file that were not stored before. */
  lemma {:induction false} NewOrderCountIsDifference(db: Db, rows: seq<OrderRow>)
    ensures NewOrderCount(db, rows) == |OrderIds(rows) - db.orders.Keys|
    decreases |rows|
  {
    if rows != [] {
      var init := rows[..|rows| - 1];
      var last := rows[|rows| - 1];
      assert rows == init + [last];
      NewOrderCountIsDifference(db, init);
      OrderIdsSnoc(init, last);
      AddToDifference(OrderIds(init), db.orders.Keys, last.orderId);
    }
  }

  /** Adding one element to a set adds one to its difference with another set exactly when it is in neither. */
  lemma AddToDifference<T>(a: set<T>, b: set<T>, x: T)
    ensures |(a + {x}) - b| == if x in a || x in b then |a - b| else |a - b| + 1
  {
    if x in a || x in b {
      assert (a + {x}) - b == a - b;
    } else {
      assert (a + {x}) - b == (a - b) + {x};
    }
  }

  /** The rows that introduce a shipment, in file order: the first row of each shipment id. */
  function FirstOccurrences(rows: seq<OrderRow>): seq<OrderRow>
    decreases |rows|
  {
    if rows == [] then []
    else
      var init := rows[..|rows| - 1];
      var last := rows[|rows| - 1];
      FirstOccurrences(init) + (if last.shipmentId in ShipmentIds(init) then [] else [last])
  }

  /**
    The first occurrences name every shipment id of the file exactly once, so there are as
    many of them as there are distinct shipment ids.
  */
  lemma {:induction false} FirstOccurrencesUnique(rows: seq<OrderRow>)
    ensures FirstOccurrencesDistinct(rows)
    decreases |rows|
  {
    if rows != [] {
      var init := rows[..|rows| - 1];
      assert rows == init + [rows[|rows| - 1]];
      FirstOccurrencesUnique(init);
      FirstOccurrencesStep(init, rows[|rows| - 1]);
    }
  }

  /** One shipment id per first occurrence, each of them named by the file and no two the same. */
  ghost predicate FirstOccurrencesDistinct(rows: seq<OrderRow>) {
    var f := FirstOccurrences(rows);
    && |f| == |ShipmentIds(rows)|
    && (forall k :: 0 <= k < |f| ==> f[k].shipmentId in ShipmentIds(rows))
    && (forall j, k :: 0 <= j < k < |f| ==> f[j].shipmentId != f[k].shipmentId)
  }

  lemma FirstOccurrencesStep(init: seq<OrderRow>, last: OrderRow)
    requires FirstOccurrencesDistinct(init)
    ensures FirstOccurrencesDistinct(init + [last])
  {
    var all := init + [last];
    Snoc(init, last);
    ShipmentIdsSnoc(init, last);
    var fi := FirstOccurrences(init);
    if last.shipmentId !in ShipmentIds(init) {
      assert FirstOccurrences(all) == fi + [last];
      assert |ShipmentIds(all)| == |ShipmentIds(init)| + 1;
      AppendFreshDistinct(fi, last, ShipmentIds(init));
    } else {
      assert FirstOccurrences(all) == fi;
      assert ShipmentIds(all) == ShipmentIds(init);
    }
  }

  /** Appending a row with a new shipment id keeps the shipment ids pairwise different. */
  lemma AppendFreshDistinct(f: seq<OrderRow>, last: OrderRow, ids: set<string>)
    requires forall k :: 0 <= k < |f| ==> f[k].shipmentId in ids
    requires forall j, k :: 0 <= j < k < |f| ==> f[j].shipmentId != f[k].shipmentId
    requires last.shipmentId !in ids
    ensures var g := f + [last]; forall j, k :: 0 <= j < k < |g| ==> g[j].shipmentId != g[k].shipmentId
  {
    var g := f + [last];
    forall j, k | 0 <= j < k < |g| ensures g[j].shipmentId != g[k].shipmentId {
      assert g[j] == f[j];
      if k < |f| {
        assert g[k] == f[k];
      }
    }
  }

  // =======================================================================================
  // import_orders: the state after a prefix of the file

  /** The last element and the rest of a sequence that was extended by one. */
  lemma Snoc<T>(init: seq<T>, last: T)
    ensures var all := init + [last]; all[..|all| - 1] == init && all[|all| - 1] == last
  {
  }

  lemma PrefixSnoc<T>(rows: seq<T>, i: nat)
    requires i < |rows|
    ensures rows[..i + 1] == rows[..i] + [rows[i]]
  {
  }

  /** The orders after the rows `done`: one per order id, each created from the first row naming it. */
  ghost predicate OrdersImported(db: Db, done: seq<OrderRow>, p: Parsers,
                                 orders: map<string, Order>, processed: set<string>, count: nat) {
    && processed == OrderIds(done)
    && count == NewOrderCount(db, done)
    && orders.Keys == db.orders.Keys + OrderIds(done)
    && (forall o :: o in db.orders ==> orders[o] == db.orders[o])
    && OrdersBuilt(db, done, p, orders)
  }

  /** Each order the rows `done` created, built from the first row naming it. */
  ghost predicate OrdersBuilt(db: Db, done: seq<OrderRow>, p: Parsers, orders: map<string, Order>) {
    forall o :: o in OrderIds(done) && o !in db.orders ==> o in orders && OrderFromRow(FirstWithOrder(done, o), orders[o], p)
  }

  /** The shipments after the rows `done`: one new one per shipment id, built from the first row naming it. */
  ghost predicate ShipmentsImported(db: Db, done: seq<OrderRow>, p: Parsers,
                                    shipments: map<string, Shipment>, processed: set<string>, count: nat) {
    && processed == ShipmentIds(done)
    && count == |FirstOccurrences(done)|
    && db.shipments.Keys !! ShipmentIds(done)
    && shipments.Keys == db.shipments.Keys + ShipmentIds(done)
    && (forall s :: s in db.shipments ==> shipments[s] == db.shipments[s])
    && ShipmentsBuilt(done, p, shipments)
  }

  /** Each shipment the rows `done` created, built from the first row naming it. */
  ghost predicate ShipmentsBuilt(done: seq<OrderRow>, p: Parsers, shipments: map<string, Shipment>) {
    forall s :: s in ShipmentIds(done) ==> s in shipments && ShipmentFromRow(FirstWithShipment(done, s), shipments[s], p)
  }

  /** The items after the rows `done`: numbered on from `nextItemId`, one per first occurrence, in file order. */
  ghost predicate ItemsImported(db: Db, done: seq<OrderRow>, items: map<nat, ShipmentItem>, nextItemId: nat, count: nat) {
    var first := FirstOccurrences(done);
    && count == |first|
    && nextItemId == db.nextItemId + |first|
    && (forall k :: k in items <==> k in db.items || db.nextItemId <= k < nextItemId)
    && (forall k :: k in db.items ==> items[k] == db.items[k])
    && (forall k :: 0 <= k < |first| ==> BuildItem(first[k]) == Ok(items[db.nextItemId + k]))
  }

  /** A row whose order id was processed already leaves the orders as they were. */
  lemma OrderSeen(db: Db, done: seq<OrderRow>, row: OrderRow, p: Parsers,
                  orders: map<string, Order>, processed: set<string>, count: nat)
    requires OrdersImported(db, done, p, orders, processed, count) && row.orderId in processed
    ensures OrdersImported(db, done + [row], p, orders, processed, count)
  {
    var all := done + [row];
    OrderIdsSnoc(done, row);
    Snoc(done, row);
    FirstWithFound(done, row.orderId);
  }

  /** A row naming an order stored before the import only marks it processed. */
  lemma OrderFound(db: Db, done: seq<OrderRow>, row: OrderRow, p: Parsers,
                   orders: map<string, Order>, processed: set<string>, count: nat)
    requires OrdersImported(db, done, p, orders, processed, count) && row.orderId in db.orders
    ensures OrdersImported(db, done + [row], p, orders, processed + {row.orderId}, count)
  {
    var all := done + [row];
    OrderIdsSnoc(done, row);
    Snoc(done, row);
  }

  /** A row naming a new order creates it from its own cells and counts it. */
  lemma OrderCreated(db: Db, done: seq<OrderRow>, row: OrderRow, p: Parsers, d: Date,
                     orders: map<string, Order>, processed: set<string>, count: nat)
    requires OrdersImported(db, done, p, orders, processed, count)
    requires row.orderId !in orders && p.date(row.orderDate) == Some(d)
    ensures OrdersImported(db, done + [row], p, orders[row.orderId := Order(row.orderId, row.customerId, d)],
                           processed + {row.orderId}, count + 1)
  {
    var all := done + [row];
    var next := orders[row.orderId := Order(row.orderId, row.customerId, d)];
    OrderIdsSnoc(done, row);
    Snoc(done, row);
    assert NewOrderCount(db, all) == count + 1;
    assert row.orderId !in OrderIds(done) && row.orderId !in db.orders;
    OrderBuiltFromRow(db, done, row, p, d, orders);
  }

  /** The new order is built from its row; every other order keeps the row it came from. */
  lemma OrderBuiltFromRow(db: Db, done: seq<OrderRow>, row: OrderRow, p: Parsers, d: Date, orders: map<string, Order>)
    requires OrdersBuilt(db, done, p, orders)
    requires row.orderId !in OrderIds(done) && p.date(row.orderDate) == Some(d)
    ensures OrdersBuilt(db, done + [row], p, orders[row.orderId := Order(row.orderId, row.customerId, d)])
  {
    var all := done + [row];
    var next := orders[row.orderId := Order(row.orderId, row.customerId, d)];
    OrderIdsSnoc(done, row);
    Snoc(done, row);
    forall o | o in OrderIds(all) && o !in db.orders ensures o in next && OrderFromRow(FirstWithOrder(all, o), next[o], p) {
      if o == row.orderId {
        FirstWithFound(done, o);
        assert FirstWithOrder(all, o) == Some(row);
      } else {
        assert FirstWithOrder(all, o) == FirstWithOrder(done, o);
      }
    }
  }

  lemma OrderPartOrders(db: Db, done: seq<OrderRow>, st: OrdersImport, row: OrderRow, p: Parsers)
    requires OrdersImported(db, done, p, st.db.orders, st.processedOrders, st.ordersCount)
    requires OrderPart(st, row, p).Ok?
    ensures var next := OrderPart(st, row, p).value;
      && OrdersImported(db, done + [row], p, next.db.orders, next.processedOrders, next.ordersCount)
      && row.orderId in next.db.orders
  {
    if row.orderId in st.processedOrders {
      OrderSeen(db, done, row, p, st.db.orders, st.processedOrders, st.ordersCount);
    } else if row.orderId in st.db.orders {
      OrderFound(db, done, row, p, st.db.orders, st.processedOrders, st.ordersCount);
    } else {
      OrderCreated(db, done, row, p, p.date(row.orderDate).value, st.db.orders, st.processedOrders, st.ordersCount);
    }
  }

  /** A row whose shipment id was processed already leaves the shipments as they were. */
  lemma ShipmentSeen(db: Db, done: seq<OrderRow>, row: OrderRow, p: Parsers,
                     shipments: map<string, Shipment>, processed: set<string>, count: nat)
    requires ShipmentsImported(db, done, p, shipments, processed, count) && row.shipmentId in processed
    ensures ShipmentsImported(db, done + [row], p, shipments, processed, count)
  {
    var all := done + [row];
    ShipmentIdsSnoc(done, row);
    Snoc(done, row);
    FirstWithFound(done, row.shipmentId);
  }

  /** A row naming a new shipment creates it from its own cells and counts it. */
  lemma ShipmentCreated(db: Db, done: seq<OrderRow>, row: OrderRow, p: Parsers, shipment: Shipment,
                        shipments: map<string, Shipment>, processed: set<string>, count: nat)
    requires ShipmentsImported(db, done, p, shipments, processed, count)
    requires row.shipmentId !in shipments && BuildShipment(row, p) == Ok(shipment)
    ensures ShipmentsImported(db, done + [row], p, shipments[row.shipmentId := shipment],
                              processed + {row.shipmentId}, count + 1)
  {
    var all := done + [row];
    var next := shipments[row.shipmentId := shipment];
    ShipmentIdsSnoc(done, row);
    Snoc(done, row);
    assert row.shipmentId !in ShipmentIds(done) && row.shipmentId !in db.shipments;
    assert FirstOccurrences(all) == FirstOccurrences(done) + [row];
    assert |FirstOccurrences(all)| == count + 1;
    assert db.shipments.Keys !! ShipmentIds(all);
    assert next.Keys == db.shipments.Keys + ShipmentIds(all);
    forall s | s in db.shipments ensures next[s] == db.shipments[s] {
      assert s != row.shipmentId;
    }
    ShipmentBuiltFromRow(done, row, p, shipment, shipments);
  }

  /** The new shipment is built from its row; every other shipment keeps the row it came from. */
  lemma ShipmentBuiltFromRow(done: seq<OrderRow>, row: OrderRow, p: Parsers, shipment: Shipment,
                             shipments: map<string, Shipment>)
    requires ShipmentsBuilt(done, p, shipments)
    requires row.shipmentId !in ShipmentIds(done) && BuildShipment(row, p) == Ok(shipment)
    ensures ShipmentsBuilt(done + [row], p, shipments[row.shipmentId := shipment])
  {
    var all := done + [row];
    var next := shipments[row.shipmentId := shipment];
    ShipmentIdsSnoc(done, row);
    Snoc(done, row);
    forall s | s in ShipmentIds(all) ensures s in next && ShipmentFromRow(FirstWithShipment(all, s), next[s], p) {
      if s == row.shipmentId {
        FirstWithFound(done, s);
        assert FirstWithShipment(all, s) == Some(row);
      } else {
        assert FirstWithShipment(all, s) == FirstWithShipment(done, s);
      }
    }
  }

  lemma ShipmentPartShipments(db: Db, done: seq<OrderRow>, st: OrdersImport, row: OrderRow, p: Parsers)
    requires ShipmentsImported(db, done, p, st.db.shipments, st.processedShipments, st.shipmentsCount)
    requires ShipmentPart(st, row, p).Ok?
    ensures var next := ShipmentPart(st, row, p).value;
      ShipmentsImported(db, done + [row], p, next.db.shipments, next.processedShipments, next.shipmentsCount)
  {
    if row.shipmentId in st.processedShipments {
      ShipmentSeen(db, done, row, p, st.db.shipments, st.processedShipments, st.shipmentsCount);
    } else {
      ShipmentCreated(db, done, row, p, BuildShipment(row, p).value, st.db.shipments, st.processedShipments, st.shipmentsCount);
    }
  }

  lemma ShipmentPartItems(db: Db, done: seq<OrderRow>, st: OrdersImport, row: OrderRow, p: Parsers)
    requires PrimaryKeys(db)
    requires ItemsImported(db, done, st.db.items, st.db.nextItemId, st.itemsCount)
    requires st.processedShipments == ShipmentIds(done)
    requires ShipmentPart(st, row, p).Ok?
    ensures var next := ShipmentPart(st, row, p).value;
      ItemsImported(db, done + [row], next.db.items, next.db.nextItemId, next.itemsCount)
  {
    var all := done + [row];
    Snoc(done, row);
  }

  /** Storing an order whose customer exists keeps the constraints. */
  lemma AddOrderKeepsValid(db: Db, order: Order)
    requires Valid(db) && order.customerId in db.customers
    ensures Valid(db.(orders := db.orders[order.orderId := order]))
  {
    var next := db.(orders := db.orders[order.orderId := order]);
    forall s | s in next.shipments ensures next.shipments[s].orderId in next.orders {
      assert db.shipments[s].orderId in db.orders;
    }
  }

  /** Storing a shipment whose order exists keeps the constraints. */
  lemma AddShipmentKeepsValid(db: Db, shipment: Shipment)
    requires Valid(db) && shipment.orderId in db.orders
    ensures Valid(db.(shipments := db.shipments[shipment.shipmentId := shipment]))
  {
    var next := db.(shipments := db.shipments[shipment.shipmentId := shipment]);
    forall i | i in next.items ensures next.items[i].shipmentId in next.shipments {
      assert db.items[i].shipmentId in db.shipments;
    }
  }

  /** Storing an item of an existing shipment under the next id of the sequence keeps the constraints. */
  lemma AddItemKeepsValid(db: Db, item: ShipmentItem)
    requires Valid(db) && item.shipmentId in db.shipments
    ensures Valid(db.(items := db.items[db.nextItemId := item], nextItemId := db.nextItemId + 1))
  {
  }

  /** The loop invariant of `import_orders`, after the rows `done`. */
  ghost predicate Imported(db: Db, done: seq<OrderRow>, p: Parsers, st: OrdersImport) {
    && Valid(st.db)
    && st.db.customers == db.customers
    && OrdersImported(db, done, p, st.db.orders, st.processedOrders, st.ordersCount)
    && ShipmentsImported(db, done, p, st.db.shipments, st.processedShipments, st.shipmentsCount)
    && ItemsImported(db, done, st.db.items, st.db.nextItemId, st.itemsCount)
  }

  lemma OrderPartKeepsValid(st: OrdersImport, row: OrderRow, p: Parsers)
    requires Valid(st.db) && OrderPart(st, row, p).Ok?
    ensures Valid(OrderPart(st, row, p).value.db)
  {
    if row.orderId !in st.processedOrders && row.orderId !in st.db.orders {
      AddOrderKeepsValid(st.db, Order(row.orderId, row.customerId, p.date(row.orderDate).value));
    }
  }

  lemma ShipmentPartKeepsValid(st: OrdersImport, row: OrderRow, p: Parsers)
    requires Valid(st.db) && row.orderId in st.db.orders && ShipmentPart(st, row, p).Ok?
    ensures Valid(ShipmentPart(st, row, p).value.db)
  {
    if row.shipmentId !in st.processedShipments {
      var shipment := BuildShipment(row, p).value;
      AddShipmentKeepsValid(st.db, shipment);
      AddItemKeepsValid(st.db.(shipments := st.db.shipments[row.shipmentId := shipment]), BuildItem(row).value);
    }
  }

  /** One row keeps the loop invariant: `mid` after its order part, `next` after its shipment part. */
  lemma StepKeepsImported(db: Db, done: seq<OrderRow>, row: OrderRow, p: Parsers, st: OrdersImport, mid: OrdersImport, next: OrdersImport)
    requires Valid(db) && Imported(db, done, p, st)
    requires OrderPart(st, row, p) == Ok(mid) && ShipmentPart(mid, row, p) == Ok(next)
    ensures Imported(db, done + [row], p, next)
  {
    OrderPartOrders(db, done, st, row, p);
    OrderPartKeepsValid(st, row, p);
    ShipmentPartShipments(db, done, mid, row, p);
    ShipmentPartItems(db, done, mid, row, p);
    ShipmentPartKeepsValid(mid, row, p);
  }

  lemma ImportedSnoc(db: Db, rows: seq<OrderRow>, i: nat, p: Parsers, st: OrdersImport)
    requires i < |rows| && Imported(db, rows[..i] + [rows[i]], p, st)
    ensures Imported(db, rows[..i + 1], p, st)
  {
    PrefixSnoc(rows, i);
  }

  lemma {:induction false} FoldKeepsImported(db: Db, rows: seq<OrderRow>, i: nat, st: OrdersImport, p: Parsers)
    requires i <= |rows|
    requires Valid(db) && Imported(db, rows[..i], p, st) && OrdersFrom(st, rows[i..], p).Ok?
    ensures Imported(db, rows, p, OrdersFrom(st, rows[i..], p).value)
    decreases |rows| - i
  {
    if i == |rows| {
      assert rows[..i] == rows && rows[i..] == [];
    } else {
      assert rows[i..][0] == rows[i] && rows[i..][1..] == rows[i + 1..];
      var mid := OrderPart(st, rows[i], p).value;
      var next := OrderStep(st, rows[i], p).value;
      StepKeepsImported(db, rows[..i], rows[i], p, st, mid, next);
      ImportedSnoc(db, rows, i, p, next);
      FoldKeepsImported(db, rows, i + 1, next, p);
      assert OrdersFrom(st, rows[i..], p) == OrdersFrom(next, rows[i + 1..], p);
    }
  }

  /**
    What a successful `import_orders` leaves behind: one order per distinct order id not
    already stored, built from the first row naming it; one shipment and one item per
    distinct shipment id, built from the first row naming it; customers untouched, stored
    orders, shipments and items unchanged; the database constraints still hold.
  */
  lemma ImportOrdersEffect(db: Db, rows: seq<OrderRow>, p: Parsers)
    requires Valid(db) && ImportOrdersSpec(db, rows, p).Ok?
    ensures Imported(db, rows, p, ImportOrdersSpec(db, rows, p).value)
  {
    var empty := rows[..0];
    assert empty == [];
    assert OrderIds(empty) == {} && ShipmentIds(empty) == {};
    assert rows[0..] == rows;
    FoldKeepsImported(db, rows, 0, OrdersImport(db, {}, {}, 0, 0, 0), p);
  }

  /**
    The counters `import_orders` reports: orders created is the number of order ids of the
    file not stored before, at most the number of distinct order ids; shipments and items
    are each the number of distinct shipment ids.
  */
  lemma ImportOrdersCounts(db: Db, rows: seq<OrderRow>, p: Parsers)
    requires Valid(db) && ImportOrdersSpec(db, rows, p).Ok?
    ensures var st := ImportOrdersSpec(db, rows, p).value;
      && st.ordersCount == |OrderIds(rows) - db.orders.Keys| <= |OrderIds(rows)|
      && st.itemsCount == st.shipmentsCount == |ShipmentIds(rows)|
  {
    ImportOrdersEffect(db, rows, p);
    FirstOccurrencesUnique(rows);
    NewOrderCountIsDifference(db, rows);
    assert OrderIds(rows) - db.orders.Keys <= OrderIds(rows);
  }

  /** `import_orders`: the loop over the rows, with the two sets and three counters of the source. */
  method ImportOrders(db: Db, rows: seq<OrderRow>, p: Parsers) returns (res: Result<OrdersImport, ImportError>)
    ensures res == ImportOrdersSpec(db, rows, p)
  {
    var st := OrdersImport(db, {}, {}, 0, 0, 0);
    for i := 0 to |rows|
      invariant ImportOrdersSpec(db, rows, p) == OrdersFrom(st, rows[i..], p)
    {
      assert rows[i..][0] == rows[i] && rows[i..][1..] == rows[i + 1..];
      var mid := ImportOrderCells(st, rows[i], p);
      if mid.Err? {
        return mid;
      }
      var next := ImportShipmentCells(mid.value, rows[i], p);
      if next.Err? {
        return next;
      }
      st := next.value;
    }
    assert rows[|rows|..] == [];
    res := Ok(st);
  }

  /**
    The order half of the loop body: `get_or_create` once per new order id. The statements
    follow the source (the date parsed before the lookup, the counter bumped only on
    creation); `OrderPart` is the specification they are proved against, and the facts
    about the file are proved about that function.
  */
  method ImportOrderCells(st: OrdersImport, row: OrderRow, p: Parsers) returns (r: Result<OrdersImport, ImportError>)
    ensures r == OrderPart(st, row, p)
  {
    r := Ok(st);
    if row.orderId !in st.processedOrders {
      var orderDate := p.date(row.orderDate);
      if orderDate.None? {
        return Err(ValueError("Order Date", row.orderDate));
      }
      var cur := st.db;
      var ordersCount := st.ordersCount;
      if row.orderId !in cur.orders {
        if row.customerId !in cur.customers {
          return Err(MissingForeignKey("customer_id", row.customerId));
        }
        cur := cur.(orders := cur.orders[row.orderId := Order(row.orderId, row.customerId, orderDate.value)]);
        ordersCount := ordersCount + 1;
      }
      r := Ok(st.(db := cur, processedOrders := st.processedOrders + {row.orderId}, ordersCount := ordersCount));
    }
  }

  /**
    The shipment half of the loop body: a shipment and its item once per new shipment id.
    As in the source the shipment is inserted before the quantity is parsed; `ShipmentPart`
    is the specification this is proved against.
  */
  method ImportShipmentCells(st: OrdersImport, row: OrderRow, p: Parsers) returns (r: Result<OrdersImport, ImportError>)
    ensures r == ShipmentPart(st, row, p)
  {
    r := Ok(st);
    if row.shipmentId !in st.processedShipments {
      var shipment := BuildShipment(row, p);
      if shipment.Err? {
        return Err(shipment.error);
      }
      var cur := st.db;
      if row.shipmentId in cur.shipments {
        return Err(DuplicateKey("shipment_id", row.shipmentId));
      }
      cur := cur.(shipments := cur.shipments[row.shipmentId := shipment.value]);
      var item := BuildItem(row);
      if item.Err? {
        return Err(item.error);
      }
      cur := cur.(items := cur.items[cur.nextItemId := item.value], nextItemId := cur.nextItemId + 1);
      r := Ok(st.(db := cur, processedShipments := st.processedShipments + {row.shipmentId},
                  shipmentsCount := st.shipmentsCount + 1, itemsCount := st.itemsCount + 1));
    }
  }

  // =======================================================================================
  // import_orders: rows that change nothing

  lemma {:induction false} OrdersFromAppend(st: OrdersImport, a: seq<OrderRow>, b: seq<OrderRow>, p: Parsers)
    ensures OrdersFrom(st, a + b, p) ==
      match OrdersFrom(st, a, p)
      case Err(e) => Err(e)
      case Ok(mid) => OrdersFrom(mid, b, p)
    decreases |a|
  {
    if a == [] {
      assert a + b == b;
    } else {
      assert (a + b)[0] == a[0] && (a + b)[1..] == a[1..] + b;
      match OrderStep(st, a[0], p)
      case Err(e) =>
      case Ok(next) => OrdersFromAppend(next, a[1..], b, p);
    }
  }

  lemma {:induction false} OrdersFromTracksIds(st: OrdersImport, rows: seq<OrderRow>, p: Parsers)
    requires OrdersFrom(st, rows, p).Ok?
    ensures OrdersFrom(st, rows, p).value.processedOrders == st.processedOrders + OrderIds(rows)
    ensures OrdersFrom(st, rows, p).value.processedShipments == st.processedShipments + ShipmentIds(rows)
    decreases |rows|
  {
    if rows != [] {
      OrderIdsCons(rows);
      ShipmentIdsCons(rows);
      var next := OrderStep(st, rows[0], p).value;
      OrdersFromTracksIds(next, rows[1..], p);
    }
  }

  /**
    A row whose order id and shipment id have both been seen already is dropped: appending it
    to the file changes neither the outcome nor the database, however malformed its cells.
  */
  lemma RepeatedRowIgnored(db: Db, rows: seq<OrderRow>, row: OrderRow, p: Parsers)
    requires row.orderId in OrderIds(rows) && row.shipmentId in ShipmentIds(rows)
    ensures ImportOrdersSpec(db, rows + [row], p) == ImportOrdersSpec(db, rows, p)
  {
    var start := OrdersImport(db, {}, {}, 0, 0, 0);
    OrdersFromAppend(start, rows, [row], p);
    match OrdersFrom(start, rows, p)
    case Err(e) =>
    case Ok(mid) =>
      OrdersFromTracksIds(start, rows, p);
      assert OrderStep(mid, row, p) == Ok(mid);
      assert [row][1..] == [];
  }

  // =======================================================================================
  // import_orders: when the file is accepted

  /** The order cells of `row` pass, with `seen` the rows before it: a new order id needs a date and a customer. */
  ghost predicate OrderCellsAccepted(db: Db, seen: seq<OrderRow>, row: OrderRow, p: Parsers) {
    row.orderId !in OrderIds(seen) ==>
      p.date(row.orderDate).Some? && (row.orderId in db.orders || row.customerId in db.customers)
  }

  /** The shipment cells of `row` pass: a new shipment id must be free, its dates and its quantity parse. */
  ghost predicate ShipmentCellsAccepted(db: Db, seen: seq<OrderRow>, row: OrderRow, p: Parsers) {
    row.shipmentId !in ShipmentIds(seen) ==>
      row.shipmentId !in db.shipments && BuildShipment(row, p).Ok? && BuildItem(row).Ok?
  }

  ghost predicate RowAccepted(db: Db, seen: seq<OrderRow>, row: OrderRow, p: Parsers) {
    OrderCellsAccepted(db, seen, row, p) && ShipmentCellsAccepted(db, seen, row, p)
  }

  /** What the fold has done to the orders after the rows `seen`, as far as the next row can tell. */
  ghost predicate OrdersTracked(db: Db, st: OrdersImport, seen: seq<OrderRow>) {
    && st.processedOrders == OrderIds(seen)
    && st.db.customers == db.customers
    && (forall o :: o !in OrderIds(seen) ==> (o in st.db.orders <==> o in db.orders))
  }

  /** The same for the shipments. */
  ghost predicate ShipmentsTracked(db: Db, st: OrdersImport, seen: seq<OrderRow>) {
    && st.processedShipments == ShipmentIds(seen)
    && (forall s :: s !in ShipmentIds(seen) ==> (s in st.db.shipments <==> s in db.shipments))
  }

  lemma OrderPartAccepts(db: Db, st: OrdersImport, seen: seq<OrderRow>, row: OrderRow, p: Parsers)
    requires OrdersTracked(db, st, seen) && ShipmentsTracked(db, st, seen)
    ensures OrderPart(st, row, p).Ok? <==> OrderCellsAccepted(db, seen, row, p)
    ensures OrderPart(st, row, p).Ok? ==>
      OrdersTracked(db, OrderPart(st, row, p).value, seen + [row]) &&
      ShipmentsTracked(db, OrderPart(st, row, p).value, seen)
  {
    OrderIdsSnoc(seen, row);
  }

  lemma ShipmentPartAccepts(db: Db, st: OrdersImport, seen: seq<OrderRow>, row: OrderRow, p: Parsers)
    requires OrdersTracked(db, st, seen + [row]) && ShipmentsTracked(db, st, seen)
    ensures ShipmentPart(st, row, p).Ok? <==> ShipmentCellsAccepted(db, seen, row, p)
    ensures ShipmentPart(st, row, p).Ok? ==>
      OrdersTracked(db, ShipmentPart(st, row, p).value, seen + [row]) &&
      ShipmentsTracked(db, ShipmentPart(st, row, p).value, seen + [row])
  {
    ShipmentIdsSnoc(seen, row);
  }

  /** From a tracked state, the rest of the fold succeeds iff each remaining row is accepted at its turn. */
  lemma {:induction false} FoldAccepts(db: Db, seen: seq<OrderRow>, rest: seq<OrderRow>, st: OrdersImport, p: Parsers)
    requires OrdersTracked(db, st, seen) && ShipmentsTracked(db, st, seen)
    ensures OrdersFrom(st, rest, p).Ok? <==>
      forall k :: |seen| <= k < |seen + rest| ==> RowAccepted(db, (seen + rest)[..k], (seen + rest)[k], p)
    decreases |rest|
  {
    var all := seen + rest;
    if rest != [] {
      var row := rest[0];
      assert all[..|seen|] == seen && all[|seen|] == row;
      OrderPartAccepts(db, st, seen, row, p);
      match OrderPart(st, row, p)
      case Err(_) =>
      case Ok(mid) =>
        ShipmentPartAccepts(db, mid, seen, row, p);
        match ShipmentPart(mid, row, p)
        case Err(_) =>
        case Ok(next) =>
          assert (seen + [row]) + rest[1..] == all;
          FoldAccepts(db, seen + [row], rest[1..], next, p);
    }
  }

  /**
    `import_orders` commits iff every row is accepted at its turn: the first row naming an
    order id has a parsable order date and an existing order or customer, and the first row
    naming a shipment id has a free shipment id, parsable dates, both required dates and an
    integer quantity. Any other row is never looked at.
  */
  lemma ImportOrdersSucceeds(db: Db, rows: seq<OrderRow>, p: Parsers)
    ensures ImportOrdersSpec(db, rows, p).Ok? <==>
      forall k :: 0 <= k < |rows| ==> RowAccepted(db, rows[..k], rows[k], p)
  {
    var start := OrdersImport(db, {}, {}, 0, 0, 0);
    assert OrderIds([]) == {} && ShipmentIds([]) == {};
    assert [] + rows == rows;
    FoldAccepts(db, [], rows, start, p);
  }

  // =======================================================================================
  // handle

  datatype HandleOutcome =
    | CustomersFileNotFound
    | OrdersFileNotFound
    | Raised(error: ImportError)
    | Completed(customers: nat, orders: nat, shipments: nat, items: nat)

  /** `not path or not os.path.exists(path)`, with `existing` the paths that exist. */
  predicate Missing(path: Option<string>, existing: set<string>): (m: bool)
    ensures !m <==> path.Some? && path.value != "" && path.value in existing
  {
    path.None? || path.value == "" || path.value !in existing
  }

  /**
    `handle`: both paths are checked before anything is imported; customers are imported
    and committed first, then orders. A failure while importing orders leaves the customers
    of the first transaction in place.
  */
  method Handle(db: Db, customersFile: Option<string>, ordersFile: Option<string>, existing: set<string>,
                customerRows: seq<CustomerRow>, orderRows: seq<OrderRow>, p: Parsers)
    returns (outcome: HandleOutcome, after: Db)
    requires Valid(db)
    ensures Valid(after)
    ensures outcome == CustomersFileNotFound <==> Missing(customersFile, existing)
    ensures outcome == OrdersFileNotFound <==> !Missing(customersFile, existing) && Missing(ordersFile, existing)
    ensures outcome.CustomersFileNotFound? || outcome.OrdersFileNotFound? ==> after == db
    ensures !Missing(customersFile, existing) && !Missing(ordersFile, existing) ==>
      match ImportCustomersSpec(db, customerRows)
      case Err(e) => outcome == Raised(e) && after == db
      case Ok(c) =>
        match ImportOrdersSpec(c.db, orderRows, p)
        case Err(e) => outcome == Raised(e) && after == c.db
        case Ok(o) => outcome == Completed(c.count, o.ordersCount, o.shipmentsCount, o.itemsCount) && after == o.db
  {
    if Missing(customersFile, existing) {
      return CustomersFileNotFound, db;
    }
    if Missing(ordersFile, existing) {
      return OrdersFileNotFound, db;
    }
    var customers := ImportCustomers(db, customerRows);
    ImportCustomersEffect(db, customerRows);
    if customers.Err? {
      return Raised(customers.error), db;
    }
    var orders := ImportOrders(customers.value.db, orderRows, p);
    if orders.Ok? {
      ImportOrdersEffect(customers.value.db, orderRows, p);
    }
    if orders.Err? {
      return Raised(orders.error), customers.value.db;
    }
    var o := orders.value;
    outcome := Completed(customers.value.count, o.ordersCount, o.shipmentsCount, o.itemsCount);
    after := o.db;
  }
}
