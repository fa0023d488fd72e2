/**
  temporal/activities/Amazon/src/transformation.py: Selling Partner API
  orders to 33-column rows for the column store.
 */
module AmazonTransformation {
  import opened Wrappers
  import opened Literals
  import opened DateTimes
  import opened Values

  /** A column of the Amazon orders table. */
  datatype Column =
    | AmazonOrderId
    | ConnectedId
    | PurchaseDate
    | LastUpdateDate
    | OrderStatus
    | OrderType
    | FulfillmentChannel
    | SalesChannel
    | ShipServiceLevel
    | ShipmentServiceLevelCategory
    | EarliestShipDate
    | LatestShipDate
    | NumberOfItemsShipped
    | NumberOfItemsUnshipped
    | PaymentMethod
    | PaymentMethodDetails
    | MarketplaceId
    | SellerOrderId
    | IsPremiumOrder
    | IsPrime
    | IsBusinessOrder
    | IsReplacementOrder
    | IsGlobalExpressEnabled
    | HasRegulatedItems
    | IsIspu
    | IsAccessPointOrder
    | IsSoldByAb
    | OrderTotal
    | OrderTotalCurrencyCode
    | BuyerEmail
    | ShippingAddress
    | OrderItems
    | BatchedAt

  /** The column's name in the table. */
  function ColumnName(c: Column): string {
    match c
    case AmazonOrderId => "AmazonOrderId"
    case ConnectedId => "connected_id"
    case PurchaseDate => "PurchaseDate"
    case LastUpdateDate => "LastUpdateDate"
    case OrderStatus => "OrderStatus"
    case OrderType => "OrderType"
    case FulfillmentChannel => "FulfillmentChannel"
    case SalesChannel => "SalesChannel"
    case ShipServiceLevel => "ShipServiceLevel"
    case ShipmentServiceLevelCategory => "ShipmentServiceLevelCategory"
    case EarliestShipDate => "EarliestShipDate"
    case LatestShipDate => "LatestShipDate"
    case NumberOfItemsShipped => "NumberOfItemsShipped"
    case NumberOfItemsUnshipped => "NumberOfItemsUnshipped"
    case PaymentMethod => "PaymentMethod"
    case PaymentMethodDetails => "PaymentMethodDetails"
    case MarketplaceId => "MarketplaceId"
    case SellerOrderId => "SellerOrderId"
    case IsPremiumOrder => "IsPremiumOrder"
    case IsPrime => "IsPrime"
    case IsBusinessOrder => "IsBusinessOrder"
    case IsReplacementOrder => "IsReplacementOrder"
    case IsGlobalExpressEnabled => "IsGlobalExpressEnabled"
    case HasRegulatedItems => "HasRegulatedItems"
    case IsIspu => "IsISPU"
    case IsAccessPointOrder => "IsAccessPointOrder"
    case IsSoldByAb => "IsSoldByAB"
    case OrderTotal => "OrderTotal"
    case OrderTotalCurrencyCode => "OrderTotalCurrencyCode"
    case BuyerEmail => "BuyerEmail"
    case ShippingAddress => "ShippingAddress"
    case OrderItems => "OrderItems"
    case BatchedAt => "batchedAt"
  }

  /** `column_names`: the table's column order. */
  const Columns: seq<Column> := seq(33, ColumnAt)

  /** The entry at position `i` of `column_names`. */
  function ColumnAt(i: int): Column
    requires 0 <= i < 33
  {
    match i
    case 0 => AmazonOrderId
    case 1 => ConnectedId
    case 2 => PurchaseDate
    case 3 => LastUpdateDate
    case 4 => OrderStatus
    case 5 => OrderType
    case 6 => FulfillmentChannel
    case 7 => SalesChannel
    case 8 => ShipServiceLevel
    case 9 => ShipmentServiceLevelCategory
    case 10 => EarliestShipDate
    case 11 => LatestShipDate
    case 12 => NumberOfItemsShipped
    case 13 => NumberOfItemsUnshipped
    case 14 => PaymentMethod
    case 15 => PaymentMethodDetails
    case 16 => MarketplaceId
    case 17 => SellerOrderId
    case 18 => IsPremiumOrder
    case 19 => IsPrime
    case 20 => IsBusinessOrder
    case 21 => IsReplacementOrder
    case 22 => IsGlobalExpressEnabled
    case 23 => HasRegulatedItems
    case 24 => IsIspu
    case 25 => IsAccessPointOrder
    case 26 => IsSoldByAb
    case 27 => OrderTotal
    case 28 => OrderTotalCurrencyCode
    case 29 => BuyerEmail
    case 30 => ShippingAddress
    case 31 => OrderItems
    case 32 => BatchedAt
  }

  /** Position of a column in `Columns`. */
  function Position(c: Column): nat {
    match c
    case AmazonOrderId => 0
    case ConnectedId => 1
    case PurchaseDate => 2
    case LastUpdateDate => 3
    case OrderStatus => 4
    case OrderType => 5
    case FulfillmentChannel => 6
    case SalesChannel => 7
    case ShipServiceLevel => 8
    case ShipmentServiceLevelCategory => 9
    case EarliestShipDate => 10
    case LatestShipDate => 11
    case NumberOfItemsShipped => 12
    case NumberOfItemsUnshipped => 13
    case PaymentMethod => 14
    case PaymentMethodDetails => 15
    case MarketplaceId => 16
    case SellerOrderId => 17
    case IsPremiumOrder => 18
    case IsPrime => 19
    case IsBusinessOrder => 20
    case IsReplacementOrder => 21
    case IsGlobalExpressEnabled => 22
    case HasRegulatedItems => 23
    case IsIspu => 24
    case IsAccessPointOrder => 25
    case IsSoldByAb => 26
    case OrderTotal => 27
    case OrderTotalCurrencyCode => 28
    case BuyerEmail => 29
    case ShippingAddress => 30
    case OrderItems => 31
    case BatchedAt => 32
  }

  /** The `row` dict of one order: one entry per column. */
  datatype Row = Row(
    amazonOrderId: Cell,
    connectedId: Cell,
    purchaseDate: Cell,
    lastUpdateDate: Cell,
    orderStatus: Cell,
    orderType: Cell,
    fulfillmentChannel: Cell,
    salesChannel: Cell,
    shipServiceLevel: Cell,
    shipmentServiceLevelCategory: Cell,
    earliestShipDate: Cell,
    latestShipDate: Cell,
    numberOfItemsShipped: Cell,
    numberOfItemsUnshipped: Cell,
    paymentMethod: Cell,
    paymentMethodDetails: Cell,
    marketplaceId: Cell,
    sellerOrderId: Cell,
    isPremiumOrder: Cell,
    isPrime: Cell,
    isBusinessOrder: Cell,
    isReplacementOrder: Cell,
    isGlobalExpressEnabled: Cell,
    hasRegulatedItems: Cell,
    isIspu: Cell,
    isAccessPointOrder: Cell,
    isSoldByAb: Cell,
    orderTotal: Cell,
    orderTotalCurrencyCode: Cell,
    buyerEmail: Cell,
    shippingAddress: Cell,
    orderItems: Cell,
    batchedAt: Cell
  )

  /** `row[col]`. */
  function Lookup(row: Row, c: Column): Cell {
    match c
    case AmazonOrderId => row.amazonOrderId
    case ConnectedId => row.connectedId
    case PurchaseDate => row.purchaseDate
    case LastUpdateDate => row.lastUpdateDate
    case OrderStatus => row.orderStatus
    case OrderType => row.orderType
    case FulfillmentChannel => row.fulfillmentChannel
    case SalesChannel => row.salesChannel
    case ShipServiceLevel => row.shipServiceLevel
    case ShipmentServiceLevelCategory => row.shipmentServiceLevelCategory
    case EarliestShipDate => row.earliestShipDate
    case LatestShipDate => row.latestShipDate
    case NumberOfItemsShipped => row.numberOfItemsShipped
    case NumberOfItemsUnshipped => row.numberOfItemsUnshipped
    case PaymentMethod => row.paymentMethod
    case PaymentMethodDetails => row.paymentMethodDetails
    case MarketplaceId => row.marketplaceId
    case SellerOrderId => row.sellerOrderId
    case IsPremiumOrder => row.isPremiumOrder
    case IsPrime => row.isPrime
    case IsBusinessOrder => row.isBusinessOrder
    case IsReplacementOrder => row.isReplacementOrder
    case IsGlobalExpressEnabled => row.isGlobalExpressEnabled
    case HasRegulatedItems => row.hasRegulatedItems
    case IsIspu => row.isIspu
    case IsAccessPointOrder => row.isAccessPointOrder
    case IsSoldByAb => row.isSoldByAb
    case OrderTotal => row.orderTotal
    case OrderTotalCurrencyCode => row.orderTotalCurrencyCode
    case BuyerEmail => row.buyerEmail
    case ShippingAddress => row.shippingAddress
    case OrderItems => row.orderItems
    case BatchedAt => row.batchedAt
  }

  /** `column_names` has 33 entries and none twice. */
  lemma ColumnsDistinct()
    ensures |Columns| == 33 && Distinct(Columns)
  {
    assert forall i :: 0 <= i < |Columns| ==> Position(Columns[i]) == i;
  }
  /**
    `parse_datetime(dt_str, with_microseconds)`: None for a falsy value. With
    microseconds the text goes straight to `fromisoformat`. Without, the
    strict pattern '%Y-%m-%dT%H:%M:%SZ' is tried first and only its
    ValueError falls back to `fromisoformat`; a non-string makes `strptime`
    raise TypeError, which is not caught. Naive results stay naive.
   */
  function ParseDatetime(v: Value, withMicroseconds: bool): (r: Result<Option<DateTime>>)
    ensures !Truthy(v) ==> r == Ok(None)
    ensures Truthy(v) && r.Ok? ==> r.value.Some? && v.Str? && Valid(r.value.value)
  {
    if !Truthy(v) then Ok(None)
    else if withMicroseconds then
      var dt :- FromIsoText(v);
      Ok(Some(dt))
    else
      match v
      case Str(s) =>
        (match StrptimeZ(s)
         case Some(dt) => Ok(Some(dt))
         case None =>
           var dt :- FromIsoText(v);
           Ok(Some(dt)))
      case _ => Err(TypeError)
  }

  /** On the microsecond path an unparseable non-empty string raises ValueError instead of giving None. */
  lemma ParseDatetimeRaises(s: string)
    requires |s| > 0 && FromIsoFormat(ReplaceZ(s)).None?
    ensures ParseDatetime(Str(s), true) == Err(ValueError)
    ensures StrptimeZ(s).None? ==> ParseDatetime(Str(s), false) == Err(ValueError)
  {
    assert Truthy(Str(s));
    assert FromIsoText(Str(s)) == Err(ValueError);
  }

  /**
    A strict '...Z' timestamp: the strict path gives the naive wall-clock
    time, the microsecond path the same time at offset +00:00.
   */
  lemma ParseDatetimeStrict(s: string)
    requires StrptimeZ(s).Some?
    ensures ParseDatetime(Str(s), false) == Ok(Some(StrptimeZ(s).value))
    ensures ParseDatetime(Str(s), true) == Ok(Some(StrptimeZ(s).value.(offset := Some(0))))
  {
    StrictAndIsoAgree(s);
    assert Truthy(Str(s));
  }

  /** Any other text is read the same way by both paths. */
  lemma ParseDatetimeFallback(s: string)
    requires StrptimeZ(s).None?
    ensures ParseDatetime(Str(s), false) == ParseDatetime(Str(s), true)
  {
  }

  /** What `isoformat()` writes reads back as the same value on the microsecond path. */
  lemma ParseDatetimeIsoFormat(dt: DateTime)
    requires Valid(dt)
    ensures ParseDatetime(Str(IsoFormat(dt)), true) == Ok(Some(dt))
  {
    IsoFormatHasNoZ(dt);
    IsoRoundTrip(dt);
  }

  /**
    `Decimal(v)`: a bool is an int; `None` and dicts raise TypeError, bad
    text InvalidOperation. Every list is taken as a malformed
    `(sign, digits, exponent)` tuple and raises ValueError, including the
    well-formed ones `Decimal` accepts.
   */
  function DecimalOf(v: Value): Result<real> {
    match v
    case Bool(b) => Ok(if b then 1.0 else 0.0)
    case Int(i) => Ok(i as real)
    case Float(r) => Ok(r)
    case Str(s) => if ParseDecimal(s).Some? then Ok(ParseDecimal(s).value) else Err(InvalidOperation)
    case List(_) => Err(ValueError)
    case _ => Err(TypeError)
  }

  /**
    `order_total` and `order_total_currency_code`: None and '' unless
    `OrderTotal` is present and truthy. Then its `Amount` (default '0.00')
    becomes a Decimal and its `CurrencyCode` (default '') is taken as is; a
    TypeError or ValueError from `Decimal` leaves None and '', but
    InvalidOperation, and AttributeError from `.get` on a non-dict, escape.
   */
  function OrderTotalCells(order: Dict): Result<(Cell, Cell)> {
    if "OrderTotal" in order && Truthy(order["OrderTotal"]) then
      match order["OrderTotal"]
      case Object(f) =>
        (match DecimalOf(Get(f, "Amount", Str("0.00")))
         case Ok(d) => Ok((DecimalCell(d), RawOf(Get(f, "CurrencyCode", Str("")))))
         case Err(e) => if e == TypeError || e == ValueError then Ok((NullCell, TextCell(""))) else Err(e))
      case _ => Err(AttributeError)
    else Ok((NullCell, TextCell("")))
  }

  /** An absent or empty `OrderTotal` gives None and ''; a dict gives its amount and currency code. */
  lemma OrderTotalSpec(order: Dict)
    ensures !("OrderTotal" in order && Truthy(order["OrderTotal"])) ==> OrderTotalCells(order) == Ok((NullCell, TextCell("")))
    ensures "OrderTotal" in order && order["OrderTotal"].Object? && |order["OrderTotal"].fields| > 0 ==>
      var f := order["OrderTotal"].fields;
      DecimalOf(Get(f, "Amount", Str("0.00"))).Ok? ==>
        OrderTotalCells(order) == Ok((DecimalCell(DecimalOf(Get(f, "Amount", Str("0.00"))).value), RawOf(Get(f, "CurrencyCode", Str("")))))
    ensures OrderTotalCells(order).Ok? ==> OrderTotalCells(order).value.0 == NullCell ==> OrderTotalCells(order).value.1 == TextCell("")
  {
  }

  /** An `Amount` that is text but no decimal literal escapes the `except (TypeError, ValueError)`. */
  lemma OrderTotalInvalidAmount(order: Dict, amount: string)
    requires "OrderTotal" in order && order["OrderTotal"].Object?
    requires "Amount" in order["OrderTotal"].fields && order["OrderTotal"].fields["Amount"] == Str(amount)
    requires ParseDecimal(amount).None?
    ensures OrderTotalCells(order) == Err(InvalidOperation)
  {
    var f := order["OrderTotal"].fields;
    assert |f| > 0 by {
      assert f != map[] by { assert "Amount" in f; }
    }
    assert DecimalOf(Get(f, "Amount", Str("0.00"))) == Err(InvalidOperation);
  }

  /**
    `buyer_email`: None unless `BuyerInfo` is truthy and `'BuyerEmail' in`
    it. For a dict that is a key test and the value is taken as is; a list
    or a string that passes the membership test has no `.get`, and a number
    or a bool fails the `in` test itself.
   */
  function BuyerEmailCell(order: Dict): Result<Cell> {
    if "BuyerInfo" in order && Truthy(order["BuyerInfo"]) then
      match order["BuyerInfo"]
      case Object(f) => Ok(if "BuyerEmail" in f then RawOf(f["BuyerEmail"]) else NullCell)
      case List(items) => if Str("BuyerEmail") in items then Err(AttributeError) else Ok(NullCell)
      case Str(s) => if Contains(s, "BuyerEmail") then Err(AttributeError) else Ok(NullCell)
      case _ => Err(TypeError)
    else Ok(NullCell)
  }

  /** The e-mail is None unless `BuyerInfo` is a dict holding a `BuyerEmail` key, and then it is that entry. */
  lemma BuyerEmailSpec(order: Dict)
    ensures BuyerEmailCell(order).Ok? && BuyerEmailCell(order).value != NullCell ==>
      "BuyerInfo" in order && order["BuyerInfo"].Object? && "BuyerEmail" in order["BuyerInfo"].fields
    ensures "BuyerInfo" in order && order["BuyerInfo"].Object? && "BuyerEmail" in order["BuyerInfo"].fields ==>
      BuyerEmailCell(order) == Ok(RawOf(order["BuyerInfo"].fields["BuyerEmail"]))
    ensures "BuyerInfo" !in order ==> BuyerEmailCell(order) == Ok(NullCell)
  {
  }

  /** `shipping_address`: JSON text of a present, truthy `ShippingAddress`, else '{}'. */
  function ShippingAddressCell(order: Dict): Cell {
    if "ShippingAddress" in order && Truthy(order["ShippingAddress"]) then JsonCell(order["ShippingAddress"])
    else EmptyObjectJson
  }

  /** `order_items`: JSON text of a present, truthy `OrderItems`, else '[]'. */
  function OrderItemsCell(order: Dict): Cell {
    if "OrderItems" in order && Truthy(order["OrderItems"]) then JsonCell(order["OrderItems"])
    else EmptyArrayJson
  }

  /** The defaults '{}' and '[]' appear exactly for an absent or falsy value; otherwise the cell is the value's JSON text. */
  lemma JsonCellsSpec(order: Dict)
    ensures ShippingAddressCell(order) == EmptyObjectJson <==> !Truthy(Get0(order, "ShippingAddress"))
    ensures OrderItemsCell(order) == EmptyArrayJson <==> !Truthy(Get0(order, "OrderItems"))
    ensures Truthy(Get0(order, "ShippingAddress")) ==> ShippingAddressCell(order) == JsonCell(order["ShippingAddress"])
    ensures Truthy(Get0(order, "OrderItems")) ==> OrderItemsCell(order) == JsonCell(order["OrderItems"])
  {
  }

  /** `to_uint8` (a nested helper of the transform). */
  function ToUint8(v: Value): int {
    match v
    case Bool(b) => if b then 1 else 0
    case Str(s) => if Lower(s) == "true" then 1 else 0
    case _ => 0
  }

  /** 1 only for True or a string whose lower case is 'true'; None, numbers, lists and dicts give 0. */
  lemma ToUint8Spec(v: Value)
    ensures ToUint8(v) == 1 <==> v == Bool(true) || (v.Str? && Lower(v.s) == "true")
    ensures ToUint8(v) == 0 || ToUint8(v) == 1
  {
  }

  /** What every row of one run shares: the connection id and the batch stamp's ISO text. */
  datatype Stamp = Stamp(connectionId: string, batchedAt: string)

  /**
    The `row` dict built for one order, after the `OrderTotal` and
    `BuyerInfo` blocks, its entries evaluated in the order the dict literal
    lists them. The first conversion that raises aborts the row.
   */
  function PrepareRow(stamp: Stamp, order: Dict): (r: Result<Row>)
    ensures r.Ok? ==> r.value.connectedId == TextCell(stamp.connectionId)
    ensures r.Ok? ==> (ParseDatetime(Str(stamp.batchedAt), true).Ok?
      && r.value.batchedAt == TimeOrNull(ParseDatetime(Str(stamp.batchedAt), true).value))
  {
    var total :- OrderTotalCells(order);
    var email :- BuyerEmailCell(order);
    var purchase :- ParseDatetime(Get0(order, "PurchaseDate"), true);
    var lastUpdate :- ParseDatetime(Get0(order, "LastUpdateDate"), true);
    var earliest :- ParseDatetime(Get0(order, "EarliestShipDate"), true);
    var latest :- ParseDatetime(Get0(order, "LatestShipDate"), true);
    var shipped :- ToInt(Get(order, "NumberOfItemsShipped", Int(0)));
    var unshipped :- ToInt(Get(order, "NumberOfItemsUnshipped", Int(0)));
    var batched :- ParseDatetime(Str(stamp.batchedAt), true);
    Ok(Row(
      amazonOrderId := RawOf(Get(order, "AmazonOrderId", Str(""))),
      connectedId := TextCell(stamp.connectionId),
      purchaseDate := TimeOrNull(purchase),
      lastUpdateDate := TimeOrNull(lastUpdate),
      orderStatus := RawOf(Get(order, "OrderStatus", Str(""))),
      orderType := RawOf(Get(order, "OrderType", Str(""))),
      fulfillmentChannel := RawOf(Get(order, "FulfillmentChannel", Str(""))),
      salesChannel := RawOf(Get(order, "SalesChannel", Str(""))),
      shipServiceLevel := RawOf(Get(order, "ShipServiceLevel", Str(""))),
      shipmentServiceLevelCategory := RawOf(Get(order, "ShipmentServiceLevelCategory", Str(""))),
      earliestShipDate := TimeOrNull(earliest),
      latestShipDate := TimeOrNull(latest),
      numberOfItemsShipped := IntCell(shipped),
      numberOfItemsUnshipped := IntCell(unshipped),
      paymentMethod := RawOf(Get(order, "PaymentMethod", Str(""))),
      paymentMethodDetails := RawOf(Get(order, "PaymentMethodDetails", List([]))),
      marketplaceId := RawOf(Get(order, "MarketplaceId", Str(""))),
      sellerOrderId := RawOf(Get(order, "SellerOrderId", Str(""))),
      isPremiumOrder := IntCell(ToUint8(Get0(order, "IsPremiumOrder"))),
      isPrime := IntCell(ToUint8(Get0(order, "IsPrime"))),
      isBusinessOrder := IntCell(ToUint8(Get0(order, "IsBusinessOrder"))),
      isReplacementOrder := IntCell(ToUint8(Get0(order, "IsReplacementOrder"))),
      isGlobalExpressEnabled := IntCell(ToUint8(Get0(order, "IsGlobalExpressEnabled"))),
      hasRegulatedItems := IntCell(ToUint8(Get0(order, "HasRegulatedItems"))),
      isIspu := IntCell(ToUint8(Get0(order, "IsISPU"))),
      isAccessPointOrder := IntCell(ToUint8(Get0(order, "IsAccessPointOrder"))),
      isSoldByAb := IntCell(ToUint8(Get0(order, "IsSoldByAB"))),
      orderTotal := total.0,
      orderTotalCurrencyCode := total.1,
      buyerEmail := email,
      shippingAddress := ShippingAddressCell(order),
      orderItems := OrderItemsCell(order),
      batchedAt := TimeOrNull(batched)
    ))
  }

  /** An order with none of the keys gets every documented default and the parsed batch stamp. */
  lemma EmptyOrderDefaults(connectionId: string, now: DateTime)
    requires Valid(now)
    ensures PrepareRow(Stamp(connectionId, IsoFormat(now)), map[]) == Ok(Row(
      TextCell(""), TextCell(connectionId), NullCell, NullCell,
      TextCell(""), TextCell(""), TextCell(""), TextCell(""), TextCell(""), TextCell(""),
      NullCell, NullCell, IntCell(0), IntCell(0), TextCell(""), RawCell(List([])), TextCell(""), TextCell(""),
      IntCell(0), IntCell(0), IntCell(0), IntCell(0), IntCell(0), IntCell(0), IntCell(0), IntCell(0), IntCell(0),
      NullCell, TextCell(""), NullCell, EmptyObjectJson, EmptyArrayJson, TimeCell(now)))
  {
    ParseDatetimeIsoFormat(now);
    EmptyOrderRow(Stamp(connectionId, IsoFormat(now)), now);
  }

  /** The row of an empty order, for any stamp text that parses. */
  lemma EmptyOrderRow(stamp: Stamp, batched: DateTime)
    requires ParseDatetime(Str(stamp.batchedAt), true) == Ok(Some(batched))
    ensures PrepareRow(stamp, map[]) == Ok(Row(
      TextCell(""), TextCell(stamp.connectionId), NullCell, NullCell,
      TextCell(""), TextCell(""), TextCell(""), TextCell(""), TextCell(""), TextCell(""),
      NullCell, NullCell, IntCell(0), IntCell(0), TextCell(""), RawCell(List([])), TextCell(""), TextCell(""),
      IntCell(0), IntCell(0), IntCell(0), IntCell(0), IntCell(0), IntCell(0), IntCell(0), IntCell(0), IntCell(0),
      NullCell, TextCell(""), NullCell, EmptyObjectJson, EmptyArrayJson, TimeCell(batched)))
  {
    var empty: Dict := map[];
    assert OrderTotalCells(empty) == Ok((NullCell, TextCell("")));
    assert BuyerEmailCell(empty) == Ok(NullCell);
    assert ParseDatetime(Null, true) == Ok(None);
    assert ToInt(Int(0)) == Ok(0);
    assert ToUint8(Null) == 0;
  }

  /** With the stamp `isoformat()` wrote, a row fails exactly when one of the order's own conversions raises. */
  lemma PrepareRowFails(connectionId: string, now: DateTime, order: Dict)
    requires Valid(now)
    ensures PrepareRow(Stamp(connectionId, IsoFormat(now)), order).Err? <==>
      OrderTotalCells(order).Err? || BuyerEmailCell(order).Err?
      || ParseDatetime(Get0(order, "PurchaseDate"), true).Err? || ParseDatetime(Get0(order, "LastUpdateDate"), true).Err?
      || ParseDatetime(Get0(order, "EarliestShipDate"), true).Err? || ParseDatetime(Get0(order, "LatestShipDate"), true).Err?
      || ToInt(Get(order, "NumberOfItemsShipped", Int(0))).Err? || ToInt(Get(order, "NumberOfItemsUnshipped", Int(0))).Err?
  {
    ParseDatetimeIsoFormat(now);
  }

  /** What `transform_amazon_for_clickhouse` returns when the clock reads `now`. */
  function Transform(orders: seq<Dict>, connectionId: string, now: DateTime): Result<Batch>
    requires Valid(now)
  {
    var rows :- MapResult(Stamp(connectionId, IsoFormat(now)), orders, PrepareRow);
    Ok(Batch(OrderRows(rows, Columns, Lookup), Names(Columns, ColumnName), IsoFormat(now)))
  }

  /**
    `transform_amazon_for_clickhouse`: the batch stamp is the ISO text of
    one clock reading `now` (in UTC), every row parses it back, and the rows
    are then read out in column order.
   */
  method TransformAmazonForClickhouse(orders: seq<Dict>, connectionId: string, now: DateTime)
    returns (r: Result<Batch>)
    requires Valid(now)
    ensures r == Transform(orders, connectionId, now)
  {
    var batchedAt := IsoFormat(now);
    var prepared :- PrepareData(Stamp(connectionId, batchedAt), orders, PrepareRow);
    var ordered := OrderData(prepared, Columns, Lookup);
    TransformOk(orders, connectionId, now, prepared);
    r := Ok(Batch(ordered, Names(Columns, ColumnName), batchedAt));
  }

  /** When every row is built, the batch is those rows read out in column order. */
  lemma TransformOk(orders: seq<Dict>, connectionId: string, now: DateTime, rows: seq<Row>)
    requires Valid(now) && MapResult(Stamp(connectionId, IsoFormat(now)), orders, PrepareRow) == Ok(rows)
    ensures Transform(orders, connectionId, now) == Ok(Batch(OrderRows(rows, Columns, Lookup), Names(Columns, ColumnName), IsoFormat(now)))
  {
  }

  /** A row read out in column order has 33 entries, `connected_id` second and `batchedAt` last. */
  lemma OrderedRowShape(row: Row)
    ensures var cells := OrderRow(row, Columns, Lookup);
      |cells| == 33 && cells[1] == row.connectedId && cells[32] == row.batchedAt
  {
  }

  /** One row per order in input order, each the order's row read out in column order; the third result is the stamp's ISO text. */
  lemma TransformShape(orders: seq<Dict>, connectionId: string, now: DateTime)
    requires Valid(now) && Transform(orders, connectionId, now).Ok?
    ensures var b := Transform(orders, connectionId, now).value;
      && b.batchedAt == IsoFormat(now)
      && b.columns == Names(Columns, ColumnName)
      && |b.rows| == |orders|
      && forall k :: 0 <= k < |orders| ==>
           && PrepareRow(Stamp(connectionId, IsoFormat(now)), orders[k]).Ok?
           && b.rows[k] == OrderRow(PrepareRow(Stamp(connectionId, IsoFormat(now)), orders[k]).value, Columns, Lookup)
  {
    MapResultElements(Stamp(connectionId, IsoFormat(now)), orders, PrepareRow);
  }

  /** Every output row has 33 entries and carries the connection id and the one clock reading, parsed back from its ISO text. */
  lemma TransformStamps(orders: seq<Dict>, connectionId: string, now: DateTime)
    requires Valid(now) && Transform(orders, connectionId, now).Ok?
    ensures var b := Transform(orders, connectionId, now).value;
      forall k :: 0 <= k < |b.rows| ==>
        |b.rows[k]| == 33 && b.rows[k][1] == TextCell(connectionId) && b.rows[k][32] == TimeCell(now)
  {
    TransformShape(orders, connectionId, now);
    ParseDatetimeIsoFormat(now);
    var b := Transform(orders, connectionId, now).value;
    forall k | 0 <= k < |b.rows|
      ensures |b.rows[k]| == 33 && b.rows[k][1] == TextCell(connectionId) && b.rows[k][32] == TimeCell(now)
    {
      var row := PrepareRow(Stamp(connectionId, IsoFormat(now)), orders[k]).value;
      OrderedRowShape(row);
      BatchedAtCell(connectionId, now, orders[k]);
    }
  }

  /** A successful row's `batchedAt` is the clock reading itself. */
  lemma BatchedAtCell(connectionId: string, now: DateTime, order: Dict)
    requires Valid(now) && PrepareRow(Stamp(connectionId, IsoFormat(now)), order).Ok?
    ensures PrepareRow(Stamp(connectionId, IsoFormat(now)), order).value.batchedAt == TimeCell(now)
  {
    ParseDatetimeIsoFormat(now);
  }

  /**
    What `for order in orders` iterates: a list's items, a string's
    characters, nothing for an empty dict. A non-empty dict iterates its
    keys, which are strings; a `Shown` text iterates its characters. Other
    values raise TypeError as not iterable. For a non-empty dict or a
    `Shown` text every element is a string, so the first one's exception is
    the loop's (see `ElementError`): a one-character string never contains
    an order key, and a dict key does, when some key does (key order is not
    kept in a map).
   */
  function Elements(orders: Value): Result<seq<Value>> {
    match orders
    case List(items) => Ok(items)
    case Str(s) => Ok(seq(|s|, i requires 0 <= i < |s| => Str([s[i]])))
    case Object(f) =>
      if f == map[] then Ok([])
      else if exists k :: k in f && NamesTestedKey(k) then Err(TypeError)
      else Err(AttributeError)
    case Shown(_) => Err(AttributeError)
    case _ => Err(TypeError)
  }

  /** `key in order` is true for a string that holds one of the four keys the loop tests before its first `.get`. */
  predicate NamesTestedKey(s: string) {
    Contains(s, "OrderTotal") || Contains(s, "BuyerInfo") || Contains(s, "ShippingAddress") || Contains(s, "OrderItems")
  }

  /**
    The exception the loop body raises on an element that is not a dict.
    `'OrderTotal' in order` is a substring test on a string and a
    membership test on a list; when it holds, `order['OrderTotal']` raises
    TypeError, and likewise for the other three tested keys. Otherwise the
    first `order.get` raises AttributeError. On None, a bool or a number the
    `in` test itself raises TypeError.
   */
  function ElementError(v: Value): Exception
    requires !v.Object?
  {
    match v
    case Str(s) => if NamesTestedKey(s) then TypeError else AttributeError
    case List(items) =>
      if Str("OrderTotal") in items || Str("BuyerInfo") in items || Str("ShippingAddress") in items
         || Str("OrderItems") in items
      then TypeError else AttributeError
    case Shown(_) => AttributeError
    case _ => TypeError
  }

  /** The index of the first element that is not a dict, or the length when all are. */
  function FirstNonDict(items: seq<Value>): (k: nat)
    ensures k <= |items|
    ensures forall i :: 0 <= i < k ==> items[i].Object?
    ensures k < |items| ==> !items[k].Object?
  {
    if items == [] || !items[0].Object? then 0 else 1 + FirstNonDict(items[1..])
  }

  /** The dicts of a list of dict values. */
  function DictsOf(items: seq<Value>): (ds: seq<Dict>)
    requires forall i :: 0 <= i < |items| ==> items[i].Object?
    ensures |ds| == |items| && forall i :: 0 <= i < |items| ==> ds[i] == items[i].fields
  {
    seq(|items|, i requires 0 <= i < |items| => items[i].fields)
  }

  /**
    What `process_amazon_orders` returns for the decoded response `data`:
    `data.get('payload', {}).get('Orders', [])`, then the transform loop
    over its elements. The loop builds the rows of the leading dicts; the
    first element that is not a dict raises, unless a dict before it did.
   */
  function Process(data: Value, connectionId: string, now: DateTime): Result<Batch>
    requires Valid(now)
  {
    var payload :- GetIn(data, "payload", Object(map[]));
    var orders :- GetIn(payload, "Orders", List([]));
    var items :- Elements(orders);
    Loop(items, connectionId, now)
  }

  /** The transform loop over the iterated elements. */
  function Loop(items: seq<Value>, connectionId: string, now: DateTime): Result<Batch>
    requires Valid(now)
  {
    var k := FirstNonDict(items);
    var batch :- Transform(DictsOf(items[..k]), connectionId, now);
    if k < |items| then Err(ElementError(items[k])) else Ok(batch)
  }

  /** A list of dicts: the values wrapping the orders. */
  function Wrapped(orders: seq<Dict>): (items: seq<Value>)
    ensures |items| == |orders| && forall i :: 0 <= i < |orders| ==> items[i] == Object(orders[i])
  {
    seq(|orders|, i requires 0 <= i < |orders| => Object(orders[i]))
  }

  /**
    `process_amazon_orders`: find `payload.Orders` and transform it. The
    transform runs on the leading dicts, and the element after them raises.
   */
  method ProcessAmazonOrders(data: Value, connectionId: string, now: DateTime) returns (r: Result<Batch>)
    requires Valid(now)
    ensures r == Process(data, connectionId, now)
  {
    var payload :- GetIn(data, "payload", Object(map[]));
    var orders :- GetIn(payload, "Orders", List([]));
    var items :- Elements(orders);
    var k := FirstNonDict(items);
    var batch :- TransformAmazonForClickhouse(DictsOf(items[..k]), connectionId, now);
    if k < |items| {
      return Err(ElementError(items[k]));
    }
    r := Ok(batch);
  }

  /** A response without `payload`, or a payload without `Orders`, is an empty batch. */
  lemma ProcessWithoutOrders(data: Dict, connectionId: string, now: DateTime)
    requires Valid(now)
    requires "payload" !in data || (data["payload"].Object? && "Orders" !in data["payload"].fields)
    ensures Process(Object(data), connectionId, now) == Ok(Batch([], Names(Columns, ColumnName), IsoFormat(now)))
  {
  }

  /** A response whose `payload.Orders` is `orders` runs the loop over what `orders` iterates. */
  lemma ProcessIsLoop(orders: Value, connectionId: string, now: DateTime)
    requires Valid(now)
    ensures var p := Process(Object(map["payload" := Object(map["Orders" := orders])]), connectionId, now);
      && (Elements(orders).Err? ==> p == Err(Elements(orders).error))
      && (Elements(orders).Ok? ==> p == Loop(Elements(orders).value, connectionId, now))
  {
  }

  /** The orders of `payload.Orders` are transformed as given, in order. */
  lemma ProcessOrders(orders: seq<Dict>, connectionId: string, now: DateTime)
    requires Valid(now)
    ensures Process(Object(map["payload" := Object(map["Orders" := List(Wrapped(orders))])]), connectionId, now)
        == Transform(orders, connectionId, now)
  {
    var items := Wrapped(orders);
    ProcessIsLoop(List(items), connectionId, now);
    assert FirstNonDict(items) == |items|;
    assert items[..|items|] == items;
    assert DictsOf(items) == orders;
    assert Loop(items, connectionId, now) == Transform(orders, connectionId, now);
  }

  /**
    An element that is not a dict ends the loop with its own exception,
    once the dicts before it have been transformed without raising; a
    raising dict before it wins.
   */
  lemma ProcessStopsAtNonDict(orders: seq<Dict>, v: Value, rest: seq<Value>, connectionId: string, now: DateTime)
    requires Valid(now) && !v.Object?
    ensures var t := Transform(orders, connectionId, now);
      Process(Object(map["payload" := Object(map["Orders" := List(Wrapped(orders) + [v] + rest)])]), connectionId, now)
        == if t.Err? then Err(t.error) else Err(ElementError(v))
  {
    var items := Wrapped(orders) + [v] + rest;
    ProcessIsLoop(List(items), connectionId, now);
    FirstNonDictAt(items, |orders|);
    assert items[..|orders|] == Wrapped(orders);
    assert DictsOf(Wrapped(orders)) == orders;
    assert items[|orders|] == v;
    assert Loop(items, connectionId, now) == (var t := Transform(orders, connectionId, now); if t.Err? then Err(t.error) else Err(ElementError(v)));
  }

  /** The first non-dict is at `k` when all before it are dicts and the one at `k` is not. */
  lemma {:induction false} FirstNonDictAt(items: seq<Value>, k: nat)
    requires k < |items| && !items[k].Object?
    requires forall i :: 0 <= i < k ==> items[i].Object?
    ensures FirstNonDict(items) == k
  {
    if k > 0 {
      FirstNonDictAt(items[1..], k - 1);
    }
  }

  /**
    `Orders` need not be a list: an empty dict or string is iterated as no
    orders, a non-empty string fails on its first character's `.get`, and
    None, a bool or a number is not iterable.
   */
  lemma ProcessOtherIterables(orders: Value, connectionId: string, now: DateTime)
    requires Valid(now)
    ensures var data := Object(map["payload" := Object(map["Orders" := orders])]);
      && (orders == Object(map[]) || orders == Str("") ==>
            Process(data, connectionId, now) == Ok(Batch([], Names(Columns, ColumnName), IsoFormat(now))))
      && (orders.Str? && orders.s != [] ==> Process(data, connectionId, now) == Err(AttributeError))
      && (orders.Null? || orders.Bool? || orders.Int? || orders.Float? ==> Process(data, connectionId, now) == Err(TypeError))
  {
    ProcessIsLoop(orders, connectionId, now);
    if orders.Str? && orders.s != [] {
      var items := Elements(orders).value;
      assert !items[0].Object?;
      assert !NamesTestedKey(items[0].s);
    }
  }
}
